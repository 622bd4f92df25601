/** Vocabulary shared by both session state machines of the relay: octets, the
    ordered pending-chunk queue, the session stages, the transport actions a
    session asks for, and the stateful stream cipher seen from outside. */
module Relay {

  /** One octet of a Node Buffer. */
  type byte = x: int | 0 <= x < 256

  datatype Option<+T> = None | Some(value: T)

  /** `Buffer.concat`: the chunks of a queue joined in order. */
  function Concat(chunks: seq<seq<byte>>): (joined: seq<byte>)
    ensures |chunks| == 1 ==> joined == chunks[0]
  {
    if chunks == [] then [] else chunks[0] + Concat(chunks[1..])
  }

  /** Joining two queues one after the other joins their contents one after the other. */
  lemma {:induction false} ConcatAppend(a: seq<seq<byte>>, b: seq<seq<byte>>)
    ensures Concat(a + b) == Concat(a) + Concat(b)
  {
    if a == [] {
      assert a + b == b;
    } else {
      assert (a + b)[1..] == a[1..] + b;
      ConcatAppend(a[1..], b);
    }
  }

  /** The queue a session starts with once the destination is known: the bytes
      that followed the address header in the same chunk, if there were any. */
  function Leftover(trailing: seq<byte>): (q: seq<seq<byte>>)
    ensures Concat(q) == trailing
    ensures |q| <= 1
    ensures q == [] <==> trailing == []
  {
    if |trailing| > 0 then [trailing] else []
  }

  /** The `stage` closure variable; STAGE_UDP_ASSOC and STAGE_DNS are never entered. */
  datatype Stage = Init | Addr | Connecting | Stream | Destroyed

  /** The two kinds of destination address the relay dials: four IPv4 octets
      (dialled as dotted decimal) or a domain name (dialled as its characters). */
  datatype AddressType = IPv4 | DomainName

  /** A request a session makes of a transport other than writing bytes to it. */
  datatype Action =
    | EndClient                              // connection.end() on the SOCKS5 client
    | DestroyClient                          // connection.destroy() on the SOCKS5 client
    | OpenTunnel                             // new WebSocket(...) towards the relay server
    | CloseTunnel                            // WebSocket close()
    | TerminateTunnel                        // WebSocket terminate()
    | ConnectTarget(addressType: AddressType, host: seq<byte>, port: nat)  // net.createConnection to the destination
    | EndTarget                              // end() on the destination socket
    | DestroyTarget                          // destroy() on the destination socket
    | Raise                                  // an exception escapes the event handler

  /** Number of back transports (tunnel or destination socket) a log asks to open. */
  function BackOpens(actions: seq<Action>): nat
  {
    if actions == [] then 0
    else
      var k := |actions| - 1;
      BackOpens(actions[..k]) + (if actions[k].OpenTunnel? || actions[k].ConnectTarget? then 1 else 0)
  }

  /** Appending one action adds one to the count exactly when it opens a back transport. */
  lemma BackOpensAppend(actions: seq<Action>, a: Action)
    ensures BackOpens(actions + [a]) == BackOpens(actions) + (if a.OpenTunnel? || a.ConnectTarget? then 1 else 0)
  {
    assert (actions + [a])[..|actions|] == actions;
  }

  /** What a session has done on its transports so far, each log oldest first. */
  datatype Trace = Trace(
    written: seq<seq<byte>>,    // octets written to the unencrypted socket (client or destination), per write
    encrypted: seq<seq<byte>>,  // plaintexts handed to encrypt, one per tunnel frame sent
    decrypted: seq<seq<byte>>,  // tunnel frames handed to decrypt
    actions: seq<Action>)
  {
    function AddWrite(octets: seq<byte>): Trace { this.(written := written + [octets]) }
    function AddFrame(plain: seq<byte>): Trace { this.(encrypted := encrypted + [plain]) }
    function AddDecrypted(frame: seq<byte>): Trace { this.(decrypted := decrypted + [frame]) }
    function AddAction(a: Action): Trace { this.(actions := actions + [a]) }
  }

  /** The trace of a session that has not yet seen any event. */
  const EmptyTrace: Trace := Trace([], [], [], [])

  /** A stateful stream cipher as its caller sees it: the plaintext it yields for
      the next frame depends on every frame it was handed before. */
  type Cipher = (seq<seq<byte>>, seq<byte>) -> seq<byte>

  /** The plaintexts a cipher yields when handed `frames` one by one, in order. */
  function DecipherAll(decipher: Cipher, frames: seq<seq<byte>>): (r: seq<seq<byte>>)
    ensures |r| == |frames|
  {
    if frames == [] then []
    else
      var k := |frames| - 1;
      DecipherAll(decipher, frames[..k]) + [decipher(frames[..k], frames[k])]
  }

  /** Handing the cipher one more frame appends exactly its output, computed from the
      frames handed before it. */
  lemma DecipherAllAppend(decipher: Cipher, frames: seq<seq<byte>>, f: seq<byte>)
    ensures DecipherAll(decipher, frames + [f]) == DecipherAll(decipher, frames) + [decipher(frames, f)]
  {
    assert (frames + [f])[..|frames|] == frames;
  }

  /** Closed form: the i-th plaintext is what the cipher yields for the i-th frame
      after having been handed exactly the frames before it. */
  lemma {:induction false} DecipherAllAt(decipher: Cipher, frames: seq<seq<byte>>, i: nat)
    requires i < |frames|
    ensures DecipherAll(decipher, frames)[i] == decipher(frames[..i], frames[i])
  {
    var k := |frames| - 1;
    if i < k {
      DecipherAllAt(decipher, frames[..k], i);
      assert frames[..k][..i] == frames[..i];
    }
  }
}
