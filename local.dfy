/** The local relay's per-connection state machine (`handleConnectionByLocal`):
    SOCKS5 method selection and request/reply (sections 3, 4 and 6 of RFC 1928)
    on the client socket, an encrypted WebSocket tunnel behind it. */
module Local {
  import opened Relay
  import opened Codec
  import opened Registry

  const VERSION: byte := 0x05
  const CMD_CONNECT: byte := 0x01

  /** Method selection reply: version 5, "no authentication required". */
  const METHOD_SELECTED: seq<byte> := [0x05, 0x00]
  /** Request reply "succeeded", bound address 0.0.0.0:0, sent before the tunnel is up. */
  const REPLY_SUCCEEDED: seq<byte> := [0x05, 0x00, 0x00, 0x01, 0x00, 0x00, 0x00, 0x00, 0x00, 0x00]
  /** Request reply "command not supported". */
  const REPLY_COMMAND_NOT_SUPPORTED: seq<byte> := [0x05, 0x07, 0x00, 0x01, 0x00, 0x00, 0x00, 0x00, 0x00, 0x00]

  /** A version identifier/method selection message as section 3 of RFC 1928
      lays it out: VER, NMETHODS between 1 and 255, then exactly NMETHODS octets. */
  predicate WellFormedGreeting(data: seq<byte>)
  {
    |data| >= 2 && data[0] == VERSION && data[1] >= 1 && |data| == data[1] as int + 2
  }

  /** The greeting test: at least three octets and version 5; NMETHODS and the
      method list are not looked at, so every well-formed greeting passes. */
  predicate GreetingAccepted(data: seq<byte>): (accepted: bool)
    ensures WellFormedGreeting(data) ==> accepted
  {
    |data| >= 3 && data[0] == VERSION
  }

  /** The converse fails: a greeting whose NMETHODS disagrees with its length,
      or is zero, is accepted all the same. */
  lemma GreetingNeedNotBeWellFormed()
    ensures GreetingAccepted([VERSION, 0, 0]) && !WellFormedGreeting([VERSION, 0, 0])
    ensures GreetingAccepted([VERSION, 3, 0]) && !WellFormedGreeting([VERSION, 3, 0])
  {
  }

  /** How the request chunk in stage ADDR is answered. */
  datatype Request =
    | Malformed                                   // end, no reply
    | RequestOverrun                              // the header parser throws
    | CommandRejected                             // end with REPLY_COMMAND_NOT_SUPPORTED
    | Connect(header: AddressHeader, trailing: seq<byte>)  // reply, open the tunnel

  /** The checks of stage ADDR, in the source's order: length and version, then
      the address header at offset 3, then the command octet. */
  function ClassifyRequest(data: seq<byte>): (r: Request)
    ensures r.Connect? ==> |data| >= 10
  {
    if |data| < 10 || data[0] != VERSION then Malformed
    else
      match ParseAddressHeader(data, 3)
      case OutOfRange => RequestOverrun
      case Unsupported => Malformed
      case Parsed(h) =>
        if data[1] != CMD_CONNECT then CommandRejected
        else Connect(h, data[3 + h.headerLen ..])
  }

  /** The answer to a request: no reply for a short chunk, a wrong version or an
      unknown address type; "command not supported" for a readable request with a
      command other than CONNECT; and for CONNECT, a header that re-encodes to the
      octets it was read from, followed by the trailing bytes. */
  lemma ClassifyRequestOutcomes(data: seq<byte>)
    ensures ClassifyRequest(data).Malformed? <==>
              |data| < 10 || data[0] != VERSION || ParseAddressHeader(data, 3).Unsupported?
    ensures ClassifyRequest(data).CommandRejected? <==>
              |data| >= 10 && data[0] == VERSION && ParseAddressHeader(data, 3).Parsed? && data[1] != CMD_CONNECT
    ensures var r := ClassifyRequest(data);
            r.Connect? ==>
              data[0] == VERSION && data[1] == CMD_CONNECT && WellFormed(r.header) &&
              data[3..] == Encode(r.header) + r.trailing
  {
    if ClassifyRequest(data).Connect? {
      ConnectIsEncoding(data);
    }
  }

  /** An accepted request is the encoding of its header followed by its trailing bytes, from octet 3 on. */
  lemma ConnectIsEncoding(data: seq<byte>)
    requires ClassifyRequest(data).Connect?
    ensures data[3..] == Encode(ClassifyRequest(data).header) + ClassifyRequest(data).trailing
  {
    var h := ParseAddressHeader(data, 3).header;
    ParsedIsEncoding(data, 3);
    var rest := data[3..];
    assert rest[..h.headerLen] == data[3 .. 3 + h.headerLen];
    assert rest == rest[..h.headerLen] + rest[h.headerLen..];
  }

  /** A CONNECT request built from any well-formed header is accepted with that
      header, and whatever follows the header is the trailing payload. */
  lemma ConnectRequestAccepted(rsv: byte, h: AddressHeader, rest: seq<byte>)
    requires WellFormed(h) && 3 + h.headerLen + |rest| >= 10
    ensures ClassifyRequest([VERSION, CMD_CONNECT, rsv] + Encode(h) + rest) == Connect(h, rest)
  {
    ParseEncoding([VERSION, CMD_CONNECT, rsv], h, rest);
  }

  /** Any other command with a well-formed header is refused with "command not supported". */
  lemma OtherCommandRejected(cmd: byte, rsv: byte, h: AddressHeader, rest: seq<byte>)
    requires cmd != CMD_CONNECT
    requires WellFormed(h) && 3 + h.headerLen + |rest| >= 10
    ensures ClassifyRequest([VERSION, cmd, rsv] + Encode(h) + rest) == CommandRejected
  {
    ParseEncoding([VERSION, cmd, rsv], h, rest);
  }

  /** The life of `serverConnection` as its event callbacks see it. */
  datatype TunnelState = NoTunnel | TunnelPending | TunnelOpen | FirstFrameAcked


  /** What holds of a local session between events. Stage and tunnel agree;
      the client has seen at most the two fixed replies and then, once a tunnel
      exists, every tunnel frame's plaintext in order; until a CONNECT request is
      accepted nothing is queued, framed or opened; after that exactly one tunnel
      was opened, its first frame is the request from octet 3 on, and the bytes
      after the request's header followed by every later client chunk are either
      all still queued or all already framed, in order and once. */
  ghost predicate SessionInv(stage: Stage, tunnel: TunnelState, cache: seq<seq<byte>>, request: seq<byte>,
                             trace: Trace, decipher: Cipher, relayed: seq<seq<byte>>, accepted: Request)
  {
    (stage == Init || stage == Addr ==> tunnel == NoTunnel) &&
    (stage == Connecting ==> tunnel == TunnelPending || tunnel == TunnelOpen) &&
    (stage == Stream ==> tunnel == FirstFrameAcked) &&
    (stage == Init ==> trace.written == []) &&
    (stage == Addr ==> trace.written == [METHOD_SELECTED]) &&
    (tunnel == NoTunnel ==>
       cache == [] && trace.encrypted == [] && trace.decrypted == [] && relayed == [] &&
       BackOpens(trace.actions) == 0 &&
       (trace.written == [] || trace.written == [METHOD_SELECTED] ||
        trace.written == [METHOD_SELECTED, REPLY_COMMAND_NOT_SUPPORTED])) &&
    (tunnel != NoTunnel ==>
       accepted.Connect? && ClassifyRequest(request) == accepted && BackOpens(trace.actions) == 1 &&
       trace.written == [METHOD_SELECTED, REPLY_SUCCEEDED] + DecipherAll(decipher, trace.decrypted) &&
       (tunnel == TunnelPending ==> trace.encrypted == []) &&
       (tunnel == TunnelOpen ==> trace.encrypted == [request[3..]]) &&
       (tunnel != FirstFrameAcked ==> cache == Leftover(accepted.trailing) + relayed) &&
       (tunnel == FirstFrameAcked ==>
          cache == [] && |trace.encrypted| >= 2 && trace.encrypted[0] == request[3..] &&
          Concat(trace.encrypted[1..]) == accepted.trailing + Concat(relayed)))
  }

  /** Writing the plaintext of one more tunnel frame to the client keeps the invariant. */
  lemma ReceiveKeepsInv(stage: Stage, tunnel: TunnelState, cache: seq<seq<byte>>, request: seq<byte>, trace: Trace,
                        decipher: Cipher, relayed: seq<seq<byte>>, accepted: Request, frame: seq<byte>)
    requires SessionInv(stage, tunnel, cache, request, trace, decipher, relayed, accepted) && tunnel != NoTunnel
    ensures SessionInv(stage, tunnel, cache, request, trace.AddDecrypted(frame).AddWrite(decipher(trace.decrypted, frame)),
                       decipher, relayed, accepted)
  {
    DecipherAllAppend(decipher, trace.decrypted, frame);
  }

  /** Accepting a CONNECT request in stage ADDR keeps the invariant. */
  lemma AcceptKeepsInv(cache: seq<seq<byte>>, request: seq<byte>, trace: Trace, decipher: Cipher,
                       relayed: seq<seq<byte>>, accepted: Request, data: seq<byte>)
    requires SessionInv(Addr, NoTunnel, cache, request, trace, decipher, relayed, accepted)
    requires ClassifyRequest(data).Connect?
    ensures SessionInv(Connecting, TunnelPending, Leftover(ClassifyRequest(data).trailing), data,
                       trace.AddWrite(REPLY_SUCCEEDED).AddAction(OpenTunnel), decipher, relayed,
                       ClassifyRequest(data))
  {
    BackOpensAppend(trace.actions, OpenTunnel);
    assert DecipherAll(decipher, trace.decrypted) == [];
  }

  /** Acknowledging the first frame and sending the joined queue as the second keeps the invariant. */
  lemma FirstFrameSentKeepsInv(stage: Stage, cache: seq<seq<byte>>, request: seq<byte>, trace: Trace,
                               decipher: Cipher, relayed: seq<seq<byte>>, accepted: Request)
    requires SessionInv(stage, TunnelOpen, cache, request, trace, decipher, relayed, accepted)
    ensures SessionInv(Stream, FirstFrameAcked, [], request, trace.AddFrame(Concat(cache)), decipher,
                       relayed, accepted)
  {
    var e := trace.encrypted + [Concat(cache)];
    assert e[1..] == [Concat(cache)];
    assert Concat([Concat(cache)]) == Concat(cache);
    ConcatAppend(Leftover(accepted.trailing), relayed);
  }

  /** Framing one more client chunk in stage STREAM keeps the invariant. */
  lemma SendKeepsInv(cache: seq<seq<byte>>, request: seq<byte>, trace: Trace, decipher: Cipher,
                     relayed: seq<seq<byte>>, accepted: Request, data: seq<byte>)
    requires SessionInv(Stream, FirstFrameAcked, cache, request, trace, decipher, relayed, accepted)
    ensures SessionInv(Stream, FirstFrameAcked, cache, request, trace.AddFrame(data), decipher,
                       relayed + [data], accepted)
  {
    var e := trace.encrypted;
    ConcatAppend(e[1..], [data]);
    ConcatAppend(relayed, [data]);
    assert (e + [data])[1..] == e[1..] + [data];
  }

  class LocalSession {
    const registry: ConnectionRegistry
    /** `connectionId`: this session's slot in the registry. */
    const id: int
    /** The session's `encryptor` on the decrypting side. */
    const decipher: Cipher

    var stage: Stage
    var canWrite: bool                 // canWriteToLocalConnection
    var cache: seq<seq<byte>>          // dataCache
    var request: seq<byte>             // the ADDR chunk the open callback encrypts from
    var tunnel: TunnelState
    /** The client socket is the unencrypted side: `trace.written` is what the client was sent. */
    var trace: Trace
    /** The client chunks taken as payload after the request, in arrival order. */
    ghost var relayed: seq<seq<byte>>
    /** What `request` was read as, once a tunnel was opened for it. */
    ghost var accepted: Request

    ghost predicate Valid()
      reads this
    {
      0 <= id < MAX_CONNECTIONS &&
      SessionInv(stage, tunnel, cache, request, trace, decipher, relayed, accepted)
    }

    /** A client connection is accepted: it takes the next registry slot. */
    constructor (registry: ConnectionRegistry, conn: Conn, decipher: Cipher)
      requires registry.Valid()
      modifies registry
      ensures Valid() && registry.Valid()
      ensures this.registry == registry && this.decipher == decipher
      ensures id == SlotOf(old(registry.nextId)) && registry.nextId == old(registry.nextId) + 1
      ensures registry.slots == old(registry.slots)[id := Some(conn)]
      ensures stage == Init && canWrite && tunnel == NoTunnel && cache == [] && trace == EmptyTrace
    {
      var slot := registry.Accept(conn);
      this.registry := registry;
      this.id := slot;
      this.decipher := decipher;
      stage := Init;
      canWrite := true;
      cache := [];
      request := [];
      tunnel := NoTunnel;
      trace := EmptyTrace;
      relayed := [];
      accepted := Malformed;
    }

    /** The client socket's `data` event. */
    method OnClientData(data: seq<byte>)
      requires Valid()
      modifies this
      ensures Valid()
      ensures canWrite == old(canWrite)
      // INIT: method selection
      ensures old(stage) == Init ==>
                tunnel == NoTunnel && request == old(request) && cache == old(cache) && relayed == old(relayed) &&
                if GreetingAccepted(data) then stage == Addr && trace == old(trace).AddWrite(METHOD_SELECTED)
                else stage == Destroyed && trace == old(trace).AddAction(EndClient)
      // ADDR: request and reply
      ensures old(stage) == Addr ==>
                relayed == (if ClassifyRequest(data).Connect? then [] else old(relayed)) &&
                match ClassifyRequest(data)
                case Malformed =>
                  stage == Destroyed && tunnel == NoTunnel && request == old(request) && cache == old(cache) &&
                  trace == old(trace).AddAction(EndClient)
                case RequestOverrun =>
                  stage == Addr && tunnel == NoTunnel && request == old(request) && cache == old(cache) &&
                  trace == old(trace).AddAction(Raise)
                case CommandRejected =>
                  stage == Destroyed && tunnel == NoTunnel && request == old(request) && cache == old(cache) &&
                  trace == old(trace).AddWrite(REPLY_COMMAND_NOT_SUPPORTED).AddAction(EndClient)
                case Connect(_, trailing) =>
                  stage == Connecting && tunnel == TunnelPending && request == data && cache == Leftover(trailing) &&
                  trace == old(trace).AddWrite(REPLY_SUCCEEDED).AddAction(OpenTunnel)
      // CONNECTING: queue in arrival order
      ensures old(stage) == Connecting ==>
                stage == Connecting && tunnel == old(tunnel) && request == old(request) &&
                cache == old(cache) + [data] && relayed == old(relayed) + [data] && trace == old(trace)
      // STREAM: one frame per chunk while the client may still be written to
      ensures old(stage) == Stream ==>
                stage == Stream && tunnel == old(tunnel) && request == old(request) && cache == old(cache) &&
                relayed == (if canWrite then old(relayed) + [data] else old(relayed)) &&
                trace == if canWrite then old(trace).AddFrame(data) else old(trace)
      ensures old(stage) == Destroyed ==> unchanged(this)
    {
      match stage {
        case Init => OnGreeting(data);
        case Addr => OnRequest(data);
        case Connecting => Enqueue(data);
        case Stream => Send(data);
        case Destroyed =>
      }
    }

    /** Stage INIT: method selection. */
    method OnGreeting(data: seq<byte>)
      requires Valid() && stage == Init
      modifies this
      ensures Valid()
      ensures canWrite == old(canWrite) && tunnel == NoTunnel && request == old(request) && cache == old(cache)
      ensures relayed == old(relayed) && accepted == old(accepted)
      ensures if GreetingAccepted(data) then stage == Addr && trace == old(trace).AddWrite(METHOD_SELECTED)
              else stage == Destroyed && trace == old(trace).AddAction(EndClient)
    {
      if !GreetingAccepted(data) {
        BackOpensAppend(trace.actions, EndClient);
        stage, trace := Destroyed, trace.AddAction(EndClient);
      } else {
        stage, trace := Addr, trace.AddWrite(METHOD_SELECTED);
      }
    }

    /** Stage ADDR: the request is answered and, for CONNECT, the tunnel is opened
        with the bytes after the header as the first queued chunk. */
    method OnRequest(data: seq<byte>)
      requires Valid() && stage == Addr
      modifies this
      ensures Valid()
      ensures canWrite == old(canWrite)
      ensures relayed == if ClassifyRequest(data).Connect? then [] else old(relayed)
      ensures match ClassifyRequest(data)
              case Malformed =>
                stage == Destroyed && tunnel == NoTunnel && request == old(request) && cache == old(cache) &&
                trace == old(trace).AddAction(EndClient)
              case RequestOverrun =>
                stage == Addr && tunnel == NoTunnel && request == old(request) && cache == old(cache) &&
                trace == old(trace).AddAction(Raise)
              case CommandRejected =>
                stage == Destroyed && tunnel == NoTunnel && request == old(request) && cache == old(cache) &&
                trace == old(trace).AddWrite(REPLY_COMMAND_NOT_SUPPORTED).AddAction(EndClient)
              case Connect(_, trailing) =>
                stage == Connecting && tunnel == TunnelPending && request == data && cache == Leftover(trailing) &&
                trace == old(trace).AddWrite(REPLY_SUCCEEDED).AddAction(OpenTunnel)
    {
      match ClassifyRequest(data) {
        case Malformed =>
          BackOpensAppend(trace.actions, EndClient);
          stage, trace := Destroyed, trace.AddAction(EndClient);
        case RequestOverrun =>
          BackOpensAppend(trace.actions, Raise);
          trace := trace.AddAction(Raise);
        case CommandRejected =>
          BackOpensAppend(trace.actions, EndClient);
          stage, trace := Destroyed, trace.AddWrite(REPLY_COMMAND_NOT_SUPPORTED).AddAction(EndClient);
        case Connect(_, _) =>
          Accept(data);
      }
    }

    /** A CONNECT request: the optimistic success reply, stage CONNECTING, one
        tunnel opened, and the queue started with the bytes after the header. */
    method Accept(data: seq<byte>)
      requires Valid() && stage == Addr && ClassifyRequest(data).Connect?
      modifies this
      ensures Valid()
      ensures stage == Connecting && tunnel == TunnelPending && request == data && canWrite == old(canWrite)
      ensures cache == Leftover(ClassifyRequest(data).trailing) && relayed == []
      ensures trace == old(trace).AddWrite(REPLY_SUCCEEDED).AddAction(OpenTunnel)
    {
      AcceptKeepsInv(cache, request, trace, decipher, relayed, accepted, data);
      var r := ClassifyRequest(data);
      stage, tunnel, request, cache := Connecting, TunnelPending, data, Leftover(r.trailing);
      trace, accepted := trace.AddWrite(REPLY_SUCCEEDED).AddAction(OpenTunnel), r;
    }

    /** Stage CONNECTING: the chunk joins the queue behind those before it. */
    method Enqueue(data: seq<byte>)
      requires Valid() && stage == Connecting
      modifies this
      ensures Valid()
      ensures stage == Connecting && tunnel == old(tunnel) && request == old(request) && canWrite == old(canWrite)
      ensures cache == old(cache) + [data] && relayed == old(relayed) + [data] && trace == old(trace)
      ensures accepted == old(accepted)
    {
      cache, relayed := cache + [data], relayed + [data];
    }

    /** Stage STREAM: the chunk is one tunnel frame, if the client may still be written to. */
    method Send(data: seq<byte>)
      requires Valid() && stage == Stream
      modifies this
      ensures Valid()
      ensures stage == Stream && tunnel == old(tunnel) && request == old(request) && cache == old(cache)
      ensures canWrite == old(canWrite)
      ensures trace == if canWrite then old(trace).AddFrame(data) else old(trace)
      ensures relayed == (if canWrite then old(relayed) + [data] else old(relayed)) && accepted == old(accepted)
    {
      if canWrite {
        SendKeepsInv(cache, request, trace, decipher, relayed, accepted, data);
        trace, relayed := trace.AddFrame(data), relayed + [data];
      }
    }

    /** The tunnel's `open` event: the first frame is the request from octet 3 on
        (the address header and any bytes after it), whatever the stage is now. */
    method OnTunnelOpen()
      requires Valid() && tunnel == TunnelPending
      modifies this
      ensures Valid()
      ensures tunnel == TunnelOpen && trace == old(trace).AddFrame(request[3..]) && old(trace.encrypted) == []
      ensures stage == old(stage) && canWrite == old(canWrite) && cache == old(cache) && request == old(request)
      ensures relayed == old(relayed) && accepted == old(accepted)
    {
      trace, tunnel := trace.AddFrame(request[3..]), TunnelOpen;
    }

    /** The completion callback of the first frame's send: the stage becomes STREAM
        (even from DESTROYED) and the queue, joined, is the second frame. */
    method OnFirstFrameSent()
      requires Valid() && tunnel == TunnelOpen
      modifies this
      ensures Valid()
      ensures stage == Stream && tunnel == FirstFrameAcked && cache == []
      ensures trace == old(trace).AddFrame(Concat(old(cache)))
      ensures canWrite == old(canWrite) && request == old(request)
      ensures relayed == old(relayed) && accepted == old(accepted)
    {
      FirstFrameSentKeepsInv(stage, cache, request, trace, decipher, relayed, accepted);
      stage, tunnel, cache, trace := Stream, FirstFrameAcked, [], trace.AddFrame(Concat(cache));
    }

    /** The tunnel's `message` event: decrypted and written to the client only while
        `canWriteToLocalConnection` holds; otherwise the cipher is not even asked. */
    method OnTunnelMessage(frame: seq<byte>)
      requires Valid() && tunnel != NoTunnel
      modifies this
      ensures Valid()
      ensures trace == if canWrite then old(trace).AddDecrypted(frame).AddWrite(decipher(old(trace.decrypted), frame))
                       else old(trace)
      ensures stage == old(stage) && canWrite == old(canWrite) && tunnel == old(tunnel)
      ensures cache == old(cache) && request == old(request)
      ensures relayed == old(relayed) && accepted == old(accepted)
    {
      if canWrite {
        ReceiveKeepsInv(stage, tunnel, cache, request, trace, decipher, relayed, accepted, frame);
        var plain := decipher(trace.decrypted, frame);
        trace := trace.AddDecrypted(frame).AddWrite(plain);
      }
    }

    /** The tunnel's `error` and `close` events (identical handlers): DESTROYED, and
        the client is ended. */
    method OnTunnelErrorOrClose()
      requires Valid() && tunnel != NoTunnel
      modifies this
      ensures Valid()
      ensures stage == Destroyed && trace == old(trace).AddAction(EndClient)
      ensures canWrite == old(canWrite) && tunnel == old(tunnel) && cache == old(cache) && request == old(request)
      ensures relayed == old(relayed) && accepted == old(accepted)
    {
      BackOpensAppend(trace.actions, EndClient);
      stage, trace := Destroyed, trace.AddAction(EndClient);
    }

    /** The client's `end` event: only the stage changes; the tunnel stays up. */
    method OnClientEnd()
      requires Valid()
      modifies this
      ensures Valid()
      ensures stage == Destroyed && trace == old(trace)
      ensures canWrite == old(canWrite) && tunnel == old(tunnel) && cache == old(cache) && request == old(request)
      ensures relayed == old(relayed) && accepted == old(accepted)
    {
      stage := Destroyed;
    }

    /** The client's `close` event: writes stop, the slot is nulled, the tunnel
        (if one was opened) is terminated. */
    method OnClientClose()
      requires Valid() && registry.Valid()
      modifies this, registry
      ensures Valid() && registry.Valid()
      ensures stage == Destroyed && !canWrite
      ensures registry.slots == old(registry.slots)[id := None] && registry.nextId == old(registry.nextId)
      ensures trace == if tunnel != NoTunnel then old(trace).AddAction(TerminateTunnel) else old(trace)
      ensures tunnel == old(tunnel) && cache == old(cache) && request == old(request)
      ensures relayed == old(relayed) && accepted == old(accepted)
    {
      var t := trace;
      if tunnel != NoTunnel {
        BackOpensAppend(t.actions, TerminateTunnel);
        t := t.AddAction(TerminateTunnel);
      }
      stage, canWrite, trace := Destroyed, false, t;
      registry.Release(id);
    }

    /** The client's `error` event: the client is destroyed, writes stop, the slot
        is nulled, the tunnel (if one was opened) is closed. */
    method OnClientError()
      requires Valid() && registry.Valid()
      modifies this, registry
      ensures Valid() && registry.Valid()
      ensures stage == Destroyed && !canWrite
      ensures registry.slots == old(registry.slots)[id := None] && registry.nextId == old(registry.nextId)
      ensures trace == if tunnel != NoTunnel then old(trace).AddAction(DestroyClient).AddAction(CloseTunnel)
                       else old(trace).AddAction(DestroyClient)
      ensures tunnel == old(tunnel) && cache == old(cache) && request == old(request)
      ensures relayed == old(relayed) && accepted == old(accepted)
    {
      BackOpensAppend(trace.actions, DestroyClient);
      var t := trace.AddAction(DestroyClient);
      if tunnel != NoTunnel {
        BackOpensAppend(t.actions, CloseTunnel);
        t := t.AddAction(CloseTunnel);
      }
      stage, canWrite, trace := Destroyed, false, t;
      registry.Release(id);
    }
  }
}
