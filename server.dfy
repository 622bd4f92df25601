/** The relay server's per-connection state machine (`handleConnectionByServer`):
    an encrypted WebSocket tunnel in front, a TCP connection to the destination
    named in the tunnel's first frame behind it. */
module Server {
  import opened Relay
  import opened Codec
  import opened Registry

  /** The shortest first frame looked at (tcprelay.js, line 176). */
  const MIN_FIRST_FRAME: nat := 7

  /** How the first decrypted frame is answered. */
  datatype FirstFrame =
    | Refused                                          // close the tunnel
    | FrameOverrun                                     // the header parser throws
    | Destination(header: AddressHeader, trailing: seq<byte>)  // connect to the destination

  /** The checks of stage INIT: length first, then the address header at offset 0. */
  function ClassifyFirstFrame(plain: seq<byte>): (r: FirstFrame)
    ensures r.Destination? ==> |plain| >= MIN_FIRST_FRAME && r.header.headerLen + |r.trailing| == |plain|
  {
    if |plain| < MIN_FIRST_FRAME then Refused
    else
      match ParseAddressHeader(plain, 0)
      case OutOfRange => FrameOverrun
      case Unsupported => Refused
      case Parsed(h) => Destination(h, plain[h.headerLen..])
  }

  /** The answer to a first frame: refused when it is short or its type octet is
      unknown; otherwise, when readable, a header that re-encodes to the octets it
      was read from, followed by the trailing bytes. */
  lemma ClassifyFirstFrameOutcomes(plain: seq<byte>)
    ensures ClassifyFirstFrame(plain).Refused? <==>
              |plain| < MIN_FIRST_FRAME || ParseAddressHeader(plain, 0).Unsupported?
    ensures var r := ClassifyFirstFrame(plain);
            r.Destination? ==>
              |plain| >= MIN_FIRST_FRAME && WellFormed(r.header) && plain == Encode(r.header) + r.trailing
  {
    if |plain| >= MIN_FIRST_FRAME && ParseAddressHeader(plain, 0).Parsed? {
      var h := ParseAddressHeader(plain, 0).header;
      ParsedIsEncoding(plain, 0);
      assert plain == plain[..h.headerLen] + plain[h.headerLen..];
    }
  }

  /** A frame that starts with any well-formed header's encoding names that
      destination, and what follows the header is the trailing payload. */
  lemma EncodedHeaderAccepted(h: AddressHeader, rest: seq<byte>)
    requires WellFormed(h) && h.headerLen + |rest| >= MIN_FIRST_FRAME
    ensures ClassifyFirstFrame(Encode(h) + rest) == Destination(h, rest)
  {
    ParseEncoding([], h, rest);
    assert [] + Encode(h) + rest == Encode(h) + rest;
  }

  /** The life of `targetConnection` as its event callbacks see it. */
  datatype Target = NoTarget | TargetPending | TargetConnected

  /** What holds of a server session between events. Stage and destination
      connection agree; until a destination is dialled nothing is queued, written
      or opened; after that exactly one connection was dialled, to the header
      the first frame was read as, and the bytes due to the destination (the
      first frame's trailing bytes, then every later plaintext) are either all
      still queued or all already written, in order and once. */
  ghost predicate SessionInv(stage: Stage, target: Target, cache: seq<seq<byte>>, trace: Trace,
                             first: seq<byte>, relayed: seq<seq<byte>>, named: FirstFrame)
  {
    stage != Addr &&
    (stage == Init ==> target == NoTarget) &&
    (stage == Connecting ==> target == TargetPending) &&
    (stage == Stream ==> target == TargetConnected) &&
    (target == NoTarget ==>
       cache == [] && trace.written == [] && relayed == [] && BackOpens(trace.actions) == 0) &&
    (target != NoTarget ==>
       named.Destination? && ClassifyFirstFrame(first) == named &&
       BackOpens(trace.actions) == 1 && ConnectTarget(named.header.addressType, named.header.host, named.header.port) in trace.actions &&
       (target == TargetPending ==> trace.written == [] && cache == Leftover(named.trailing) + relayed) &&
       (target == TargetConnected ==>
          cache == [] && |trace.written| >= 1 && Concat(trace.written) == named.trailing + Concat(relayed)))
  }

  /** Dialling the destination a first frame names keeps the invariant. */
  lemma DialKeepsInv(cache: seq<seq<byte>>, trace: Trace, first: seq<byte>, relayed: seq<seq<byte>>,
                     named: FirstFrame, plain: seq<byte>)
    requires SessionInv(Init, NoTarget, cache, trace, first, relayed, named)
    requires ClassifyFirstFrame(plain).Destination?
    ensures var d := ClassifyFirstFrame(plain);
            SessionInv(Connecting, TargetPending, Leftover(d.trailing),
                       trace.AddAction(ConnectTarget(d.header.addressType, d.header.host, d.header.port)), plain, relayed, d)
  {
    var d := ClassifyFirstFrame(plain);
    BackOpensAppend(trace.actions, ConnectTarget(d.header.addressType, d.header.host, d.header.port));
  }

  /** Writing one more plaintext to a connected destination keeps the invariant. */
  lemma WriteKeepsInv(cache: seq<seq<byte>>, trace: Trace, first: seq<byte>, relayed: seq<seq<byte>>,
                      named: FirstFrame, plain: seq<byte>)
    requires SessionInv(Stream, TargetConnected, cache, trace, first, relayed, named)
    ensures SessionInv(Stream, TargetConnected, cache, trace.AddWrite(plain), first, relayed + [plain], named)
  {
    ConcatAppend(trace.written, [plain]);
    ConcatAppend(relayed, [plain]);
    assert Concat([plain]) == plain;
  }

  class ServerSession {
    const registry: ConnectionRegistry
    /** `connectionId`: this session's slot in the registry. */
    const id: int
    /** The session's `encryptor` on the decrypting side. */
    const decipher: Cipher

    var stage: Stage
    var target: Target
    var cache: seq<seq<byte>>          // dataCache
    /** The destination is the unencrypted side: `trace.written` is what it was sent. */
    var trace: Trace
    /** The plaintext of the frame that named the destination. */
    ghost var first: seq<byte>
    /** The plaintexts of the frames taken as payload after it, in arrival order. */
    ghost var relayed: seq<seq<byte>>
    /** What `first` was read as, once a destination was dialled for it. */
    ghost var named: FirstFrame

    ghost predicate Valid()
      reads this
    {
      0 <= id < MAX_CONNECTIONS && SessionInv(stage, target, cache, trace, first, relayed, named)
    }

    /** A tunnel connection is accepted: it takes the next registry slot. */
    constructor (registry: ConnectionRegistry, conn: Conn, decipher: Cipher)
      requires registry.Valid()
      modifies registry
      ensures Valid() && registry.Valid()
      ensures this.registry == registry && this.decipher == decipher
      ensures id == SlotOf(old(registry.nextId)) && registry.nextId == old(registry.nextId) + 1
      ensures registry.slots == old(registry.slots)[id := Some(conn)]
      ensures stage == Init && target == NoTarget && cache == [] && trace == EmptyTrace
    {
      var slot := registry.Accept(conn);
      this.registry := registry;
      this.id := slot;
      this.decipher := decipher;
      stage := Init;
      target := NoTarget;
      cache := [];
      trace := EmptyTrace;
      first := [];
      relayed := [];
      named := Refused;
    }

    /** The tunnel's `message` event: every frame is decrypted, whatever the stage,
        and its plaintext is then routed by the stage. */
    method OnTunnelMessage(frame: seq<byte>)
      requires Valid()
      modifies this
      ensures Valid()
      ensures old(stage) == Init ==>
                var plain := decipher(old(trace.decrypted), frame);
                (if ClassifyFirstFrame(plain).Destination? then first == plain && relayed == []
                 else first == old(first) && relayed == old(relayed)) &&
                match ClassifyFirstFrame(plain)
                case Refused =>
                  stage == Destroyed && target == NoTarget && cache == old(cache) &&
                  trace == old(trace).AddDecrypted(frame).AddAction(CloseTunnel)
                case FrameOverrun =>
                  stage == Init && target == NoTarget && cache == old(cache) &&
                  trace == old(trace).AddDecrypted(frame).AddAction(Raise)
                case Destination(h, trailing) =>
                  stage == Connecting && target == TargetPending && cache == Leftover(trailing) &&
                  trace == old(trace).AddDecrypted(frame).AddAction(ConnectTarget(h.addressType, h.host, h.port))
      ensures old(stage) == Connecting ==>
                stage == Connecting && target == old(target) &&
                cache == old(cache) + [decipher(old(trace.decrypted), frame)] &&
                first == old(first) && relayed == old(relayed) + [decipher(old(trace.decrypted), frame)] &&
                trace == old(trace).AddDecrypted(frame)
      ensures old(stage) == Stream ==>
                stage == Stream && target == old(target) && cache == old(cache) &&
                first == old(first) && relayed == old(relayed) + [decipher(old(trace.decrypted), frame)] &&
                trace == old(trace).AddDecrypted(frame).AddWrite(decipher(old(trace.decrypted), frame))
      ensures old(stage) == Destroyed ==>
                stage == Destroyed && target == old(target) && cache == old(cache) &&
                first == old(first) && relayed == old(relayed) && trace == old(trace).AddDecrypted(frame)
    {
      var plain := decipher(trace.decrypted, frame);
      trace := trace.AddDecrypted(frame);
      match stage {
        case Init => OnFirstFrame(plain);
        case Connecting =>
          cache, relayed := cache + [plain], relayed + [plain];
        case Stream => Write(plain);
        case Destroyed =>
      }
    }

    /** Stage INIT: the first plaintext names the destination or ends the session. */
    method OnFirstFrame(plain: seq<byte>)
      requires Valid() && stage == Init
      modifies this
      ensures Valid()
      ensures if ClassifyFirstFrame(plain).Destination? then first == plain && relayed == []
              else first == old(first) && relayed == old(relayed) && named == old(named)
      ensures match ClassifyFirstFrame(plain)
              case Refused =>
                stage == Destroyed && target == NoTarget && cache == old(cache) &&
                trace == old(trace).AddAction(CloseTunnel)
              case FrameOverrun =>
                stage == Init && target == NoTarget && cache == old(cache) && trace == old(trace).AddAction(Raise)
              case Destination(h, trailing) =>
                stage == Connecting && target == TargetPending && cache == Leftover(trailing) &&
                trace == old(trace).AddAction(ConnectTarget(h.addressType, h.host, h.port))
    {
      match ClassifyFirstFrame(plain) {
        case Refused =>
          BackOpensAppend(trace.actions, CloseTunnel);
          stage, trace := Destroyed, trace.AddAction(CloseTunnel);
        case FrameOverrun =>
          BackOpensAppend(trace.actions, Raise);
          trace := trace.AddAction(Raise);
        case Destination(_, _) => Dial(plain);
      }
    }

    /** An accepted first frame, read as a header followed by trailing bytes: stage
        CONNECTING, one connection dialled to the header, and the queue started
        with the trailing bytes. */
    method Dial(plain: seq<byte>)
      requires Valid() && stage == Init && ClassifyFirstFrame(plain).Destination?
      modifies this
      ensures Valid()
      ensures var d := ClassifyFirstFrame(plain);
              stage == Connecting && target == TargetPending && cache == Leftover(d.trailing) &&
              trace == old(trace).AddAction(ConnectTarget(d.header.addressType, d.header.host, d.header.port))
      ensures first == plain && relayed == [] && named == ClassifyFirstFrame(plain)
    {
      DialKeepsInv(cache, trace, first, relayed, named, plain);
      var d := ClassifyFirstFrame(plain);
      stage, target, cache := Connecting, TargetPending, Leftover(d.trailing);
      trace, first, named := trace.AddAction(ConnectTarget(d.header.addressType, d.header.host, d.header.port)), plain, d;
    }

    /** Stage STREAM: the plaintext is written to the destination as it is. */
    method Write(plain: seq<byte>)
      requires Valid() && stage == Stream
      modifies this
      ensures Valid()
      ensures trace == old(trace).AddWrite(plain) && relayed == old(relayed) + [plain]
      ensures stage == Stream && target == old(target) && cache == old(cache)
      ensures first == old(first) && named == old(named)
    {
      WriteKeepsInv(cache, trace, first, relayed, named, plain);
      trace, relayed := trace.AddWrite(plain), relayed + [plain];
    }

    /** The destination's connect callback: the queue, joined, is written once, and
        the stage becomes STREAM (even from DESTROYED). */
    method OnTargetConnect()
      requires Valid() && target == TargetPending
      modifies this
      ensures Valid()
      ensures stage == Stream && target == TargetConnected && cache == []
      ensures trace == old(trace).AddWrite(Concat(old(cache))) && old(trace.written) == []
      ensures first == old(first) && relayed == old(relayed) && named == old(named)
    {
      var joined := Concat(cache);
      assert Concat([joined]) == joined;
      ConcatAppend(Leftover(named.trailing), relayed);
      stage, target, cache, trace := Stream, TargetConnected, [], trace.AddWrite(joined);
    }

    /** The destination's `data` event: encrypted and sent as one tunnel frame when
        the tunnel reports itself open (`readyState`, given by the environment). */
    method OnTargetData(data: seq<byte>, tunnelOpen: bool)
      requires Valid() && target != NoTarget
      modifies this
      ensures Valid()
      ensures trace == if tunnelOpen then old(trace).AddFrame(data) else old(trace)
      ensures stage == old(stage) && target == old(target) && cache == old(cache)
      ensures first == old(first) && relayed == old(relayed) && named == old(named)
    {
      if tunnelOpen {
        trace := trace.AddFrame(data);
      }
    }

    /** The destination's `end` and `close` events (identical handlers): DESTROYED,
        and the tunnel is closed. */
    method OnTargetEndOrClose()
      requires Valid() && target != NoTarget
      modifies this
      ensures Valid()
      ensures stage == Destroyed && trace == old(trace).AddAction(CloseTunnel)
      ensures target == old(target) && cache == old(cache)
      ensures first == old(first) && relayed == old(relayed) && named == old(named)
    {
      BackOpensAppend(trace.actions, CloseTunnel);
      stage, trace := Destroyed, trace.AddAction(CloseTunnel);
    }

    /** The destination's `error` event: DESTROYED, the destination is destroyed
        and the tunnel closed. */
    method OnTargetError()
      requires Valid() && target != NoTarget
      modifies this
      ensures Valid()
      ensures stage == Destroyed && trace == old(trace).AddAction(DestroyTarget).AddAction(CloseTunnel)
      ensures target == old(target) && cache == old(cache)
      ensures first == old(first) && relayed == old(relayed) && named == old(named)
    {
      var t := trace.AddAction(DestroyTarget);
      BackOpensAppend(trace.actions, DestroyTarget);
      BackOpensAppend(t.actions, CloseTunnel);
      stage, trace := Destroyed, t.AddAction(CloseTunnel);
    }

    /** The tunnel's `close` event: the slot is nulled and the destination, if one
        was dialled, destroyed; the stage is left as it is. */
    method OnTunnelClose()
      requires Valid() && registry.Valid()
      modifies this, registry
      ensures Valid() && registry.Valid()
      ensures registry.slots == old(registry.slots)[id := None] && registry.nextId == old(registry.nextId)
      ensures trace == if target != NoTarget then old(trace).AddAction(DestroyTarget) else old(trace)
      ensures stage == old(stage) && target == old(target) && cache == old(cache)
      ensures first == old(first) && relayed == old(relayed) && named == old(named)
    {
      registry.Release(id);
      if target != NoTarget {
        BackOpensAppend(trace.actions, DestroyTarget);
        trace := trace.AddAction(DestroyTarget);
      }
    }

    /** The tunnel's `error` event: the tunnel is terminated, the slot nulled and the
        destination, if one was dialled, ended; the stage is left as it is. */
    method OnTunnelError()
      requires Valid() && registry.Valid()
      modifies this, registry
      ensures Valid() && registry.Valid()
      ensures registry.slots == old(registry.slots)[id := None] && registry.nextId == old(registry.nextId)
      ensures trace == if target != NoTarget then old(trace).AddAction(TerminateTunnel).AddAction(EndTarget)
                       else old(trace).AddAction(TerminateTunnel)
      ensures stage == old(stage) && target == old(target) && cache == old(cache)
      ensures first == old(first) && relayed == old(relayed) && named == old(named)
    {
      BackOpensAppend(trace.actions, TerminateTunnel);
      var t := trace.AddAction(TerminateTunnel);
      if target != NoTarget {
        BackOpensAppend(t.actions, EndTarget);
        t := t.AddAction(EndTarget);
      }
      trace := t;
      registry.Release(id);
    }
  }
}
