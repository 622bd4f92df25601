/** The two session state machines joined by the tunnel: what the local relay
    puts in its frames is what the relay server reads out of them. */
module Tunnel {
  import opened Relay
  import opened Codec
  import opened Registry
  import opened Local
  import opened Server

  /** The first frame the local relay sends for an accepted CONNECT request (the
      request from octet 3 on) names, to the server, the very destination the
      SOCKS5 client asked for, and carries the same trailing bytes. */
  lemma ServerReadsLocalHeader(request: seq<byte>)
    requires ClassifyRequest(request).Connect?
    ensures ClassifyFirstFrame(request[3..]) ==
            Destination(ClassifyRequest(request).header, ClassifyRequest(request).trailing)
  {
    var c := ClassifyRequest(request);
    EncodedHeaderAccepted(c.header, c.trailing);
  }

  /** When the server relays every later frame of a local session whose first
      frame has been acknowledged, the destination receives the request's
      trailing bytes twice: once from the first frame (the whole request tail)
      and once more at the head of the second (the queue). Then come the client
      chunks, in order and once each. */
  lemma TrailingBytesDeliveredTwice(request: seq<byte>, relayed: seq<seq<byte>>, frames: seq<seq<byte>>)
    requires ClassifyRequest(request).Connect?
    requires |frames| >= 2 && frames[0] == request[3..]
    requires Concat(frames[1..]) == ClassifyRequest(request).trailing + Concat(relayed)
    ensures ClassifyFirstFrame(frames[0]).Destination?
    ensures var t := ClassifyRequest(request).trailing;
            ClassifyFirstFrame(frames[0]).trailing + Concat(frames[1..]) == t + t + Concat(relayed)
  {
    ServerReadsLocalHeader(request);
  }

  /** The same, stated on the two session objects: a connected server session fed
      the frames of an acknowledged local session delivers the trailing bytes
      twice, then the client's payload. */
  lemma SessionsDeliverTrailingTwice(local: LocalSession, server: ServerSession)
    requires local.Valid() && local.tunnel == FirstFrameAcked
    requires server.Valid() && server.target == TargetConnected
    requires server.first == local.trace.encrypted[0] && server.relayed == local.trace.encrypted[1..]
    ensures var t := ClassifyRequest(local.request).trailing;
            Concat(server.trace.written) == t + t + Concat(local.relayed)
  {
    TrailingBytesDeliveredTwice(local.request, local.relayed, local.trace.encrypted);
  }

  /** A cipher that hands every frame back unchanged, for the scenario below. */
  function Plain(previous: seq<seq<byte>>, frame: seq<byte>): seq<byte>
  {
    frame
  }

  /** A client greets and asks to CONNECT to a destination, with `trailing` in the
      same chunk after the header: it is sent the two fixed replies, one tunnel is
      opened and the trailing bytes are queued. */
  method GreetAndConnect(h: AddressHeader, trailing: seq<byte>) returns (local: LocalSession)
    requires WellFormed(h) && h.headerLen + |trailing| >= 7
    ensures fresh(local) && local.Valid()
    ensures local.stage == Connecting && local.tunnel == TunnelPending && local.cache == Leftover(trailing)
    ensures local.request[3..] == Encode(h) + trailing && ClassifyRequest(local.request) == Connect(h, trailing)
    ensures local.canWrite && local.relayed == []
    ensures local.trace == Trace([METHOD_SELECTED, REPLY_SUCCEEDED], [], [], [OpenTunnel])
  {
    var request := [VERSION, CMD_CONNECT, 0x00] + Encode(h) + trailing;
    ConnectRequestAccepted(0x00, h, trailing);
    assert request[3..] == Encode(h) + trailing;
    var registry := new ConnectionRegistry();
    local := new LocalSession(registry, 1, Plain);
    local.OnGreeting([0x05, 0x01, 0x00]);
    local.OnRequest(request);
  }

  /** Then one chunk arrives while the tunnel is still opening: the tunnel carries
      the request tail (header and trailing bytes), then the queue joined, which
      holds the trailing bytes once more before the chunk. */
  method AcknowledgedLocal(h: AddressHeader, trailing: seq<byte>, payload: seq<byte>) returns (local: LocalSession)
    requires WellFormed(h) && h.headerLen + |trailing| >= 7
    ensures fresh(local) && local.Valid() && local.tunnel == FirstFrameAcked
    ensures ClassifyRequest(local.request) == Connect(h, trailing) && local.relayed == [payload]
    ensures local.trace.encrypted == [Encode(h) + trailing, trailing + payload]
    ensures local.trace.written == [METHOD_SELECTED, REPLY_SUCCEEDED] && local.trace.actions == [OpenTunnel]
  {
    ConcatAppend(Leftover(trailing), [payload]);
    assert Concat([payload]) == payload;
    local := GreetAndConnect(h, trailing);
    local.Enqueue(payload);
    local.OnTunnelOpen();
    local.OnFirstFrameSent();
  }

  /** The same with nothing after the header: the frames are the header's octets
      and the chunk. */
  method LocalScenario(h: AddressHeader, payload: seq<byte>)
    returns (toClient: seq<seq<byte>>, frames: seq<seq<byte>>, actions: seq<Action>)
    requires WellFormed(h) && h.headerLen >= 7
    ensures toClient == [METHOD_SELECTED, REPLY_SUCCEEDED] && actions == [OpenTunnel]
    ensures frames == [Encode(h), payload]
  {
    assert Encode(h) + [] == Encode(h) && [] + payload == payload;
    var local := AcknowledgedLocal(h, [], payload);
    toClient, frames, actions := local.trace.written, local.trace.encrypted, local.trace.actions;
  }

  /** A relay server fed two frames, the first naming a destination, whose
      destination then connects. */
  method ConnectedServer(first: seq<byte>, second: seq<byte>) returns (server: ServerSession)
    requires ClassifyFirstFrame(first).Destination?
    ensures fresh(server) && server.Valid() && server.target == TargetConnected
    ensures server.first == first && server.relayed == [second]
    ensures var h := ClassifyFirstFrame(first).header;
            server.trace.actions == [ConnectTarget(h.addressType, h.host, h.port)]
    ensures server.trace.written == [ClassifyFirstFrame(first).trailing + second]
  {
    var t := ClassifyFirstFrame(first).trailing;
    ConcatAppend(Leftover(t), [second]);
    assert Concat([second]) == second;
    var registry := new ConnectionRegistry();
    server := new ServerSession(registry, 2, Plain);
    server.OnTunnelMessage(first);
    server.OnTunnelMessage(second);
    server.OnTargetConnect();
  }

  /** A relay server whose first frame is a header with nothing after it dials that
      destination, queues the next frame's plaintext and writes it once connected. */
  method ServerScenario(h: AddressHeader, payload: seq<byte>)
    returns (toTarget: seq<seq<byte>>, actions: seq<Action>)
    requires WellFormed(h) && h.headerLen >= MIN_FIRST_FRAME
    ensures actions == [ConnectTarget(h.addressType, h.host, h.port)] && toTarget == [payload]
  {
    EncodedHeaderAccepted(h, []);
    assert Encode(h) + [] == Encode(h) && [] + payload == payload;
    var server := ConnectedServer(Encode(h), payload);
    toTarget, actions := server.trace.written, server.trace.actions;
  }

  /** Both relays end to end: a client's CONNECT request with trailing bytes, then
      one more chunk, carried through the tunnel. The destination is sent the
      trailing bytes twice before the chunk. */
  method EndToEnd(h: AddressHeader, trailing: seq<byte>, payload: seq<byte>) returns (delivered: seq<byte>)
    requires WellFormed(h) && h.headerLen + |trailing| >= 7
    ensures delivered == trailing + trailing + payload
  {
    var local := AcknowledgedLocal(h, trailing, payload);
    var frames := local.trace.encrypted;
    ServerReadsLocalHeader(local.request);
    var server := ConnectedServer(frames[0], frames[1]);
    assert frames[1..] == [frames[1]];
    SessionsDeliverTrailingTwice(local, server);
    assert Concat([payload]) == payload;
    delivered := Concat(server.trace.written);
  }
}
