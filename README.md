# ss-ws TCP relay, modelled in Dafny

ss-ws carries a SOCKS5 session over an encrypted WebSocket tunnel. It has two
halves:

- The **local relay** speaks SOCKS5 to a client application. It opens one
  tunnel per client connection.
- The **relay server** accepts tunnels, reads a destination address from the
  first tunnel frame, and dials that destination.

Both halves live in `tcprelay.js`. This project models four parts of that file:

- the shared address-header codec (`parseAddressHeader`);
- the two per-connection state machines (`handleConnectionByLocal` and
  `handleConnectionByServer`);
- the process-wide connection registry and its counter;
- the loop in `stop` that shuts every live connection down.

The modules are:

- `Relay` (relay.dfy): shared vocabulary:
  - octets;
  - `Buffer.concat` as `Concat`;
  - session stages;
  - the `Trace` of what a session has done on its transports;
  - the stateful cipher, seen from outside.
- `Codec` (codec.dfy): the parser, plus a reference encoder `Encode`. Lemmas
  prove that the two are inverse.
- `Registry` (registry.dfy): the `ConnectionRegistry` class, with fields
  `nextId` (`globalConnectionId`) and `slots` (`connections`), and its `Stop`
  loop.
- `Local` (local.dfy): the request classifier, and the `LocalSession` class.
  The class holds the closure variables of `handleConnectionByLocal` as
  fields. Each event callback is a method.
- `Server` (server.dfy): the first-frame classifier and the `ServerSession`
  class, built the same way.
- `Tunnel` (tunnel.dfy): lemmas that join the two sessions through the
  tunnel, plus scenarios that drive the session classes through their
  handlers, one session alone or both joined end to end.

How the session classes are modelled:

- Each session's observable behaviour is recorded in one `trace` field, a
  `Trace` value with four logs:
  - octets written to the unencrypted socket (the client for a local
    session, the destination for a server session);
  - plaintexts handed to `encrypt`, one per tunnel frame;
  - frames handed to `decrypt`;
  - the other transport `Action`s (end, destroy, open, close, terminate,
    connect, and `Raise` for an exception that escapes a handler).
- Each class has a `Valid()` invariant that every handler preserves. It says
  that the stage and the back transport agree, and that at most one back
  transport is ever opened. For a local session it adds:
  - the tunnel's first frame is the request from octet 3 on;
  - the client's bytes are either still queued or already framed, in order
    and once each.
- The server session's invariant says the same of the destination socket.

Behaviours of `tcprelay.js` that the model keeps as the code has them:

- **No flow control.** `tcprelay.js` never pauses or resumes a socket on
  buffered output, sets no idle timer and sends no keepalive of its own; it
  turns TCP keepalive off at line 266.
- **Short buffers throw.** `parseAddressHeader` returns `false` only for an
  unknown type octet. When a read runs past the end of the buffer,
  `readUInt8`/`readUInt16BE` throw instead. The model gives this outcome its
  own case, `OutOfRange`. That case is logged as `Raise` and leaves the stage
  unchanged.
- **DESTROYED is not terminal.** Setting the stage to DESTROYED is not always
  paired with closing both transports, and a later event can move a session
  out of it:
  - the client's `end` event only sets the stage;
  - the first frame's send callback sets STREAM even after DESTROYED;
  - the server's tunnel `close`/`error` handlers do not touch the stage.
- **Trailing bytes are sent twice.** The bytes that follow the request header
  reach the tunnel twice: once inside the first frame (`data.slice(3)`), and
  again as the head of the queued second frame. `Tunnel.TrailingBytesDeliveredTwice`
  proves that the destination then receives them twice, and `Tunnel.EndToEnd`
  drives both session classes through their handlers to the same result. This
  is modelled as the code behaves.
- **Slots are nulled, not removed.** Registry slots are set to null; they are
  never deleted. After `MAX_CONNECTIONS` accepts, a slot id is reused
  (`Registry.SlotsWithinWindow`).

## Model

| member | source | states |
|---|---|---|
| Relay.Concat | tcprelay.js:307 | `Buffer.concat` of a queue holding one chunk is that chunk. |
| Relay.ConcatAppend | tcprelay.js:307 | Joining two queues one after the other joins their contents one after the other (proved by induction). |
| Relay.Leftover | tcprelay.js:328-330 | The queue a session starts with holds at most one chunk, and joined it is exactly the bytes that followed the address header; it is empty exactly when there are none, so nothing is pushed then. |
| Relay.DecipherAllAt | tcprelay.js:316 | Closed form of the decrypted stream: the i-th plaintext is the cipher's output for the i-th frame after exactly the frames before it (proved by induction). |
| Codec.ReadUInt16BE | tcprelay.js:79 | A big-endian read of two octets is a 16-bit port. |
| Codec.Encode | tcprelay.js:72-96 | Reference encoding of a header: its length is `headerLen` and its first octet is the type octet (0x01 or 0x03). |
| Codec.ParseAddressHeader | tcprelay.js:72-96 | Every header returned is well-formed (4-octet IPv4 host with length 7, or a domain name of L octets with length L+4; port below 65536) and lies inside the buffer. |
| Codec.ParseOutcomes | tcprelay.js:72-96 | `false` exactly when the type octet is neither IPv4 nor domain name (IPv6 included); a throw exactly when a read runs past the end of the buffer. |
| Codec.ParseIPv4 | tcprelay.js:83-86 | Type 0x01 with room: 7-octet header, host = the next four octets, port read big-endian from the two after them. |
| Codec.ParseDomainName | tcprelay.js:76-80 | Type 0x03 with length L and room: (L+4)-octet header, host = the L octets after the length, port = the two octets after the host. |
| Codec.ParsedIsEncoding | tcprelay.js:72-96 | Every parsed header re-encodes to exactly the octets the parser consumed. |
| Codec.ParseEncoding | tcprelay.js:72-96 | Round trip: an encoded header is parsed back to itself at any offset, whatever octets follow it. |
| Registry.ShutdownOf | tcprelay.js:372 | A shutdown names the given transport; it is a destroy exactly for a local relay, otherwise a terminate. |
| Registry.SlotOf | tcprelay.js:164 | A session id is always in `[0, MAX_CONNECTIONS)`. |
| Registry.SlotsWithinWindow | tcprelay.js:259 | Ids of accepts fewer than MAX_CONNECTIONS apart are distinct; accepts exactly MAX_CONNECTIONS apart share an id. |
| Registry.ShutdownsBelowExact | tcprelay.js:370-374 | The shutdown list names a transport exactly when a non-null slot holds it, with destroy for local relays and terminate for servers. |
| Registry.ConnectionRegistry.constructor | tcprelay.js:69-70 | The counter starts at 1 and the table is empty. |
| Registry.ConnectionRegistry.Accept | tcprelay.js:164-169 | The session gets id `counter mod MAX_CONNECTIONS`, the counter grows by one, and that slot (and only it) now holds the front transport. |
| Registry.ConnectionRegistry.Release | tcprelay.js:239 | The slot is set to null (kept, not removed); the counter and every other slot are unchanged. |
| Registry.ConnectionRegistry.Stop | tcprelay.js:362-380 | With a listener: every non-null slot's transport is destroyed (local) or terminated (server), in ascending id order; every shutdown names a live transport. Without one: nothing. |
| Local.GreetingAccepted | tcprelay.js:271 | Every greeting laid out as section 3 of RFC 1928 prescribes (version 5, NMETHODS at least 1, that many method octets) passes the test. |
| Local.GreetingNeedNotBeWellFormed | tcprelay.js:271 | The converse fails: greetings whose NMETHODS is zero or disagrees with their length pass as well. |
| Local.ClassifyRequest | tcprelay.js:280-295 | A request is accepted as CONNECT only when it has at least 10 octets. |
| Local.ClassifyRequestOutcomes | tcprelay.js:280-295 | Silently ended exactly for a short chunk, a wrong version or an unknown address type. Refused with "command not supported" exactly for a readable request whose command is not CONNECT. An accepted CONNECT has version 5 and command 1, and its tail is the encoded header followed by the trailing bytes. |
| Local.ConnectRequestAccepted | tcprelay.js:280-297 | Any well-formed header under version 5 / CONNECT is accepted with that header, and what follows it is the trailing payload. |
| Local.OtherCommandRejected | tcprelay.js:292-295 | Any other command with a well-formed header is refused with "command not supported". |
| Local.AcceptKeepsInv | tcprelay.js:297-330 | Accepting a CONNECT keeps the session invariant: one tunnel is opened, the queue holds the trailing bytes, and the client has the two fixed replies. |
| Local.FirstFrameSentKeepsInv | tcprelay.js:305-312 | Sending the joined queue as the second frame keeps the invariant: the frames after the first carry the trailing bytes and then every client chunk, in order and once each. |
| Local.SendKeepsInv | tcprelay.js:337-342 | Framing one more chunk in STREAM keeps that in-order, exactly-once relation. |
| Local.ReceiveKeepsInv | tcprelay.js:315-318 | Writing one more tunnel frame's plaintext keeps the client's bytes equal to the two replies followed by the cipher's outputs, frame by frame in order. |
| Local.LocalSession.constructor | tcprelay.js:256-265 | A new session takes the next registry slot, starts in INIT with writes allowed, has no tunnel and has an empty trace. |
| Local.LocalSession.OnClientData | tcprelay.js:267-344 | The `data` handler, per stage: method selection, request and reply, queueing, framing; nothing at all in DESTROYED. The invariant is kept. |
| Local.LocalSession.OnGreeting | tcprelay.js:270-277 | A greeting of at least 3 octets with version 5 gets `05 00` and moves to ADDR (NMETHODS is not checked); anything else ends the client. |
| Local.LocalSession.OnRequest | tcprelay.js:279-331 | Per outcome of the classifier: end silently; raise and stay in ADDR; reply "command not supported" and end; or reply success, open one tunnel and queue the trailing bytes. |
| Local.LocalSession.Accept | tcprelay.js:297-331 | CONNECT: the success reply, stage CONNECTING, one tunnel opened, and the queue starts with the bytes after the header. |
| Local.LocalSession.Enqueue | tcprelay.js:333-335 | In CONNECTING, a chunk joins the back of the queue; nothing is sent. |
| Local.LocalSession.Send | tcprelay.js:337-342 | In STREAM, a chunk becomes one tunnel frame only while the client may still be written to, and only then counts as relayed. |
| Local.LocalSession.OnTunnelOpen | tcprelay.js:304-305 | When the tunnel opens, the first frame is the request from octet 3 on (header and trailing bytes), whatever the stage. |
| Local.LocalSession.OnFirstFrameSent | tcprelay.js:305-312 | When the first frame is sent: stage STREAM (even from DESTROYED), the queue joined is the second frame, and the queue is empty. |
| Local.LocalSession.OnTunnelMessage | tcprelay.js:315-318 | A tunnel frame is decrypted and written to the client only while writes are allowed; otherwise the cipher is not asked. |
| Local.LocalSession.OnTunnelErrorOrClose | tcprelay.js:319-326 | Tunnel error or close: DESTROYED and the client is ended. |
| Local.LocalSession.OnClientEnd | tcprelay.js:345-347 | Client end: only the stage becomes DESTROYED; the tunnel stays and nothing else changes. |
| Local.LocalSession.OnClientClose | tcprelay.js:348-353 | Client close: DESTROYED, writes stop, the slot is nulled, and an opened tunnel is terminated. |
| Local.LocalSession.OnClientError | tcprelay.js:354-360 | Client error: the client is destroyed, writes stop, the slot is nulled, and an opened tunnel is closed. |
| Server.ClassifyFirstFrame | tcprelay.js:175-184 | A frame that names a destination has at least 7 octets, and its header and its trailing bytes together make up the whole frame. |
| Server.ClassifyFirstFrameOutcomes | tcprelay.js:175-184 | A first frame is refused exactly when it is shorter than 7 octets or its type octet is unknown. An accepted one is the encoded header followed by the trailing bytes. |
| Server.EncodedHeaderAccepted | tcprelay.js:175-188 | A frame made of any well-formed header's encoding plus any bytes names that destination, and those bytes are the trailing payload. |
| Server.DialKeepsInv | tcprelay.js:186-225 | Dialling keeps the server invariant: exactly one destination connection, to the address type, host and port read from the first frame, with the trailing bytes queued. |
| Server.WriteKeepsInv | tcprelay.js:232-235 | Writing one more plaintext keeps the destination's bytes equal to the trailing bytes then every later plaintext, in order and once each. |
| Server.ServerSession.constructor | tcprelay.js:161-169 | A new session takes the next registry slot, starts in INIT with no destination, and has an empty trace. |
| Server.ServerSession.OnTunnelMessage | tcprelay.js:170-237 | Every frame is decrypted whatever the stage. Its plaintext then names the destination (INIT), is queued (CONNECTING), is written (STREAM) or is dropped (DESTROYED). The naming plaintext and every plaintext taken as payload are recorded, in order. |
| Server.ServerSession.OnFirstFrame | tcprelay.js:175-226 | In INIT: close the tunnel when the frame is refused; raise and stay in INIT on an overrun; otherwise dial the destination. |
| Server.ServerSession.Dial | tcprelay.js:186-225 | An accepted first frame: stage CONNECTING, one connection to its address type, host and port, and the queue starts with its trailing bytes. |
| Server.ServerSession.Write | tcprelay.js:232-235 | In STREAM, the plaintext is written to the destination as it is. |
| Server.ServerSession.OnTargetConnect | tcprelay.js:192-199 | On connect: the queue, joined, is the first write, and the stage becomes STREAM (even from DESTROYED). |
| Server.ServerSession.OnTargetData | tcprelay.js:201-208 | Destination data becomes one tunnel frame exactly when the tunnel reports itself open. |
| Server.ServerSession.OnTargetEndOrClose | tcprelay.js:209-216 | Destination end or close: DESTROYED and the tunnel is closed. |
| Server.ServerSession.OnTargetError | tcprelay.js:217-221 | Destination error: DESTROYED, the destination is destroyed, and the tunnel is closed. |
| Server.ServerSession.OnTunnelClose | tcprelay.js:238-241 | Tunnel close: the slot is nulled and a dialled destination is destroyed; the stage is left as it is. |
| Server.ServerSession.OnTunnelError | tcprelay.js:242-246 | Tunnel error: the tunnel is terminated, the slot is nulled and a dialled destination is ended; the stage is left as it is. |
| Tunnel.ServerReadsLocalHeader | tcprelay.js:305 | The local relay's first frame names, to the server, the very destination and trailing bytes the SOCKS5 client asked for. |
| Tunnel.TrailingBytesDeliveredTwice | tcprelay.js:305-330 | Relaying an acknowledged local session's frames delivers the request's trailing bytes twice, then every client chunk in order. |
| Tunnel.SessionsDeliverTrailingTwice | tcprelay.js:305-330 | The same, stated on two valid session objects joined by the tunnel. |
| Tunnel.GreetAndConnect | tcprelay.js:270-303 | A greeting followed by a CONNECT request of at least 10 octets, trailing bytes included, leaves the session CONNECTING with the two fixed replies sent, one tunnel opened and the trailing bytes queued. |
| Tunnel.AcknowledgedLocal | tcprelay.js:304-335 | A chunk that arrives while the tunnel is opening follows the trailing bytes in the second frame; the first frame is the encoded header and the trailing bytes. |
| Tunnel.LocalScenario | tcprelay.js:304-335 | With nothing after the header, the tunnel carries the encoded header and then the chunk. |
| Tunnel.ConnectedServer | tcprelay.js:170-199 | A server fed a naming first frame and one more frame dials once, and writes the first frame's trailing bytes and then the second plaintext once connected. |
| Tunnel.ServerScenario | tcprelay.js:170-235 | A first frame holding just a header dials that destination (its address type, host and port), and the next plaintext is written to it once connected. |
| Tunnel.EndToEnd | tcprelay.js:170-335 | Both relays driven through their handlers: the destination receives the request's trailing bytes twice and then the client's chunk. |

## Left out

- Listener set-up (`initServer`), the `TcpRelay` constructor, `getStatus`, and `server.close` in `stop`: configuration and socket wiring, with no session logic.
- Registry.ConnectionRegistry.Stop: models the loop at tcprelay.js:370-374 as it would run with `this` bound to the relay, with `this.server` and `this.isLocal` as the parameters `hasServer` and `isLocal`. As written, `stop` runs that code inside a plain `function` handed to `new Promise` (line 364); in class code `this` is undefined there, so reading `this.server` at line 365 throws a TypeError, the promise is rejected and the loop never runs. `initServer` has the same shape at lines 115-116. The model does not capture that rejection.
- The cipher's algorithm. Decryption is a function parameter of each session that sees every earlier frame. Encryption is the log of plaintexts handed to it.
- The WebSocket's `readyState` is a boolean parameter of `OnTargetData`. Host strings stay raw octets tagged with their address type: a dial logs the type, and the type decides whether the octets would be turned into dotted decimal (`join('.')`) or read as characters (`toString`).
- What happens after an exception escapes a handler (the Node process may crash). `Raise` is logged and the session state stays as it was when the read threw.
- The `dataCache = null` callbacks after the second send and the first destination write: the queue is already empty in the model, and nothing reads it afterwards.
- Registry.ConnectionRegistry.Accept: the counter is an unbounded integer. JavaScript numbers stop counting exactly beyond 2^53 accepts; this is not modelled.
- Local.LocalSession.OnTunnelMessage: over-approximates the environment. Its precondition admits a message while the tunnel is still pending, before its `open` event, which a WebSocket never delivers; every proved property holds for that extra case too.
- Server.ServerSession.OnTunnelMessage: the invariant does not relate the octets written to the destination to the decrypted frames by index. It relates them to the plaintexts taken as payload, since frames that made the parser throw are decrypted and dropped.
- Concurrency between sessions: handlers run one at a time on one thread, and the model treats each call as atomic.
