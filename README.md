# SOCKS5 proxy protocol engine — a Dafny model

This project models the protocol engine of a small Node.js SOCKS5 forward
proxy (`my-server/proxy.js`). It covers the part of the proxy that decides
what to do with each frame a client sends. It does not cover the sockets
themselves.

For every accepted connection the proxy runs a fixed chain of `data`
handlers:

1. the greeting and method negotiation of section 3 of RFC 1928;
2. the username/password subnegotiation of section 2 of RFC 1929;
3. the request of sections 4 and 5 of RFC 1928, up to the connection attempt;
4. the reply frame of section 6 of RFC 1928, which all of the above use.

Each handler takes one buffer and produces four things: the bytes written
back, whether the client socket is ended, which handler comes next, and,
for the request, a destination or a reply code.

The model has five modules:

- `bytes.dfy` (module `Bytes`): octets, 16-bit ports, and Node.js `Buffer`
  operations. `slice` clamps its bounds to the buffer. `readUInt16BE` fails
  when fewer than two bytes remain. `writeUInt16BE` fills an `array` in place.
- `reply.dfy` (module `Reply`): the ten-byte reply. `sendSocksReply` becomes
  the method `BuildReply`. It fills a zeroed address buffer and a port buffer
  in place, and is proved equal to the specification function `ReplyFrame`.
  `ParseReply`, the way a client reads the reply, is proved to be its inverse.
- `request.dfy` (module `Request`): `RequestOutcomeOf` is a declarative
  reading of the request at fixed positions. `ParseRequest` is the handler's
  own walk with an advancing `offset`, proved equal to it. `EncodeRequest`,
  the way a client writes a request, is proved to parse back.
- `protocol.dfy` (module `Protocol`): the session as a state machine
  `AwaitGreeting → AwaitAuth → AwaitRequest → Connecting → Relaying`, where
  any stage may instead go to `Closed`. It has one step function per handler,
  `Step` and `Run` over a sequence of frames, the method-selection loop
  `SelectMethod`, and the lemmas.
- `server.dfy` (module `Server`): the class `Session`. It holds the
  immutable credentials and two fields that change in place: `stage` (which
  handler is registered) and `written` (every byte sent to the client so
  far). Its handler methods are proved to update these fields exactly as the
  step functions say.

The model follows the code in these places:

- "Closed" stands for `clientSocket.end()`. A closing step that writes
  nothing is the "silent close" of a malformed frame.
- The credentials are parameters (`Config`). The proxy reads them from its
  environment and falls back to `testuser` / `testpass`.
- The source's fallback branch for a selected method other than
  username/password (`my-server/proxy.js:116-121`) cannot run. In
  `Server.Session.Greet` an assertion proves that the selected method is
  0x02 whenever it is not 0xFF.
- The source never checks the declared password length against the frame.
  `slice` clamps, so the proxy compares whatever password bytes are present.
  A frame whose password-length byte promises more bytes than it carries is
  therefore not closed. It is accepted if the bytes present equal the
  password. The model follows the code, and `AuthAcceptsTruncatedPassword`
  exhibits this. Section 2 of RFC 1929 has a frame carry exactly PLEN
  password bytes; the proxy does not enforce this.
- A domain request whose port bytes are missing makes `readUInt16BE` throw.
  The handler's `catch` (`my-server/proxy.js:219-223`) turns this into
  reply 0x01. An IPv4 request shorter than ten bytes is closed silently. The
  reserved byte is never checked.

## Model

| member | source | states |
|---|---|---|
| `Bytes.Slice` | my-server/proxy.js:95 | `buf.slice(start, end)` with clamped bounds: its length is `max(0, min(end, len) - start)`, each byte is the buffer's byte at `start + i`, and an in-range slice is exactly `buf[start..end]` |
| `Bytes.ReadUInt16BE` | my-server/proxy.js:17-19 | reading a port fails exactly when fewer than two bytes remain at `offset`; a value read is the one whose big-endian bytes are at `offset` |
| `Bytes.PortBytes` | my-server/proxy.js:34-35 | the two bytes `writeUInt16BE` stores for a port, high byte first; `PortBytesOfU16` and `PortRoundTrip` prove them inverse to reading a port |
| `Bytes.PortBytesOfU16` | my-server/proxy.js:34-35 | splitting a 16-bit value into its big-endian bytes gives back the two bytes it was built from |
| `Bytes.WriteUInt16BE` | my-server/proxy.js:34-35 | writing a port into a buffer stores its high byte and then its low byte at `offset`, and leaves every other byte unchanged |
| `Bytes.PortRoundTrip` | my-server/proxy.js:34-35 | a port written big-endian anywhere in a buffer reads back as the same port |
| `Reply.BuildReply` | my-server/proxy.js:21-38 | the frame built from the header, a zero-filled address buffer set octet by octet and a port buffer is the reply frame for that code, address and port |
| `Reply.ParseReply` | my-server/proxy.js:22-24 | a frame a client accepts as a reply is ten bytes long, has version 5, and its code is byte 1 |
| `Reply.ReplyFrame` | my-server/proxy.js:21-38 | every reply is exactly ten bytes: 5, the code, 0, 1 (IPv4), then the four address octets; the port follows big-endian (read back by `ParseBuiltReply`) |
| `Reply.ErrorReply` | my-server/proxy.js:21-38 | a reply sent with the default address `0.0.0.0` and port 0 is `[5, code, 0, 1, 0, 0, 0, 0, 0, 0]` |
| `Reply.ParseBuiltReply` | my-server/proxy.js:21-38 | a client reads back exactly the code, address and port the proxy wrote |
| `Reply.BuildParsedReply` | my-server/proxy.js:21-38 | every frame a client accepts as an IPv4 reply is the proxy's frame for the fields read from it |
| `Request.RequestOutcomeOf` | my-server/proxy.js:129-173 | only a request of at least seven bytes, with version 5 and command CONNECT, can lead to a connection; the only reply codes are 0x07, 0x01 and 0x08; a domain name is at most 255 bytes |
| `Request.ParseRequest` | my-server/proxy.js:132-173 | the handler's walk through the request with an advancing offset, including the caught `readUInt16BE` failure, gives the same outcome as the fixed-position reading |
| `Request.ConnectRoundTrip` | my-server/proxy.js:151-162 | a CONNECT request written by a client for any IPv4 or domain destination parses back to that destination |
| `Request.OtherCommandsRejected` | my-server/proxy.js:140-145 | any command other than CONNECT gets reply 0x07, whatever the address type, and no address is read |
| `Request.ReservedByteIgnored` | my-server/proxy.js:131-138 | changing the reserved byte never changes the outcome |
| `Request.AddressDispatch` | my-server/proxy.js:151-173 | address type 1 with fewer than 10 bytes closes silently; with 10 bytes or more it yields bytes 4..7 and the port at 8. Type 3 yields the name `[5, 5 + len)` and the port at `5 + len`, or reply 0x01 when the port bytes are missing. Any other type, including 4, gets reply 0x08 |
| `Protocol.SelectMethod` | my-server/proxy.js:58-66 | the scan selects 0x02 exactly when 0x02 is among the offered methods, and otherwise 0xFF; it selects nothing else |
| `Protocol.GreetingStep` | my-server/proxy.js:52-76 | the greeting handler either moves on to authentication, exactly when it writes `[5, 2]`, or closes; its answer is nothing, `[5, 2]` or `[5, 0xFF]`, never `[5, 0]` (no authentication) |
| `Protocol.MalformedGreetingIsSilent` | my-server/proxy.js:52-56 | a greeting shorter than two bytes, or with a first byte other than 5, closes the session with nothing written |
| `Protocol.GreetingSelection` | my-server/proxy.js:58-76 | a version-5 greeting writes `[5, 2]` and moves on to authentication exactly when 0x02 occurs among bytes `[2, min(2 + nMethods, length))`; otherwise it writes `[5, 0xFF]` and closes |
| `Protocol.AuthStep` | my-server/proxy.js:84-105 | the authentication handler either moves on to the request, exactly when it writes `[1, 0]`, or closes; its answer is nothing, `[1, 0]` or `[1, 1]` |
| `Protocol.AuthDecision` | my-server/proxy.js:84-105 | authentication succeeds exactly when bytes `[2, 2 + ulen)` equal the user and bytes `[3 + ulen, min(3 + ulen + plen, length))` equal the password; success writes `[1, 0]`, a mismatch writes `[1, 1]` and closes, a short or wrong-version frame closes with nothing written |
| `Protocol.AuthOfEncodedCredentials` | my-server/proxy.js:93-105 | a credentials frame written by a client is accepted, with `[1, 0]`, exactly when its user and password are the configured ones; otherwise the answer is `[1, 1]` |
| `Protocol.AuthAcceptsTruncatedPassword` | my-server/proxy.js:94-97 | a frame that declares one password byte more than it carries is still accepted when the bytes present are the password |
| `Protocol.RequestStep` | my-server/proxy.js:132-173 | the request handler moves on to connecting exactly when the request names a destination to connect to; otherwise it closes, and anything it writes is a reply a client can read, with a failure code |
| `Protocol.MalformedRequestIsSilent` | my-server/proxy.js:132-135 | a request shorter than seven bytes, or with a first byte other than 5, closes the session with nothing written |
| `Protocol.RequestReplies` | my-server/proxy.js:132-222 | a request either moves on to connecting with nothing written, or closes; a malformed request closes with nothing written, and every rejected request is answered with the zero-filled error reply for its code (0x07 for another command, 0x08 for another address type, 0x01 for a domain request missing its port), and nothing else is ever written |
| `Protocol.ConnectStep` | my-server/proxy.js:179-216 | the connection attempt always writes one reply a client can read; the session either opens the tunnel, exactly when that reply has code 0, or closes |
| `Protocol.ConnectOutcome` | my-server/proxy.js:179-216 | the tunnel opens exactly when the connection was established and, for a domain, the lookup succeeded; the success reply carries the outbound socket's local address and port |
| `Protocol.ConnectFailureReplies` | my-server/proxy.js:197-212 | a domain whose lookup fails gets 0x04 and nothing else does; any other failure to connect gets 0x05; both failure replies carry the address `0.0.0.0` and port 0 |
| `Protocol.Step` | my-server/proxy.js:50-110 | a frame is handled by the handler registered for the current stage, and every handled frame moves the session strictly forward through its stages |
| `Protocol.Run` | my-server/proxy.js:50-110 | feeding frames one by one never moves a session back, and leaves its stage unchanged exactly when there is no frame or the stage waits for none |
| `Protocol.RunReadsAtMostThreeFrames` | my-server/proxy.js:50-110 | each handler is registered once, so a session started at a waiting stage reads at most one frame per remaining waiting stage (three from the greeting); later frames never change its stage or output |
| `Protocol.ConnectingOnlyAfterAuthentication` | my-server/proxy.js:50-110 | a session reaches the connection attempt only after three frames: a greeting offering 0x02, a frame carrying the configured credentials, and a CONNECT request for that destination; the client has then been sent exactly `[5, 2, 1, 0]` |
| `Protocol.ThreeAcceptedFrames` | my-server/proxy.js:50-110 | a greeting that selects a method, a frame that authenticates and a request that leads to a connection take a session from the greeting to the connection attempt, and the client has been sent the two handshake answers in order |
| `Protocol.HandshakeReachesConnect` | my-server/proxy.js:50-110 | a client that offers 0x02, sends the configured credentials and a CONNECT request reaches the connection attempt for its destination, having been sent `[5, 2, 1, 0]` |
| `Server.Session.constructor` | my-server/proxy.js:40-50 | a new connection waits for the greeting and has been sent nothing |
| `Server.Session.OnData` | my-server/proxy.js:50-110 | a frame is handled by the handler of the current stage: the new stage and the bytes appended to the output are those of the step function |
| `Server.Session.Greet` | my-server/proxy.js:52-121 | the greeting handler moves the session and writes exactly as the greeting step; the fallback branch for another method is proved dead |
| `Server.Session.Authenticate` | my-server/proxy.js:81-110 | the authentication handler moves the session and writes exactly as the authentication step |
| `Server.Session.HandleRequest` | my-server/proxy.js:129-173 | the request handler moves the session and writes exactly as the request step |
| `Server.Session.OnConnectOutcome` | my-server/proxy.js:179-216 | the result of the lookup and the connection moves the session and writes exactly as the connection step |
| `Server.Session.SendReply` | my-server/proxy.js:21-38 | sending a reply appends its ten-byte frame to the output and leaves the stage unchanged |

## Left out

- `my-server/server.js` is not part of this model. It is a demo HTTP server with no protocol logic.
- Socket and listener plumbing is left out: `net.createServer`, `listen`, error handlers, and the mechanics of `end()` and `destroy()`. Ending the client socket is the `Closed` stage.
- Name resolution (`dns.lookup`) and the outbound connection (`net.createConnection`) are asynchronous calls into the runtime. They appear only as their results: an optional resolved address and an `Upstream` value. Which address the connection goes to is not modelled.
- The relay is left out because it is concurrent stream copying: the two `pipe` calls, tunnel teardown, and a remote `error` that fires after the tunnel is up.
- Reading the port and credentials from the environment, and logging, are left out.
- Credentials are compared, and domain names kept, as raw bytes. The source decodes them as UTF-8 first, which maps invalid sequences to U+FFFD. That decoding is outside the model.
- Parsing the outbound socket's local address string for the success reply is left out. It relies on `parseInt` and typed-array wrap-around. `Upstream.Established` carries the four octets and the port directly.
- Rendering an IPv4 destination as a dotted-quad string is left out. `Host` keeps the four octets.
- The model assumes that each `data` event carries exactly one whole frame. No data handler is registered after the request stage until the tunnel exists, so `OnData` is defined only for the three stages that wait for a frame.
- The `try`/`catch` blocks of the greeting and authentication handlers are left out. Nothing in those handlers can throw on a buffer, so the catches never run.
