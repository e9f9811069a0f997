# Relay session of elevenlabs-ws-proxy, modelled in Dafny

The proxy accepts a client WebSocket, exchanges the `agent_id` query parameter
and a secret API key for a signed upstream URL, opens an upstream WebSocket at
that URL, and then relays messages both ways until one side goes away. This
project models the per-connection part of `server.js`: the acceptance checks
and their failure paths, and the relay session that the socket callbacks drive.

- `wire.dfy` (module `Wire`): opaque message bodies, the two JSON control frames
  the relay writes to the client (`error`, `proxy_connected`), the close codes
  1008 and 1011, socket `readyState`s, and `Output`, one send or close call on
  one of the two sockets. A session's calls form one log, so the order across
  the two sockets is visible (the drain happens before `proxy_connected`, and
  the error frame before the close). `Gather` projects a log, for example onto
  the bodies sent upstream.
- `handshake.dfy` (module `Handshake`): the acceptance decision as a pure
  function of the agent id, the API key and the outcome of the signed-URL
  request. Both values count as present only when set and non-empty, as the
  JavaScript truthiness test does. The outcome is either an HTTP response
  (status, signed URL) or an exception with its message. `Decimal` gives the
  status the way a JavaScript template prints it.
- `session.dfy` (module `Session`): the session as a state machine. `State`
  holds both `readyState`s, `elConnected` (`ready`), `messageBuffer`
  (`buffer`), the two counters and the call log. `Step` is one callback and
  `Run` replays a trace of callbacks. The lemmas state the ordering guarantees
  over whole traces.
- `relay.dfy` (module `Relay`): the class `RelaySession`, whose fields are the
  variables the handler closes over and whose methods are the seven callbacks.
  Each method is proved equal to `Session.Step` for its event, so the trace
  lemmas hold of the object. The drain on "open" is a `while` loop that shifts
  the buffer, as the source does; it is written as its own method, `Drain`.
  `Accept` is the handler up to the creation of the upstream socket, with its
  early returns.

The proofs also show behaviour of the code that is easy to miss:

- The client's "close" and "error" callbacks close upstream only if it is
  already open. A client that leaves while upstream is still connecting leaves
  upstream to open, receive the buffered messages and stay open
  (`Session.EarlyClientCloseLeavesUpstreamOpen`).
- `proxy_connected` is sent without checking that the client is still open.
  Every other call on the client is guarded (`Session.ClientLeftStaysLeft`).
- Client messages that arrive after upstream has closed are appended to the
  buffer, which is never drained again. They are still counted, and
  `Session.RunAccounting` still accounts for them as buffered.

Three more facts about the code that the model keeps:

- Messages the client sends while the signed-URL request is pending are not
  seen at all: the handlers are attached only after the request settles
  (server.js:39-66). Only messages that arrive after that and before upstream
  opens are buffered.
- A client socket error closes upstream only if upstream is open
  (server.js:123).
- `elConnected` is set before the drain, not after it (server.js:83-89). The
  callback runs to completion, so nothing can observe the difference.

## Model

| member | source | states |
|---|---|---|
| `Handshake.Precheck` | server.js:23-33 | there is no rejection, so the request is issued, exactly when agent id and API key are both present; the agent id is checked first, so a missing agent id is always the rejection reported |
| `Handshake.Decide` | server.js:21-56 | the connection proceeds exactly when both checks pass and the response is ok (status 200-299), and then with the signed URL received; every rejection closes with 1008 if the agent id is missing and with 1011 otherwise |
| `Handshake.MissingAgentRejected` | server.js:23-27 | a missing or empty agent id gives the "Missing agent_id" frame and close 1008, whatever the API key and reply are, and no request is issued |
| `Handshake.MissingKeyRejected` | server.js:29-33 | an agent id without an API key gives "API key not configured" and close 1011, and no request is issued |
| `Handshake.UnissuedReplyIgnored` | server.js:23-42 | when no request is issued, no possible reply changes the decision |
| `Handshake.Decimal` | server.js:47 | the status text is a non-empty string of decimal digits with no leading zero |
| `Handshake.DecimalRoundTrip` | server.js:47 | reading the status text back as a number gives the status |
| `Handshake.AuthFailureNamesStatus` | server.js:44-50 | a non-ok response gives "Auth failed: " followed by the status digits, which read back as the status, and close 1011 with reason "Auth failed" |
| `Handshake.AuthMessagesDistinct` | server.js:47 | different failing statuses give different error frames |
| `Handshake.SetupFailureCarriesMessage` | server.js:134-138 | an exception during setup gives "Setup failed: " followed by the exception's own message, and close 1011 |
| `Handshake.RejectOutput` | server.js:24-25 | the calls a rejection makes all target the client (the same send/close pair appears at server.js:30-31, 47-48 and 136-137); their order is stated by `Handshake.RejectionErrorThenClose` |
| `Handshake.RejectionErrorThenClose` | server.js:23-50 | a rejection makes exactly one error frame and then one close on the client, and no call on upstream |
| `Wire.Flushed` | server.js:86-89 | the drain makes exactly as many calls as there are buffered messages; what they send is stated by `Wire.FlushedSendsBuffer` |
| `Wire.FlushedSendsBuffer` | server.js:86-89 | draining the buffer makes one call per buffered message, and the bodies it sends upstream are exactly the buffer, oldest first |
| `Session.Start` | server.js:56-63 | the state when the handlers are attached satisfies the session invariant |
| `Session.Emitted` | server.js:66-131 | the calls one callback makes: exactly one per buffered message plus `proxy_connected` on "open", at most two for any other callback; which calls they are is stated by the `Session.Emitted*` lemmas and `Session.OpenFlushesThenAnnounces` |
| `Session.Step` | server.js:66-131 | the log after one callback is the log before it followed by that callback's calls (`Session.Emitted`), so nothing earlier is changed, and it grows by at most one call per buffered message plus two; its effect on the buffer, the counters and the sockets is stated by `Session.StepAccounting`, `Session.Counters` and the teardown lemmas |
| `Session.EmittedUpstreamPayloads` | server.js:66-92 | a callback sends upstream only a client message while ready and upstream is open, or the whole buffer on "open" |
| `Session.EmittedClientPayloads` | server.js:95-99 | a callback relays to the client only an upstream message, unchanged, and only if the client is open |
| `Session.EmittedGuardedCalls` | server.js:95-131 | every call on the client other than `proxy_connected` is made only while the client is open |
| `Session.EmittedClientCloses` | server.js:114-131 | a callback closes the client only on upstream's "close" (with its code and reason) or "error" (with 1011), and only while the client is open |
| `Session.EmittedUpstreamCloses` | server.js:109-124 | upstream is closed only by the client's "close" or "error" callback, and only while upstream is open |
| `Session.OpenFlushesThenAnnounces` | server.js:81-92 | on "open" the calls made are the drain of the buffer followed by `proxy_connected` to the client; the bodies sent upstream grow by exactly the buffer, in order, and nothing is relayed to the client; afterwards the relay is ready, upstream is open and the buffer is empty |
| `Session.StepAccounting` | server.js:66-92 | each callback keeps the invariant "upstream open implies ready and buffer empty", and adds to "sent upstream, then still buffered" exactly the client message it handles |
| `Session.RunAccounting` | server.js:66-92 | over any trace, "sent upstream, then still buffered" grows by exactly the client's messages in arrival order |
| `Session.ClientOrderPreserved` | server.js:63-92 | from the start of a session, the messages sent upstream followed by those still buffered equal the client's messages in arrival order, with no gap, duplicate or reordering; once upstream is open all of them have been sent |
| `Session.Counters` | server.js:66-96 | `clientMsgCount` and `elMsgCount` count every message received on their socket, whether it was forwarded, buffered or dropped |
| `Session.ClientGetsSubsequence` | server.js:95-99 | the messages relayed to the client during a trace are an in-order selection of upstream's messages: none is invented, duplicated or reordered |
| `Session.ClientGetsEverythingWhileOpen` | server.js:95-99 | while the client is open and no close or error occurs, every upstream message reaches the client unchanged and in order |
| `Session.QuietStepRelays` | server.js:66-99 | a message or "open" callback keeps an open client open and relays to it exactly the upstream message it handles, if any |
| `Session.UpstreamCloseMirrored` | server.js:114-118 | upstream's "close" makes exactly one call, closing an open client with the same code and reason (an absent reason as ""), and no call at all when the client is not open; upstream ends closed |
| `Session.UpstreamErrorNotifiesClient` | server.js:126-131 | upstream's "error" makes exactly two calls on an open client, the "ElevenLabs connection error" frame and then close 1011, and no call at all when the client is not open; upstream is not closed |
| `Session.ClientLeavingClosesUpstream` | server.js:109-124 | the client's "close" or "error" makes exactly one call, closing upstream without a code, when upstream is open, and no call at all otherwise; afterwards neither socket is open |
| `Session.ClientLeftStaysLeft` | server.js:97-131 | once the client is not open, no message, error frame or close is sent to it for the rest of any trace |
| `Session.ClientClosedAtMostOnce` | server.js:114-131 | the relay closes the client at most once over any trace, and never once it is no longer open |
| `Session.UpstreamLeftStaysLeft` | server.js:66-124 | once upstream is closing or closed, nothing more is sent to it and it is not closed again |
| `Session.UpstreamClosedAtMostOnce` | server.js:109-124 | the relay closes upstream at most once over any trace |
| `Session.EarlyClientCloseLeavesUpstreamOpen` | server.js:81-112 | a client that closes while upstream is connecting leaves upstream open after "open", with the buffered message sent to it |
| `Relay.RelaySession.constructor` | server.js:56-63 | a new session: upstream connecting, not ready, empty buffer, both counters zero, no calls made |
| `Relay.RelaySession.ClientMessage` | server.js:66-79 | counts the message, forwards it if ready and upstream is open, otherwise appends it to the buffer; keeps the invariant |
| `Relay.RelaySession.UpstreamOpen` | server.js:81-92 | marks upstream open and ready, drains the buffer, then sends `proxy_connected`; equals `Session.Step` for "open" and keeps the invariant |
| `Relay.RelaySession.Drain` | server.js:86-89 | the loop empties the buffer, sending each message upstream oldest first, and changes nothing else |
| `Relay.RelaySession.UpstreamMessage` | server.js:95-106 | counts the message and relays it unchanged if the client is open |
| `Relay.RelaySession.ClientClose` | server.js:109-112 | the client is closed; an open upstream is closed without a code |
| `Relay.RelaySession.UpstreamClose` | server.js:114-118 | upstream is closed; an open client is closed with upstream's code and reason |
| `Relay.RelaySession.ClientError` | server.js:121-124 | an open upstream is closed without a code |
| `Relay.RelaySession.UpstreamError` | server.js:126-131 | an open client gets the error frame, then close 1011 |
| `Relay.Accept` | server.js:19-138 | a session is created exactly when `Handshake.Decide` proceeds, with the signed URL; otherwise the client gets the rejection's error frame and close, and no session exists |

## Left out

- The HTTP health endpoint and `server.listen` (server.js:7-17, 141-143): plain I/O.
- The `fetch` call, the URL it builds, and reading the response body
  (server.js:39-52). The outcome of the request is an input to the model.
  Failures while reading the error text of a non-ok response (server.js:45),
  while reading the JSON, or while opening the socket at the returned URL all
  become the exception case, reported as "Setup failed" rather than "Auth
  failed".
- Environment configuration (server.js:4-5). The API key is an optional string.
- Logging and the preview strings with their sampling thresholds
  (server.js:35, 46, 53, 73-78, 82, 100-105, 110, 116, 122, 127, 135). They do
  not affect forwarding.
- Text/binary classification. The callbacks ignore the library's binary flag,
  so message bodies are opaque and the model states only that they are
  forwarded unchanged.
- The socket library's internals. A socket's `readyState` changes only at the
  events the model names, and at the relay's own `close` calls. A peer that
  starts a closing handshake between callbacks is not modelled. Sends and
  closes are recorded as calls. What the library does with a send to a socket
  that is no longer open is not modelled (this happens to `proxy_connected`
  after the client has gone). The same holds for a close code the library
  refuses, such as 1005 or 1006, when it is passed on from upstream
  (server.js:117).
- Client events while the signed-URL request is pending (server.js:37-56). No
  handler is attached yet, so these events are not relayed, counted or
  propagated. The session starts with the client state at the moment the
  handlers are attached.
- Scheduling. Each callback is one atomic step of a sequential trace, and the
  library's ordering guarantees are assumed only where a lemma's `Possible`
  precondition says so ("open" fires only while connecting).
- The code and reason of the client's "close" event (server.js:109): the code
  is only logged (server.js:110) and the reason is never used.
