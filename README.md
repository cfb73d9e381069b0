# jambonz echo app: the per-call session registry

Both servers of the echo application do the same job, in two ways:
- `server.js` uses a plain WebSocket server;
- `server-ws-client.js` uses the platform's WebSocket client library.

A call-setup webhook answers with a `listen` directive. The platform then opens an audio stream back to the server. Per call SID, the server keeps two maps:
- `activeConnections` (or `activeSessions`) holds the stream handle;
- `callStates` holds `{redirectSent, audioChunksReceived, startTime}`.

Each stream is sent a `connection_ack` and has its binary frames echoed back. After 5 seconds it is moved into a bridge: a `redirect` command in `server.js`, a `dial` in `server-ws-client.js`. A `close`, an `error` or a `finished` status callback removes the call from both maps.

Node runs every handler to completion, so each event is one atomic step. For each server the model has three layers:
- **A pure registry value.** `EchoServer.Registry` and `WsClientServer.Registry` hold the two maps and every open stream. Each stream keeps its call SID and a log of everything handed to its `send` or `dial`. The registry also keeps the set of streams the status handler closed, a multiset of pending timers and a counter that names new streams.
  - Each event is a function on that value: `Connect`/`SessionNew`, `Receive`, `Fire`, `Disconnect`, `Status`.
  - An invariant `Inv` is proved to survive every event. It follows that, after any sequence of events:
    - the two maps have the same keys;
    - every stream's first message is its `connection_ack`;
    - no stream is moved into the bridge more than once.
- **A class with the maps as fields** (`EchoServer.Server`, `WsClientServer.SessionServer`). It updates the maps in place with one method per handler. Each method is proved to yield exactly the registry function's result and to keep `Inv`.
- **Shared pure helpers** in the `Js` and `Jambonz` modules:
  - the `||` fallback and its truthiness;
  - `split('/')` and taking the last piece;
  - the decimal text of `Date.now()`;
  - the call-SID fallback;
  - the status switch;
  - the fixed `listen` directive and bridge command.

The clock reading and the outcome of the redirect's send callback are parameters of the events that use them.

Outbound messages are datatypes, not JSON text. A stream's log records every message a handler handed over, whatever the transport later did with it.

The code is followed as it is written, including behaviour a reader might not expect:
- Registering a call SID that is already present overwrites both entries; there is no duplicate rejection (`server.js:119-124`, `server-ws-client.js:117-122`).
- A `close` or `error` on an older stream for the same SID therefore removes the newer stream's entries (`StaleCloseForgetsSuccessor`).
- A status of `error` only logs; it does not tear the call down (`server.js:98-100`).
- Teardown by `close`/`error` does not close anything; only the `finished` status calls `close()`.
- At most one redirect is sent per connection, not per call SID. A call that connects again under the same SID starts from a fresh state and is redirected again (`SecondConnectionRedirectsAgain`).
- A timer captured its own stream but re-reads state by SID. An old timer can therefore send on its old stream and mark the newer state as redirected.
- In `server-ws-client.js`, `redirectSent` is never set, so the guard never stops a dial while the SID is registered (`DialDueIffRegistered`, `EverySessionDials`).

## Model

| member | source | states |
|---|---|---|
| Js.Split | server.js:113 | `url.split('/')` gives at least one piece, and no piece contains the separator |
| Js.JoinSplit | server.js:113 | joining the pieces of a split with the separator gives back the original string |
| Js.LastSegment | server.js:113-114 | `pathParts[pathParts.length - 1]` is the longest `/`-free suffix of the path: a suffix, with no `/`, and either the whole path or preceded by `/` |
| Js.LastSegmentAfterSlash | server.js:113-114 | whatever precedes it, a `/`-free segment after a `/` is read back as the last piece |
| Js.DecimalString | server.js:43 | the text of `${Date.now()}` is a non-empty string of decimal digits, without a leading zero unless the number is 0 |
| Js.ParseDecimalString | server.js:43 | the digits of `${n}` read back as `n`, so a synthesized SID records the clock reading |
| Jambonz.SelectCallSid | server.js:43 | the SID is `call_sid` when truthy, else `callSid` when truthy, else `call_` followed by the digits of the clock reading, with no leading zero unless the reading is 0 and no `/`; never empty |
| Jambonz.StatusCallSid | server.js:81 | the key is `call_sid` when truthy, otherwise `callSid` as it is; it is `undefined` exactly when `call_sid` is falsy and `callSid` is absent, and can be `""` |
| Jambonz.StatusOf | server.js:82-103 | the switch takes `finished` exactly when `listen_status` is `"finished"`, or `listen_status` is falsy and `status` is `"finished"` |
| EchoServer.StreamUrlRoundTrip | server.js:112-114 | for a SID without `/`, the last path segment of `/audio-stream/<sid>` (with or without the `ws://` prefix of line 44) is the SID again |
| EchoServer.WebhookResponse | server.js:39-60 | the directive streams to `WS_URL/audio-stream/<selected SID>`, which the connection handler reads back to that SID; it is mono at 16000 Hz, bidirectional with enabled, streaming and 16000 Hz, and has the status hook `BACKEND_URL/jambonz/status`; it takes no registry, so it leaves both maps unchanged |
| EchoServer.Forget | server.js:189-200 | the SID is absent from both maps, every other key keeps its entry, and nothing else changes |
| EchoServer.ForgetIdempotent | server.js:189-200 | removing a SID a second time changes nothing |
| EchoServer.Connect | server.js:111-127 | both maps hold the path's last segment, overwriting any earlier entry, with state `{false, 0, now}`; other keys are untouched; the new connection's log is exactly its `connection_ack` for that SID (lines 203-209); one timer `(sid, connection)` is added |
| EchoServer.Receive | server.js:171-188 | with state present and a `Buffer` frame, the count rises by exactly 1 and the same bytes are appended to that connection's log, which keeps its SID, and no other connection changes; otherwise nothing changes and nothing is sent |
| EchoServer.Fire | server.js:127-168 | the timer is consumed; the redirect command is appended to the log of the timer's own connection, which keeps its SID, exactly when the state exists, `redirectSent` is false and the SID is registered; `redirectSent` becomes true exactly then and only if the send succeeded; nothing else changes |
| EchoServer.Status | server.js:78-108 | `finished` closes the registered connection if there is one and removes the SID from both maps, even when unregistered; `started`, `error`, unknown values and a missing SID change nothing |
| EchoServer.LateFrameDropped | server.js:171-200 | a frame arriving after its connection's close or error is dropped and does not revive the call |
| EchoServer.DisconnectIdempotent | server.js:189-200 | a second close or error on the same connection changes nothing |
| EchoServer.InitialInv | server.js:29-30 | the empty maps satisfy the registry invariant |
| EchoServer.ConnectKeepsInv | server.js:111-127 | a connection keeps the invariant: equal key sets, each SID registered to a connection opened for it, each log starting with its ack, redirects sent plus timers pending at most one per connection |
| EchoServer.ReceiveKeepsInv | server.js:171-188 | an echoed frame keeps the invariant |
| EchoServer.FireKeepsInv | server.js:127-168 | a firing timer keeps the invariant; the redirect it may send is paid for by the timer it consumes |
| EchoServer.DisconnectKeepsInv | server.js:189-200 | close and error keep the invariant |
| EchoServer.StatusKeepsInv | server.js:78-108 | the status callback keeps the invariant |
| EchoServer.StepKeepsInv | server.js:111-210 | every deliverable event keeps the invariant |
| EchoServer.RunKeepsInv | server.js:111-210 | any sequence of events keeps the invariant |
| EchoServer.EveryRunIsConsistent | server.js:119-124 | after any sequence of events from empty maps, the two maps have equal key sets, every connection's first message is its ack, and no connection has been sent more than one redirect |
| EchoServer.Server.constructor | server.js:29-30 | starts with both maps empty |
| EchoServer.Server.OnConnection | server.js:111-127 | updates the fields in place exactly as `Connect` and keeps the invariant |
| EchoServer.Server.OnMessage | server.js:171-188 | updates in place exactly as `Receive` and keeps the invariant |
| EchoServer.Server.OnTimer | server.js:127-168 | updates in place exactly as `Fire` and keeps the invariant |
| EchoServer.Server.OnClose | server.js:189-193 | removes the connection's SID from both maps in place, as `Disconnect`, keeping the invariant |
| EchoServer.Server.OnError | server.js:195-200 | the same cleanup as `OnClose` |
| EchoServer.Server.OnStatus | server.js:78-108 | updates in place exactly as `Status` and keeps the invariant |
| EchoServer.FinishedBeforeRedirect | server.js:89-97 | a `finished` status before the timer closes connection 0 and empties both maps; the timer then sends nothing |
| EchoServer.RedirectAfterEcho | server.js:127-166 | on a live call a frame is echoed and counted; the timer then sends the redirect once and marks the call |
| EchoServer.StaleCloseForgetsSuccessor | server.js:189-193 | after a second connection overwrites the SID, the first connection's close removes the SID although the second connection is open |
| EchoServer.SecondConnectionRedirectsAgain | server.js:119-124 | a call that reconnects under the same SID starts from `redirectSent = false` and is redirected again on the new connection |
| WsClientServer.WebhookResponse | server-ws-client.js:39-60 | the directive is `BACKEND_URL/audio-stream` for every call, mono at 16000 Hz, bidirectional with enabled, streaming and 16000 Hz, with the status hook `BACKEND_URL/jambonz/status`; the SID is selected but unused |
| WsClientServer.WebhookIgnoresCall | server-ws-client.js:43-44 | any two webhook bodies and clock readings get the same directive |
| WsClientServer.Forget | server-ws-client.js:182-192 | the SID is absent from both maps, every other key keeps its entry, and nothing else changes |
| WsClientServer.SessionNew | server-ws-client.js:112-140 | both maps hold `session.call_sid`, overwriting any earlier entry, with state `{false, 0, now}`; other keys are untouched; the session's log is exactly its `connection_ack` (lines 131-137); one timer is armed for the session |
| WsClientServer.Receive | server-ws-client.js:163-180 | with state present and a `Buffer` frame, the count rises by exactly 1 and the same bytes are appended to that session's log, which keeps its SID, and no other session changes; otherwise nothing changes |
| WsClientServer.Fire | server-ws-client.js:140-159 | the timer is consumed; the dial is appended to the log of the timer's own session, which keeps its SID, exactly when the state exists, `redirectSent` is false and the SID is registered; no call state changes |
| WsClientServer.Status | server-ws-client.js:78-109 | `finished` closes a registered session and always deletes the SID from both maps; other statuses and a missing SID change nothing |
| WsClientServer.DisconnectIdempotent | server-ws-client.js:182-192 | a second `onClose` or `onError` on the same session changes nothing |
| WsClientServer.LateFrameDropped | server-ws-client.js:163-192 | a frame arriving after its session's teardown is dropped and does not revive the call |
| WsClientServer.InitialInv | server-ws-client.js:26-27 | the empty maps satisfy the registry invariant |
| WsClientServer.DialDueIffRegistered | server-ws-client.js:140-146 | as `redirectSent` is always false, the dial is due exactly while the SID is registered |
| WsClientServer.SessionNewKeepsInv | server-ws-client.js:112-140 | a new session keeps the invariant: equal key sets, each SID registered to a session carrying it, no state marked redirected, each log starting with its ack, dials plus pending timers at most one per session |
| WsClientServer.ReceiveKeepsInv | server-ws-client.js:163-180 | an echoed frame keeps the invariant |
| WsClientServer.FireKeepsInv | server-ws-client.js:140-159 | a firing timer keeps the invariant; the dial it may issue is paid for by the timer it consumes |
| WsClientServer.DisconnectKeepsInv | server-ws-client.js:182-192 | `onClose` and `onError` keep the invariant |
| WsClientServer.StatusKeepsInv | server-ws-client.js:78-109 | the status callback keeps the invariant |
| WsClientServer.StepKeepsInv | server-ws-client.js:112-192 | every deliverable event keeps the invariant |
| WsClientServer.RunKeepsInv | server-ws-client.js:112-192 | any sequence of events keeps the invariant |
| WsClientServer.EveryRunIsConsistent | server-ws-client.js:117-122 | after any sequence of events from empty maps, the two maps have equal key sets, no state has `redirectSent` set, every session's first message is its ack, and no session has dialled more than once |
| WsClientServer.SessionServer.constructor | server-ws-client.js:26-27 | starts with both maps empty |
| WsClientServer.SessionServer.OnSessionNew | server-ws-client.js:112-140 | updates the fields in place exactly as `SessionNew` and keeps the invariant |
| WsClientServer.SessionServer.OnMessage | server-ws-client.js:163-180 | updates in place exactly as `Receive` and keeps the invariant |
| WsClientServer.SessionServer.OnTimer | server-ws-client.js:140-159 | updates in place exactly as `Fire` and keeps the invariant |
| WsClientServer.SessionServer.OnClose | server-ws-client.js:182-186 | removes the session's SID from both maps in place, keeping the invariant |
| WsClientServer.SessionServer.OnError | server-ws-client.js:188-192 | the same cleanup as `OnClose` |
| WsClientServer.SessionServer.OnStatus | server-ws-client.js:78-109 | updates in place exactly as `Status` and keeps the invariant |
| WsClientServer.EverySessionDials | server-ws-client.js:140-159 | a live session's timer dials; a second session for the same SID dials again; `redirectSent` stays false |
| WsClientServer.FinishedBeforeDial | server-ws-client.js:89-98 | a `finished` status before the timer closes session 0 and empties both maps; the timer then dials nothing |
| WsClientServer.StaleCloseForgetsSuccessor | server-ws-client.js:182-186 | after a second session overwrites the SID, the first session's close removes the SID, and the second session's timer dials nothing |

## Left out

- HTTP and WebSocket plumbing: Express routing, CORS, body parsing, `createServer`, `listen` and the setup of the WebSocket server are not modelled. The `/health` response is not modelled either; its count would be the size of `activeConnections`.
- The SIGINT shutdown handlers are left out; they are process lifecycle.
- Platform library calls (`WebhookResponse.toJSON`, `createEndpoint`, `session.send`, `session.dial`, `ws.send`, `close()`) are foreign code.
  - The directive and the commands are datatypes.
  - A send or dial is an append to the stream's log.
  - A `close()` adds the stream to the `closed` set; the close event it later causes is a separate `close` event.
- Exact `JSON.stringify` output: messages are datatypes.
- The webhook's and status callback's HTTP responses are not modelled: the directive is returned as a value, and the empty status response is not modelled at all.
- Real time is not modelled.
  - `setTimeout(…, 5000)` is a pending timer that may fire at any later point of an event sequence. The 5-second spacing is not modelled.
  - `Date.now()` is a parameter.
- Send callbacks are not modelled as separate asynchronous events. Consequences:
  - The redirect callback's outcome is a parameter of `Fire`, applied in the same step.
  - The model does not capture a close or status event that runs between the send and its callback. In the source, that callback would still set `redirectSent` on the state object it captured.
  - The echo's callback only logs and is not modelled.
- Console logging is not modelled.
- Body fields that are neither `undefined` nor a string (numbers, objects) are not modelled. The fields are optional strings, and JavaScript truthiness is modelled for those.
- Which frames the WebSocket library delivers as a `Buffer` is decided by the library. It is modelled as an input: a payload is either a `Buffer` or something else.
- How the platform library matches incoming streams to the service path is not modelled. The service listens on `/audio` (`server-ws-client.js:36`), while the directive points at `/audio-stream` over `http://`. Whether sessions arrive at all depends on that library, so `SessionNew` is taken as given.
- The request path of a connection is taken to be the string the webhook built, unchanged. The platform might change it: a `#` in a SID cuts it off, and spaces or non-ASCII characters arrive percent-encoded. For such SIDs the round trip of `StreamUrlRoundTrip` says nothing about `req.url`.
- Concurrency beyond the single-threaded event loop is not modelled: every handler is atomic.
- EchoServer.Disconnect, WsClientServer.Disconnect: no contract of their own, because each is `Forget` of the stream's SID. Their properties are stated by `Forget`, `DisconnectIdempotent`, `LateFrameDropped` and `DisconnectKeepsInv`.
