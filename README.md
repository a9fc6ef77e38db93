# Chainlink streams client: signer and streaming session, in Dafny

This project models two parts of the TypeScript SDK for a price-feed data service.

- **The request signer** `ChainlinkAuth` (`src/auth.ts`). It builds the canonical string
  `method path sha256(body) apiKey timestamp` and returns three headers: `Authorization`,
  `X-Authorization-Timestamp` and `X-Authorization-Signature-SHA256`. The signature is the
  HMAC-SHA256 of the canonical string under the API secret. The signer's fields are set only
  by its constructor, so the model is a datatype and pure functions (module `Auth` in
  `auth.dfy`).
- **The streaming session manager** `ChainlinkWebSocket` (`src/websocket.ts`). It holds one
  WebSocket at a time, a reconnect counter capped at 5 with a doubling backoff from 1000 ms,
  a heartbeat interval, the set of subscribed feeds, and the feed list of the last
  explicit `connect` (held by reference in the source, as a copy in the model). That list is the baseline reconnects reuse. It replays the
  subscriptions when a socket opens and dispatches inbound frames to the consumer's
  callbacks. The model is the class `Session.ChainlinkWebSocket` in `websocket.dfy`. It
  has one method per public call and one per socket event (`open`, `message`, `error`,
  `close`, `ping`), plus one for the heartbeat's tick. The socket is reduced to its
  readiness: no socket, open, or not open. Frames sent and callbacks invoked are appended
  in order to the field `trace`. A callback is a handler id, so re-registering replaces it.
  The reconnect wait is the value the `close` event returns. When the wait is over, the
  environment calls `ReconnectElapsed`, which is the `connect()` inside `reconnect`.

`strings.dfy` holds the decimal rendering of `Date.now()` and `Array.prototype.join`, with
the left inverse of join (splitting at a separator). `optional.dfy` holds the `Option`
type used for the source's optional values. Collaborators that cannot be seen are
parameters:

- SHA-256 (FIPS 180-4) and HMAC-SHA256 (RFC 2104) are the uninterpreted functions in `Auth.Crypto`. They return an `Auth.HexDigest`, a string of lower-case hexadecimal digits, as `digest('hex')` does.
- `Date.now()` is the argument `now`, a natural number. `Strings.Decimal` is `Number.prototype.toString` for integers below 10^21, where it prints plain digits; `Date.now()` is far below that bound.
- URL parsing and `pathname + search` are the functions in `Session.UrlApi`.

`scenarios.dfy` is client code that drives the session through these event orders.
Its assertions follow from the method contracts alone:

- a reconnect reuses the baseline, and the first open after it replays exactly the subscriptions (`ReconnectReplaysSubscriptions`);
- the close event of a socket dropped by `disconnect` still schedules a reconnect (`CloseAfterDisconnectStillReconnects`);
- six closes with no open between them wait 1000, 2000, 4000, 8000 and 16000 ms, then stop, and the disconnect callback runs on each (`GiveUpAfterFiveCloses`);
- a malformed frame reaches the error callback and leaves `IsConnected` true (`MalformedFrameKeepsConnection`).

JavaScript truthiness is kept where the code relies on it:

- `connect([])` supplies a list, since an empty array is truthy, so it replaces the baseline with `[]`;
- `config.wsUrl || default` falls back to the default URL for an empty string too;
- `message.error || 'Unknown error'` does the same for an empty error string.

Three behaviours of the code are worth stating outright:

- `disconnect()` does not cancel a pending reconnect. The dropped socket's later `close` event still runs `cleanup`, fires the disconnect callback and, while the counter is below 5, schedules a reconnect (`src/websocket.ts:104-112`, `src/websocket.ts:200-207`).
- The counter goes up only on a `close` event while it is below the cap (`src/websocket.ts:109-110`, `src/websocket.ts:186`). Only an `open` resets it to 0 (`src/websocket.ts:76`). An `error` event leaves it alone.
- The canonical string separates its fields with spaces but does not escape them. A method or path that contains a space can therefore trade a word with its neighbour and get the same signature (`Auth.SpaceInMethodOrPathIsAmbiguous`). The WebSocket handshake always signs `GET`, so only its path matters there.

## Model

| member | source | states |
|---|---|---|
| Strings.Decimal | src/auth.ts:27 | `timestamp.toString()` is a non-empty string of digits with no leading zero |
| Strings.DecimalRoundTrip | src/auth.ts:27 | reading the decimal rendering back gives the timestamp again |
| Strings.DecimalInjective | src/auth.ts:27 | distinct timestamps render differently |
| Strings.Join | src/websocket.ts:62 | `feedsToConnect.join(',')`: the empty list gives `''`; otherwise the result starts with the first id, followed by the separator when more ids follow; for comma-free ids a comma occurs iff there are at least two |
| Strings.SplitJoin | src/websocket.ts:62 | splitting the comma-joined feed list at commas gives the list back (non-empty, comma-free ids) |
| Auth.HashBody | src/auth.ts:32-34 | the SHA-256 hex digest of the body, uninterpreted |
| Auth.CreateSignature | src/auth.ts:36-40 | the HMAC-SHA256 hex digest of the string to sign, keyed by the API secret alone, uninterpreted |
| Auth.StringToSign | src/auth.ts:20 | the last space-separated field of the signed string is the decimal timestamp; with space-free fields, splitting at spaces gives exactly method, path, body hash, API key and timestamp |
| Auth.GenerateAuthHeaders | src/auth.ts:17-30 | exactly three headers; `Authorization` is the API key, the timestamp header is `decimal(now)`, the signature is the HMAC under the secret of the canonical string for the same `now` and the SHA-256 of the body |
| Auth.GenerateWebSocketAuthHeaders | src/auth.ts:42-53 | exactly three headers, carrying the API key and `decimal(now)` |
| Auth.WebSocketIsGetWithEmptyBody | src/auth.ts:42-53 | the WebSocket headers at `now` equal the generic headers for `GET`, the same path and the empty body at `now` |
| Auth.OmittedBodyIsEmpty | src/auth.ts:17 | leaving out `body` signs the same as passing `''` |
| Auth.TimestampConsistent | src/auth.ts:18-27 | the timestamp header reads back as `now` and is the last field of the string that was signed |
| Auth.StringToSignPieces | src/auth.ts:20 | with a space-free method and path, the signed string splits at spaces into method, path, body digest, the API key's own pieces and the timestamp, whatever spaces the key holds |
| Auth.SignatureBindsRequest | src/auth.ts:18-23 | for collision-free digests (which, being hex, contain no space) and a method and path with no space, equal signatures under one signer imply equal method, path, body and timestamp; the API key may contain spaces |
| Auth.SpaceInMethodOrPathIsAmbiguous | src/auth.ts:20 | the request `GET x` at `path` and the request `GET` at `x path` get the same headers, signature included, so the space-free hypothesis of `SignatureBindsRequest` is needed |
| Session.UrlFor | src/websocket.ts:56-64 | the `feedIDs` parameter is present iff the chosen list is non-empty, and, when no id contains a comma, it splits back into that list |
| Session.ErrorText | src/websocket.ts:132 | the error text is the message when it is non-empty, otherwise `'Unknown error'` |
| Session.Dispatch | src/websocket.ts:124-140 | a report with a payload reaches the message callback with the message itself; an `error` message reaches the error callback with its text; a report without payload, a heartbeat and an unknown type reach none |
| Session.BackoffDelay | src/websocket.ts:187 | the wait before attempt `n` is `1000 * 2^(n-1)`, at least 1000 ms |
| Session.BackoffDoubles | src/websocket.ts:187 | each attempt waits twice as long as the one before |
| Session.BackoffSchedule | src/websocket.ts:185-187 | attempts 1 to 5 wait 1000, 2000, 4000, 8000 and 16000 ms |
| Session.AttemptsAfterClose | src/websocket.ts:109-110 | the counter after a close never exceeds the cap of 5 |
| Session.DelayAfterClose | src/websocket.ts:104-112 | a close schedules a reconnect iff the counter is below 5, and waits for the incremented counter's backoff |
| Session.CapBoundsReconnects | src/websocket.ts:104-112 | consecutive closes with no open schedule exactly `min(closes, 5 - attempts)` reconnects |
| Session.NothingAfterCap | src/websocket.ts:109 | once the counter is at 5, no close schedules a reconnect |
| Session.FullBackoffSchedule | src/websocket.ts:104-112 | from a fresh open, five or more closes schedule exactly 1000, 2000, 4000, 8000 and 16000 ms |
| Session.FeedList | src/websocket.ts:82 | `Array.from(subscribedFeeds)` lists every subscribed id exactly once |
| Session.ChainlinkWebSocket.constructor | src/websocket.ts:40-46 | signer built from the config; an absent or empty `wsUrl` selects the default URL; no socket, counter 0, no heartbeat, no feeds, no callbacks |
| Session.ChainlinkWebSocket.Notify | src/websocket.ts:78 | `this.onX?.(…)`: the handler registered for the notification, if any, is invoked with it, and nothing else changes |
| Session.ChainlinkWebSocket.Connect | src/websocket.ts:48-72 | a supplied list (even empty) replaces the baseline, otherwise the baseline stays; the URL is `UrlFor` of the baseline; the headers are the WebSocket headers for that URL's path at `now`; an unparseable base URL rejects with ConnectionError after the baseline was stored and leaves the socket alone |
| Session.ChainlinkWebSocket.OnOpen | src/websocket.ts:74-86 | on the socket `connect` created and that is not yet open: the socket becomes open, the counter is 0 and the heartbeat is live; the connect callback runs; when there are subscriptions, exactly one subscribe frame naming each of them once follows; the subscriptions and the baseline are unchanged |
| Session.ChainlinkWebSocket.OnMessage | src/websocket.ts:88-96 | the trace grows by the invocation `Dispatch` selects, if that callback is registered; a parse failure reports 'Failed to parse message'; nothing else changes |
| Session.ChainlinkWebSocket.HandleMessage | src/websocket.ts:124-140 | the dispatch of a parsed message, changing only the trace |
| Session.ChainlinkWebSocket.OnError | src/websocket.ts:98-102 | the error callback receives the socket's error; the connect promise is rejected with `ConnectionError('WebSocket error: ' + message)`; a held socket is no longer open; counter, feeds and baseline unchanged |
| Session.ChainlinkWebSocket.OnClose | src/websocket.ts:104-112 | the heartbeat stops, the disconnect callback runs, the counter goes up only while below 5 and the returned wait is `DelayAfterClose` of the old counter; feeds and baseline unchanged |
| Session.ChainlinkWebSocket.OnPing | src/websocket.ts:114-116 | a pong is sent iff a socket is held |
| Session.ChainlinkWebSocket.Subscribe | src/websocket.ts:142-154 | not open: throws WebSocketError('WebSocket is not connected'), sends nothing, feeds unchanged; open: one subscribe frame with exactly the ids, feeds become old ∪ ids; baseline and counter untouched |
| Session.ChainlinkWebSocket.Unsubscribe | src/websocket.ts:156-168 | not open: throws WebSocketError('WebSocket is not connected'), nothing changes; open: one unsubscribe frame with exactly the ids, feeds become old minus ids; baseline and counter untouched |
| Session.ChainlinkWebSocket.SetupHeartbeat | src/websocket.ts:170-176 | the heartbeat interval is live |
| Session.ChainlinkWebSocket.HeartbeatTick | src/websocket.ts:171-175 | a ping is sent iff the interval is live and the socket open |
| Session.ChainlinkWebSocket.Cleanup | src/websocket.ts:178-183 | the heartbeat is cleared, whether or not it was live |
| Session.ChainlinkWebSocket.Reconnect | src/websocket.ts:185-189 | the counter goes up by one before the wait is computed as `BackoffDelay` of the new counter |
| Session.ChainlinkWebSocket.ReconnectElapsed | src/websocket.ts:191-197 | `connect()` with no list: the baseline is kept and the URL carries it |
| Session.ChainlinkWebSocket.Disconnect | src/websocket.ts:200-207 | heartbeat cleared, socket dropped, feeds empty; a held socket gets a close request with code 1000 and 'Client disconnect'; counter and baseline unchanged |
| Session.ChainlinkWebSocket.OnMessageReceived | src/websocket.ts:209-211 | the message handler is replaced |
| Session.ChainlinkWebSocket.OnErrorReceived | src/websocket.ts:213-215 | the error handler is replaced |
| Session.ChainlinkWebSocket.OnConnected | src/websocket.ts:217-219 | the connect handler is replaced |
| Session.ChainlinkWebSocket.OnDisconnected | src/websocket.ts:221-223 | the disconnect handler is replaced |
| Session.ChainlinkWebSocket.IsConnected | src/websocket.ts:225-227 | true iff a socket is held and open |
| Scenarios.DisconnectIsIdempotent | src/websocket.ts:200-207 | after two `disconnect` calls on an open session the socket is gone, the subscriptions are empty and the heartbeat is off, while the counter, baseline and handlers stay; the second call sends nothing |

## Left out

- The `ws` library and the real socket are left out. Sends, `ping()`, `pong()` and `close(1000, …)` are trace entries only. These are sections 5.5.2, 5.5.3 and 7.4.1 of RFC 6455.
- The socket's readiness is reduced to none, open and not open. CONNECTING, CLOSING and CLOSED are all "not open".
- Events are taken to come from the held socket. A close from a socket already dropped by `disconnect` is modelled. Stale events from an older socket after a second `connect` are not told apart from the current one's.
- `setInterval` and `setTimeout` are left out. The heartbeat interval is a boolean, so intervals leaked by a second `open` without a `close` collapse into one. The reconnect wait is the returned delay.
- The Promise plumbing and `async` suspension are left out. `OnError` returns the rejection value. Whether a promise is already settled is not modelled.
- Concurrent or re-entrant calls are left out. Callbacks are opaque handler ids and are assumed not to call back into the session.
- Callbacks are assumed to return normally. A callback that throws changes the session in four ways the model does not capture:
  - A throwing `onMessage` or `onError` inside `handleMessage` is caught by the `try` of the `message` handler. It is then reported as `onError(WebSocketError('Failed to parse message'))` (`src/websocket.ts:89-95`).
  - A throwing `onDisconnect` skips the reconnect (`src/websocket.ts:107-110`).
  - A throwing `onConnect` skips the subscription replay and the `resolve()` of the connect promise (`src/websocket.ts:78-85`).
  - A throwing `onError` in the `error` handler skips the `reject` (`src/websocket.ts:100-101`). `Session.ChainlinkWebSocket.OnError` always returns the rejection.
- `Session.ChainlinkWebSocket.OnError` marks a held socket as not open because the `ws` library sets a socket to CLOSING before it emits `error`. That library is not part of this model.
- WHATWG `URL` and `URLSearchParams` serialisation, including percent-encoding, is left out. The connect URL is the value `ConnectUrl(base, feedIDs)`. Its path and query, and whether the base URL parses, are opaque functions.
- `Session.ChainlinkWebSocket.Connect`: the source stores the caller's `feedIds` array by reference (`src/websocket.ts:53`). Later changes the caller makes to that array therefore reach the URLs of later reconnects (`src/websocket.ts:59-62`, `src/websocket.ts:194`). The model stores a copy.
- `Session.ChainlinkWebSocket.Connect`: the rejection for an unparseable URL carries only the prefix 'Failed to create WebSocket: '. The text of the thrown exception is not modelled.
- SHA-256 and HMAC-SHA256 internals (FIPS 180-4, RFC 2104) are left out. They are uninterpreted functions whose results are hex strings, so they contain no space. Their fixed length of 64 digits is not modelled. `SignatureBindsRequest` assumes they are collision-free.
- `JSON.parse` and `JSON.stringify` are left out. Inbound frames arrive already parsed, or as `ParseFailure`; outbound frames are datatype values.
- `Session.FeedList`: `Array.from` lists a `Set` in insertion order. The model promises each member exactly once, in some order.
- `console` logging is left out.
- src/client.ts (the REST client), src/example.ts (a demo program) and src/index.ts (re-exports) are not part of this model. Of src/errors.ts, only the error kinds the session raises, `WebSocketError` and `ConnectionError`, are kept in `Session.ErrorValue`. That type also holds `TransportError`, the socket's own `Error` that the `error` event passes to the error callback.
