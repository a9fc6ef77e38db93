/**
 * The streaming session manager `ChainlinkWebSocket` (src/websocket.ts).
 *
 * The live socket is reduced to its readiness (none, open, not open); socket events
 * (`open`, `message`, `error`, `close`, `ping`) and the heartbeat timer's tick are
 * methods that the environment calls. Outbound frames and callback invocations are
 * appended, in order, to the trace `trace`. The reconnect wait is the delay that the
 * `close` event returns; when it has elapsed the environment calls `ReconnectElapsed`.
 */
module Session {
  import opened Optional
  import opened Strings
  import Auth

  const MaxReconnectAttempts: nat := 5
  const ReconnectDelay: nat := 1000
  const DefaultWsUrl: string := "wss://ws.testnet-dataengine.chain.link/api/v1/ws"
  const NotConnectedMessage: string := "WebSocket is not connected"
  const ParseFailureMessage: string := "Failed to parse message"
  const UnknownErrorMessage: string := "Unknown error"
  const NormalClosure: int := 1000
  const DisconnectReason: string := "Client disconnect"

  /** `WebSocketConfig`; an absent or empty `wsUrl` selects the default URL. */
  datatype WebSocketConfig = WebSocketConfig(apiKey: string, apiSecret: string, wsUrl: Option<string>)

  /** The error classes of src/errors.ts that the session raises, and the socket's own error. */
  datatype ErrorValue =
    | WebSocketError(message: string)
    | ConnectionError(message: string)
    | TransportError(message: string)

  /** The quote snapshot `Report` (src/client.ts). */
  datatype Report = Report(feedID: string, validFromTimestamp: int, observationsTimestamp: int,
                           nativeFee: string, linkFee: string, expiresAt: int,
                           price: string, bid: string, ask: string,
                           benchmarkPrice: Option<string>, liquidityPrice: Option<string>)

  /** A parsed inbound frame; `kind` is the `type` field, whatever string it holds. */
  datatype StreamMessage = StreamMessage(kind: string, report: Option<Report>, error: Option<string>,
                                         timestamp: Option<int>)

  /** What `JSON.parse` made of an inbound frame. */
  datatype Inbound = ParseFailure | Parsed(message: StreamMessage)

  /** The readiness of the socket held in `ws`. */
  datatype SocketState = NoSocket | Open | NotOpen

  /** Outbound traffic: the JSON `SubscriptionRequest` frames, ping, pong and the close request. */
  datatype Frame =
    | SubscribeFrame(feedIds: seq<string>)
    | UnsubscribeFrame(feedIds: seq<string>)
    | Ping
    | Pong
    | Close(code: int, reason: string)

  /** What a consumer callback is invoked with. */
  datatype Notification =
    | Connected
    | Disconnected
    | MessageReceived(message: StreamMessage)
    | ErrorRaised(error: ErrorValue)

  /** One observable effect: a frame sent, or the registered handler `handler` invoked. */
  datatype Effect = Sent(frame: Frame) | Invoked(handler: nat, notification: Notification)

  /** The outcome of `subscribe`/`unsubscribe`: returned, or thrown. */
  datatype Outcome = Done | Thrown(error: ErrorValue)

  /**
   * The URL a connection attempt opens: the base URL, with the `feedIDs` query
   * parameter set to the given value when present.
   */
  datatype ConnectUrl = ConnectUrl(base: string, feedIDs: Option<string>)

  /**
   * The WHATWG URL collaborator: whether a base URL is accepted by `new URL` and
   * `new WebSocket`, and `pathname + search` of a connect URL.
   */
  datatype UrlApi = UrlApi(accepts: string -> bool, pathAndSearch: ConnectUrl -> string)

  /** What `connect` did: a handshake underway with this URL and these headers, or a rejection. */
  datatype ConnectOutcome = Opening(url: ConnectUrl, headers: map<string, string>) | Failed(error: ErrorValue)

  /**
   * The connect URL for a feed list: the `feedIDs` parameter is present exactly when
   * the list is non-empty, and then splitting it at commas gives the list back when no
   * id contains a comma.
   */
  function UrlFor(base: string, feeds: seq<string>): (u: ConnectUrl)
    ensures u.base == base
    ensures u.feedIDs.Some? <==> |feeds| > 0
    ensures u.feedIDs.Some? && NoneContains(feeds, ',') ==> Split(u.feedIDs.value, ',') == feeds
  {
    if |feeds| > 0 then
      var u := ConnectUrl(base, Some(Join(feeds, ',')));
      if NoneContains(feeds, ',') then SplitJoin(feeds, ','); u else u
    else
      ConnectUrl(base, None)
  }

  /** `message.error || 'Unknown error'`: never empty, and the message itself when it has one. */
  function ErrorText(error: Option<string>): (text: string)
    ensures text != ""
    ensures error.Some? && error.value != "" ==> text == error.value
    ensures error.None? || error.value == "" ==> text == UnknownErrorMessage
  {
    if error.Some? && error.value != "" then error.value else UnknownErrorMessage
  }

  /**
   * The callback the message handler invokes for an inbound frame, if any: parse
   * failures and `error` messages reach the error callback, `report` messages with a
   * payload reach the message callback, and everything else reaches none.
   */
  function Dispatch(m: Inbound): (n: Option<Notification>)
    ensures n.Some? && n.value.MessageReceived? <==>
      m.Parsed? && m.message.kind == "report" && m.message.report.Some?
    ensures n.Some? && n.value.MessageReceived? ==> n.value.message == m.message
    ensures n.Some? && n.value.ErrorRaised? <==> m.ParseFailure? || m.message.kind == "error"
    ensures m.ParseFailure? ==> n == Some(ErrorRaised(WebSocketError(ParseFailureMessage)))
    ensures m.Parsed? && m.message.kind == "error" ==> n == Some(ErrorRaised(WebSocketError(ErrorText(m.message.error))))
    ensures n.None? || n.value.MessageReceived? || n.value.ErrorRaised?
  {
    match m
    case ParseFailure => Some(ErrorRaised(WebSocketError(ParseFailureMessage)))
    case Parsed(msg) =>
      if msg.kind == "report" then
        if msg.report.Some? then Some(MessageReceived(msg)) else None
      else if msg.kind == "error" then
        Some(ErrorRaised(WebSocketError(ErrorText(msg.error))))
      else
        None
  }

  function Pow2(k: nat): (p: nat)
    ensures p >= 1
  {
    if k == 0 then 1 else 2 * Pow2(k - 1)
  }

  /** `reconnectDelay * 2^(attempt - 1)`, the wait before reconnect attempt `attempt`. */
  function BackoffDelay(attempt: nat): (delay: nat)
    requires attempt >= 1
    ensures delay >= ReconnectDelay
  {
    ReconnectDelay * Pow2(attempt - 1)
  }

  /** Each attempt waits twice as long as the one before. */
  lemma BackoffDoubles(attempt: nat)
    requires attempt >= 1
    ensures BackoffDelay(attempt + 1) == 2 * BackoffDelay(attempt)
  {
  }

  /** The schedule of the five attempts the cap allows. */
  lemma BackoffSchedule()
    ensures [BackoffDelay(1), BackoffDelay(2), BackoffDelay(3), BackoffDelay(4), BackoffDelay(5)]
         == [1000, 2000, 4000, 8000, 16000]
  {
  }

  /**
   * The counter after a `close` event when it held `attempts`: one more while below
   * the cap, unchanged at the cap.
   */
  function AttemptsAfterClose(attempts: nat): (next: nat)
    requires attempts <= MaxReconnectAttempts
    ensures next <= MaxReconnectAttempts
    ensures attempts < MaxReconnectAttempts ==> next == attempts + 1
    ensures attempts == MaxReconnectAttempts ==> next == attempts
  {
    if attempts < MaxReconnectAttempts then attempts + 1 else attempts
  }

  /** The reconnect wait a `close` event schedules when the counter held `attempts`, if any. */
  function DelayAfterClose(attempts: nat): (delay: Option<nat>)
    requires attempts <= MaxReconnectAttempts
    ensures delay.Some? <==> attempts < MaxReconnectAttempts
    ensures delay.Some? ==> delay.value == BackoffDelay(AttemptsAfterClose(attempts))
  {
    if attempts < MaxReconnectAttempts then Some(BackoffDelay(attempts + 1)) else None
  }

  /**
   * The waits scheduled by `closes` consecutive `close` events with no `open` between
   * them, starting from a counter of `attempts`.
   */
  function DelaysAfterCloses(attempts: nat, closes: nat): seq<nat>
    requires attempts <= MaxReconnectAttempts
    decreases closes
  {
    if closes == 0 then []
    else
      var rest := DelaysAfterCloses(AttemptsAfterClose(attempts), closes - 1);
      match DelayAfterClose(attempts)
      case Some(d) => [d] + rest
      case None => rest
  }

  /**
   * Consecutive closes schedule at most `MaxReconnectAttempts - attempts` reconnects,
   * one per close until the cap is reached and none after it.
   */
  lemma {:induction false} CapBoundsReconnects(attempts: nat, closes: nat)
    requires attempts <= MaxReconnectAttempts
    ensures |DelaysAfterCloses(attempts, closes)| ==
      if closes <= MaxReconnectAttempts - attempts then closes else MaxReconnectAttempts - attempts
    decreases closes
  {
    if closes > 0 {
      CapBoundsReconnects(AttemptsAfterClose(attempts), closes - 1);
    }
  }

  /** Any run of closes after the cap is reached schedules nothing. */
  lemma {:induction false} NothingAfterCap(closes: nat)
    ensures DelaysAfterCloses(MaxReconnectAttempts, closes) == []
  {
    if closes > 0 {
      NothingAfterCap(closes - 1);
    }
  }

  /**
   * From a freshly opened connection (counter 0), five or more consecutive closes
   * schedule exactly the waits 1000, 2000, 4000, 8000 and 16000 ms.
   */
  lemma FullBackoffSchedule(closes: nat)
    requires closes >= MaxReconnectAttempts
    ensures DelaysAfterCloses(0, closes) == [1000, 2000, 4000, 8000, 16000]
  {
    var c := closes - MaxReconnectAttempts;
    NothingAfterCap(c);
    BackoffSchedule();
    assert DelaysAfterCloses(4, c + 1) == [16000];
    assert DelaysAfterCloses(3, c + 2) == [8000, 16000];
    assert DelaysAfterCloses(2, c + 3) == [4000, 8000, 16000];
    assert DelaysAfterCloses(1, c + 4) == [2000, 4000, 8000, 16000];
  }

  /** The set of ids in a list. */
  function Elems(ids: seq<string>): set<string> {
    set id | id in ids
  }

  /** No id occurs twice. */
  predicate Distinct(ids: seq<string>) {
    forall i, j :: 0 <= i < j < |ids| ==> ids[i] != ids[j]
  }

  /**
   * `after` is `before` followed by one subscribe frame naming every id of `feeds`
   * exactly once.
   */
  ghost predicate ReplaysSubscriptions(after: seq<Effect>, before: seq<Effect>, feeds: set<string>) {
    && |after| == |before| + 1
    && after[..|before|] == before
    && after[|before|].Sent? && after[|before|].frame.SubscribeFrame?
    && Elems(after[|before|].frame.feedIds) == feeds
    && Distinct(after[|before|].frame.feedIds)
  }

  /** `Array.from(set)`: every member of the set exactly once, in some order. */
  method FeedList(feeds: set<string>) returns (ids: seq<string>)
    ensures Elems(ids) == feeds && Distinct(ids) && |ids| == |feeds|
  {
    ids := [];
    var rest := feeds;
    while rest != {}
      invariant rest <= feeds
      invariant forall x :: x in feeds <==> x in rest || x in ids
      invariant forall x :: x in ids ==> x !in rest
      invariant Distinct(ids)
      invariant |ids| + |rest| == |feeds|
      decreases rest
    {
      var id :| id in rest;
      ids := ids + [id];
      rest := rest - {id};
    }
  }

  class ChainlinkWebSocket {
    const auth: Auth.ChainlinkAuth
    const crypto: Auth.Crypto
    const urlApi: UrlApi
    const wsUrl: string

    var ws: SocketState
    var reconnectAttempts: nat
    var heartbeat: bool
    var subscribedFeeds: set<string>
    var connectedFeedIds: seq<string>

    var onMessage: Option<nat>
    var onError: Option<nat>
    var onConnect: Option<nat>
    var onDisconnect: Option<nat>

    /** Everything the session has sent and every callback it has invoked, oldest first. */
    var trace: seq<Effect>

    ghost predicate Valid()
      reads this
    {
      reconnectAttempts <= MaxReconnectAttempts
    }

    /** The handler registered for a notification, if any. */
    function Recipient(n: Notification): Option<nat>
      reads this
    {
      match n
      case Connected => onConnect
      case Disconnected => onDisconnect
      case MessageReceived(_) => onMessage
      case ErrorRaised(_) => onError
    }

    /** `this.onX?.(...)`: the invocation, when a handler is registered. */
    function Delivered(n: Option<Notification>): seq<Effect>
      reads this
    {
      if n.Some? && Recipient(n.value).Some? then [Invoked(Recipient(n.value).value, n.value)] else []
    }

    constructor (config: WebSocketConfig, crypto: Auth.Crypto, urlApi: UrlApi)
      ensures Valid()
      ensures auth == Auth.ChainlinkAuth(config.apiKey, config.apiSecret)
      ensures this.crypto == crypto && this.urlApi == urlApi
      ensures wsUrl == if config.wsUrl.Some? && config.wsUrl.value != "" then config.wsUrl.value else DefaultWsUrl
      ensures ws == NoSocket && reconnectAttempts == 0 && !heartbeat
      ensures subscribedFeeds == {} && connectedFeedIds == []
      ensures onMessage == None && onError == None && onConnect == None && onDisconnect == None
      ensures trace == []
    {
      auth := Auth.ChainlinkAuth(config.apiKey, config.apiSecret);
      this.crypto := crypto;
      this.urlApi := urlApi;
      wsUrl := if config.wsUrl.Some? && config.wsUrl.value != "" then config.wsUrl.value else DefaultWsUrl;
      ws := NoSocket;
      reconnectAttempts := 0;
      heartbeat := false;
      subscribedFeeds := {};
      connectedFeedIds := [];
      onMessage, onError, onConnect, onDisconnect := None, None, None, None;
      trace := [];
    }

    /** `this.onX?.(...)`: the registered handler for `n`, if any, is invoked with it. */
    method Notify(n: Notification)
      modifies this`trace
      ensures trace == old(trace) + Delivered(Some(n))
    {
      var handler := Recipient(n);
      if handler.Some? {
        trace := trace + [Invoked(handler.value, n)];
      }
    }

    /**
     * `connect(feedIds?)`, up to the new socket's creation. A supplied list, even an
     * empty one, becomes the reconnect baseline; the chosen list decides the `feedIDs`
     * parameter, and the handshake is signed over that URL's path and query at `now`.
     * A base URL that does not parse rejects, after the baseline was already stored.
     */
    method Connect(feedIds: Option<seq<string>>, now: nat) returns (outcome: ConnectOutcome)
      requires Valid()
      modifies this`connectedFeedIds, this`ws
      ensures Valid()
      ensures connectedFeedIds == if feedIds.Some? then feedIds.value else old(connectedFeedIds)
      ensures outcome.Opening? <==> urlApi.accepts(wsUrl)
      ensures outcome.Opening? ==>
        && outcome.url == UrlFor(wsUrl, connectedFeedIds)
        && outcome.headers == Auth.GenerateWebSocketAuthHeaders(auth, crypto, urlApi.pathAndSearch(outcome.url), now)
        && ws == NotOpen
      ensures outcome.Failed? ==>
        outcome.error == ConnectionError("Failed to create WebSocket: ") && ws == old(ws)
    {
      if feedIds.Some? {
        connectedFeedIds := feedIds.value;
      }
      var feedsToConnect := if feedIds.Some? then feedIds.value else connectedFeedIds;
      if !urlApi.accepts(wsUrl) {
        return Failed(ConnectionError("Failed to create WebSocket: "));
      }
      var connectUrl := UrlFor(wsUrl, feedsToConnect);
      var path := urlApi.pathAndSearch(connectUrl);
      var authHeaders := Auth.GenerateWebSocketAuthHeaders(auth, crypto, path, now);
      ws := NotOpen;
      outcome := Opening(connectUrl, authHeaders);
    }

    /**
     * The `open` event: the counter resets, the heartbeat starts, the connect callback
     * runs and, when there are subscriptions, one subscribe frame replays exactly them.
     */
    method OnOpen()
      requires Valid() && ws == NotOpen
      modifies this
      ensures Valid()
      ensures ws == Open && reconnectAttempts == 0 && heartbeat
      ensures subscribedFeeds == old(subscribedFeeds) && connectedFeedIds == old(connectedFeedIds)
      ensures onMessage == old(onMessage) && onError == old(onError)
      ensures onConnect == old(onConnect) && onDisconnect == old(onDisconnect)
      ensures |old(subscribedFeeds)| == 0 ==> trace == old(trace) + Delivered(Some(Connected))
      ensures |old(subscribedFeeds)| > 0 ==>
        ReplaysSubscriptions(trace, old(trace) + Delivered(Some(Connected)), old(subscribedFeeds))
    {
      ws := Open;
      reconnectAttempts := 0;
      SetupHeartbeat();
      Notify(Connected);
      if |subscribedFeeds| > 0 {
        var ids := FeedList(subscribedFeeds);
        ghost var before := trace;
        var result := Subscribe(ids);
        assert trace == before + [Sent(SubscribeFrame(ids))];
      }
    }

    /** The `message` event, through `handleMessage`: at most one callback, nothing else changes. */
    method OnMessage(m: Inbound)
      modifies this`trace
      ensures trace == old(trace) + Delivered(Dispatch(m))
    {
      match m
      case ParseFailure =>
        Notify(ErrorRaised(WebSocketError(ParseFailureMessage)));
      case Parsed(message) =>
        HandleMessage(message);
    }

    method HandleMessage(message: StreamMessage)
      modifies this`trace
      ensures trace == old(trace) + Delivered(Dispatch(Parsed(message)))
    {
      if message.kind == "report" {
        if message.report.Some? {
          Notify(MessageReceived(message));
        }
      } else if message.kind == "error" {
        Notify(ErrorRaised(WebSocketError(ErrorText(message.error))));
      }
    }

    /**
     * The `error` event: the socket that raised it is already closing, so a held
     * socket is no longer open; the error callback receives the socket's error, and
     * the returned value is the rejection of the pending `connect` promise.
     */
    method OnError(message: string) returns (rejection: ErrorValue)
      modifies this`trace, this`ws
      ensures ws == if old(ws) == NoSocket then NoSocket else NotOpen
      ensures trace == old(trace) + Delivered(Some(ErrorRaised(TransportError(message))))
      ensures rejection == ConnectionError("WebSocket error: " + message)
    {
      if ws != NoSocket {
        ws := NotOpen;
      }
      Notify(ErrorRaised(TransportError(message)));
      rejection := ConnectionError("WebSocket error: " + message);
    }

    /**
     * The `close` event, from the held socket or from one already dropped by
     * `disconnect`: the heartbeat stops, the disconnect callback runs, and while the
     * counter is below the cap a reconnect is scheduled after the returned wait.
     */
    method OnClose() returns (delay: Option<nat>)
      requires Valid()
      modifies this`ws, this`heartbeat, this`trace, this`reconnectAttempts
      ensures Valid()
      ensures ws == if old(ws) == NoSocket then NoSocket else NotOpen
      ensures !heartbeat
      ensures trace == old(trace) + Delivered(Some(Disconnected))
      ensures reconnectAttempts == AttemptsAfterClose(old(reconnectAttempts))
      ensures delay == DelayAfterClose(old(reconnectAttempts))
    {
      if ws != NoSocket {
        ws := NotOpen;
      }
      Cleanup();
      Notify(Disconnected);
      if reconnectAttempts < MaxReconnectAttempts {
        var wait := Reconnect();
        delay := Some(wait);
      } else {
        delay := None;
      }
    }

    /** The server's `ping`: answered with a pong on the held socket. */
    method OnPing()
      modifies this`trace
      ensures trace == old(trace) + (if ws != NoSocket then [Sent(Pong)] else [])
    {
      if ws != NoSocket {
        trace := trace + [Sent(Pong)];
      }
    }

    /**
     * `subscribe(feedIds)`: throws unless the socket is open; otherwise sends one
     * subscribe frame with exactly `feedIds` and adds them to the subscriptions.
     */
    method Subscribe(feedIds: seq<string>) returns (result: Outcome)
      modifies this`trace, this`subscribedFeeds
      ensures ws != Open ==>
        && result == Thrown(WebSocketError(NotConnectedMessage))
        && trace == old(trace) && subscribedFeeds == old(subscribedFeeds)
      ensures ws == Open ==>
        && result == Done
        && trace == old(trace) + [Sent(SubscribeFrame(feedIds))]
        && subscribedFeeds == old(subscribedFeeds) + Elems(feedIds)
    {
      if ws != Open {
        return Thrown(WebSocketError(NotConnectedMessage));
      }
      trace := trace + [Sent(SubscribeFrame(feedIds))];
      for i := 0 to |feedIds|
        invariant trace == old(trace) + [Sent(SubscribeFrame(feedIds))]
        invariant subscribedFeeds == old(subscribedFeeds) + Elems(feedIds[..i])
      {
        assert feedIds[..i + 1] == feedIds[..i] + [feedIds[i]];
        subscribedFeeds := subscribedFeeds + {feedIds[i]};
      }
      assert feedIds[..|feedIds|] == feedIds;
      result := Done;
    }

    /**
     * `unsubscribe(feedIds)`: throws unless the socket is open; otherwise sends one
     * unsubscribe frame with exactly `feedIds` and removes them from the subscriptions.
     */
    method Unsubscribe(feedIds: seq<string>) returns (result: Outcome)
      modifies this`trace, this`subscribedFeeds
      ensures ws != Open ==>
        && result == Thrown(WebSocketError(NotConnectedMessage))
        && trace == old(trace) && subscribedFeeds == old(subscribedFeeds)
      ensures ws == Open ==>
        && result == Done
        && trace == old(trace) + [Sent(UnsubscribeFrame(feedIds))]
        && subscribedFeeds == old(subscribedFeeds) - Elems(feedIds)
    {
      if ws != Open {
        return Thrown(WebSocketError(NotConnectedMessage));
      }
      trace := trace + [Sent(UnsubscribeFrame(feedIds))];
      for i := 0 to |feedIds|
        invariant trace == old(trace) + [Sent(UnsubscribeFrame(feedIds))]
        invariant subscribedFeeds == old(subscribedFeeds) - Elems(feedIds[..i])
      {
        assert feedIds[..i + 1] == feedIds[..i] + [feedIds[i]];
        subscribedFeeds := subscribedFeeds - {feedIds[i]};
      }
      assert feedIds[..|feedIds|] == feedIds;
      result := Done;
    }

    /** `setupHeartbeat`: a new interval, of 30000 ms in the source, is live. */
    method SetupHeartbeat()
      modifies this`heartbeat
      ensures heartbeat
    {
      heartbeat := true;
    }

    /** One tick of the heartbeat interval: a ping while the interval is live and the socket open. */
    method HeartbeatTick()
      modifies this`trace
      ensures trace == old(trace) + (if heartbeat && ws == Open then [Sent(Ping)] else [])
    {
      if heartbeat && ws == Open {
        trace := trace + [Sent(Ping)];
      }
    }

    /** `cleanup`: the interval is cleared, whether or not one was live. */
    method Cleanup()
      modifies this`heartbeat
      ensures !heartbeat
    {
      if heartbeat {
        heartbeat := false;
      }
    }

    /** `reconnect`, up to its wait: the counter goes up first, then sets the wait. */
    method Reconnect() returns (delay: nat)
      requires reconnectAttempts < MaxReconnectAttempts
      modifies this`reconnectAttempts
      ensures reconnectAttempts == old(reconnectAttempts) + 1
      ensures delay == BackoffDelay(reconnectAttempts)
    {
      reconnectAttempts := reconnectAttempts + 1;
      delay := ReconnectDelay * Pow2(reconnectAttempts - 1);
    }

    /**
     * The rest of `reconnect` once its wait has elapsed: `connect()` with no list,
     * so with the stored baseline; a rejection is caught and dropped.
     */
    method ReconnectElapsed(now: nat) returns (outcome: ConnectOutcome)
      requires Valid()
      modifies this`connectedFeedIds, this`ws
      ensures Valid()
      ensures connectedFeedIds == old(connectedFeedIds)
      ensures outcome.Opening? <==> urlApi.accepts(wsUrl)
      ensures outcome.Opening? ==>
        && outcome.url == UrlFor(wsUrl, connectedFeedIds)
        && outcome.headers == Auth.GenerateWebSocketAuthHeaders(auth, crypto, urlApi.pathAndSearch(outcome.url), now)
        && ws == NotOpen
      ensures outcome.Failed? ==> ws == old(ws)
    {
      outcome := Connect(None, now);
    }

    /**
     * `disconnect()`: the heartbeat stops, a held socket is asked to close normally
     * and dropped, and the subscriptions are cleared. The counter, the baseline and
     * the callbacks stay, so a later `close` event of the dropped socket still
     * schedules a reconnect.
     */
    method Disconnect()
      modifies this`heartbeat, this`ws, this`trace, this`subscribedFeeds
      ensures !heartbeat && ws == NoSocket && subscribedFeeds == {}
      ensures trace == old(trace) + (if old(ws) != NoSocket then [Sent(Close(NormalClosure, DisconnectReason))] else [])
    {
      Cleanup();
      if ws != NoSocket {
        trace := trace + [Sent(Close(NormalClosure, DisconnectReason))];
        ws := NoSocket;
      }
      subscribedFeeds := {};
    }

    method OnMessageReceived(handler: nat)
      modifies this`onMessage
      ensures onMessage == Some(handler)
    {
      onMessage := Some(handler);
    }

    method OnErrorReceived(handler: nat)
      modifies this`onError
      ensures onError == Some(handler)
    {
      onError := Some(handler);
    }

    method OnConnected(handler: nat)
      modifies this`onConnect
      ensures onConnect == Some(handler)
    {
      onConnect := Some(handler);
    }

    method OnDisconnected(handler: nat)
      modifies this`onDisconnect
      ensures onDisconnect == Some(handler)
    {
      onDisconnect := Some(handler);
    }

    /** `isConnected()`: whether a socket is held and open. */
    method IsConnected() returns (connected: bool)
      ensures connected <==> ws == Open
    {
      connected := ws == Open;
    }
  }
}
