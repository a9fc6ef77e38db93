/**
 * Client code that drives a session through these event orders; each assertion
 * follows from the method contracts alone.
 */
module Scenarios {
  import opened Optional
  import Auth
  import opened Session

  const ConnectHandler: nat := 1
  const DisconnectHandler: nat := 2
  const ErrorHandler: nat := 3

  /** A session in the state every scenario starts from. */
  ghost predicate Established(s: ChainlinkWebSocket, baseline: seq<string>, added: seq<string>)
    reads s
  {
    && s.Valid() && s.urlApi.accepts(s.wsUrl)
    && s.ws == Open && s.heartbeat && s.reconnectAttempts == 0
    && s.onConnect == Some(ConnectHandler) && s.onDisconnect == Some(DisconnectHandler)
    && s.onError == Some(ErrorHandler)
    && s.subscribedFeeds == Elems(added) && s.connectedFeedIds == baseline
  }

  /** A fresh session with the three callbacks registered. */
  method NewSession(crypto: Auth.Crypto, urlApi: UrlApi, wsUrl: string) returns (s: ChainlinkWebSocket)
    requires wsUrl != "" && urlApi.accepts(wsUrl)
    ensures fresh(s) && s.wsUrl == wsUrl && s.Valid() && s.urlApi.accepts(s.wsUrl)
    ensures s.ws == NoSocket && s.reconnectAttempts == 0 && s.subscribedFeeds == {}
    ensures s.onConnect == Some(ConnectHandler) && s.onDisconnect == Some(DisconnectHandler)
    ensures s.onError == Some(ErrorHandler)
  {
    s := new ChainlinkWebSocket(WebSocketConfig("key", "secret", Some(wsUrl)), crypto, urlApi);
    s.OnConnected(ConnectHandler);
    s.OnDisconnected(DisconnectHandler);
    s.OnErrorReceived(ErrorHandler);
  }

  /** Connect with `baseline`, let the socket open, then subscribe to `added` on top of it. */
  method OpenSession(s: ChainlinkWebSocket, baseline: seq<string>, added: seq<string>, now: nat)
    requires s.Valid() && s.urlApi.accepts(s.wsUrl) && s.subscribedFeeds == {}
    requires s.onConnect == Some(ConnectHandler) && s.onDisconnect == Some(DisconnectHandler)
    requires s.onError == Some(ErrorHandler)
    modifies s
    ensures Established(s, baseline, added)
  {
    var c := s.Connect(Some(baseline), now);
    assert c.Opening? && c.url == UrlFor(s.wsUrl, baseline);
    s.OnOpen();
    var r := s.Subscribe(added);
    assert r == Done;
  }

  /**
   * Reconnecting reuses the baseline of the last explicit `connect`, while the replay
   * on open carries the subscriptions made since: the two are kept apart.
   */
  method ReconnectReplaysSubscriptions(s: ChainlinkWebSocket, baseline: seq<string>, added: seq<string>, now: nat)
    requires Established(s, baseline, added) && |added| > 0
    modifies s
  {
    var delay := s.OnClose();
    assert delay == Some(1000);
    var c := s.ReconnectElapsed(now);
    assert c.Opening? && c.url == UrlFor(s.wsUrl, baseline);
    assert added[0] in s.subscribedFeeds;
    ghost var before := s.trace;
    s.OnOpen();
    assert ReplaysSubscriptions(s.trace, before + [Invoked(ConnectHandler, Connected)], Elems(added));
  }

  /**
   * Two `disconnect` calls on an open session send one close request between them;
   * afterwards the session reports no connection, and the counter, the baseline and
   * the callbacks are those it had.
   */
  method DisconnectIsIdempotent(s: ChainlinkWebSocket, baseline: seq<string>, added: seq<string>)
    requires Established(s, baseline, added)
    modifies s
    ensures s.ws == NoSocket && s.subscribedFeeds == {} && !s.heartbeat
    ensures s.trace == old(s.trace) + [Sent(Close(NormalClosure, DisconnectReason))]
    ensures s.Valid() && s.reconnectAttempts == 0 && s.connectedFeedIds == baseline
    ensures s.onConnect == Some(ConnectHandler) && s.onDisconnect == Some(DisconnectHandler)
    ensures s.onError == Some(ErrorHandler) && s.onMessage == old(s.onMessage)
  {
    s.Disconnect();
    ghost var once := s.trace;
    s.Disconnect();
    assert s.trace == once;
    var connected := s.IsConnected();
    assert !connected;
  }

  /**
   * `disconnect` does not stop the dropped socket's `close` event from scheduling a
   * reconnect, which reopens with the stored baseline and nothing to replay.
   */
  method CloseAfterDisconnectStillReconnects(s: ChainlinkWebSocket, baseline: seq<string>, now: nat)
    requires s.Valid() && s.urlApi.accepts(s.wsUrl)
    requires s.ws == NoSocket && s.subscribedFeeds == {} && s.reconnectAttempts == 0
    requires s.connectedFeedIds == baseline && s.onConnect == Some(ConnectHandler)
    modifies s
  {
    var delay := s.OnClose();
    assert delay == Some(1000) && s.ws == NoSocket;
    var c := s.ReconnectElapsed(now);
    assert c.Opening? && c.url == UrlFor(s.wsUrl, baseline);
    ghost var before := s.trace;
    s.OnOpen();
    assert s.trace == before + [Invoked(ConnectHandler, Connected)];
  }

  /**
   * Closes with no open in between wait 1000, 2000, 4000, 8000 and 16000 ms, then no
   * more; the disconnect callback runs on every one of them.
   */
  method GiveUpAfterFiveCloses(s: ChainlinkWebSocket, baseline: seq<string>, added: seq<string>)
    requires Established(s, baseline, added)
    modifies s
  {
    ghost var start := s.trace;
    var schedule := [1000, 2000, 4000, 8000, 16000];
    var delays: seq<nat> := [];
    var i := 0;
    BackoffSchedule();
    while i < 6
      invariant 0 <= i <= 6 && s.Valid() && s.onDisconnect == Some(DisconnectHandler)
      invariant s.reconnectAttempts == (if i <= 5 then i else 5)
      invariant delays == schedule[..s.reconnectAttempts]
      invariant |s.trace| == |start| + i
      invariant forall k :: |start| <= k < |s.trace| ==> s.trace[k] == Invoked(DisconnectHandler, Disconnected)
    {
      var d := s.OnClose();
      assert d.Some? ==> d.value == schedule[i];
      if d.Some? {
        delays := delays + [d.value];
      }
      i := i + 1;
    }
    FullBackoffSchedule(6);
    assert delays == DelaysAfterCloses(0, 6) == schedule;
  }

  /** A malformed frame reaches the error callback and leaves the connection open. */
  method MalformedFrameKeepsConnection(s: ChainlinkWebSocket, baseline: seq<string>, added: seq<string>)
    requires Established(s, baseline, added)
    modifies s
  {
    ghost var before := s.trace;
    s.OnMessage(ParseFailure);
    assert s.trace == before + [Invoked(ErrorHandler, ErrorRaised(WebSocketError("Failed to parse message")))];
    var connected := s.IsConnected();
    assert connected;
  }
}
