/**
 * Concrete runs of the model: ordinary runs, and the behaviours of the code a reader may not
 * expect (stale handles after a reconnect, an uncancelled timer, a kept error message).
 */
module Scenarios {
  import opened Wrappers
  import opened CryptoData
  import opened WebSocket
  import opened Dashboard
  import opened CryptoChart
  import opened DashboardEffects

  function Btc(price: int): Crypto
  {
    Crypto("bitcoin", "BTC", "Bitcoin", Some(Decimal(price, 0)), Decimal(0, 0), Decimal(0, 0), Decimal(0, 0), Instant(0, 0))
  }

  /** Bootstrapping with one instrument selects it and leaves a dataset of length 1. */
  lemma BootstrapOne()
    ensures var s := FetchInitialData(InitialState, Fetched([Btc(50000)]));
      s.selectedCrypto == Some(Btc(50000)) && |s.cryptoData| == 1 && !s.loading && FocusResolves(s)
  {
  }

  /**
   * A first connect that fails and a retry that succeeds: the flag reads false and then true,
   * and the broadcast subscription is held on the retry's client.
   */
  lemma FailThenRetry(first: StompClient, retry: StompClient)
    ensures var failed := AfterConnectError(AfterConnect(Initial, first));
      var up := AfterConnectSuccess(AfterReconnectTimer(failed, retry));
      var subscribed := AfterSubscribe(up, BroadcastTopic, DatasetUpsert);
      && !failed.socketConnected && up.socketConnected
      && subscribed.subscribedTopics[BroadcastTopic] == Subscription(retry, BroadcastTopic, DatasetUpsert)
  {
  }

  /**
   * A connection that drops after the broadcast subscription was made: the failed connect keeps
   * the old handle, so after a successful reconnect the dashboard's `subscribe` finds the topic
   * registered and leaves it on the old client.
   */
  lemma DropKeepsStaleHandle(first: StompClient, retry: StompClient)
    ensures var up := AfterConnectSuccess(AfterConnect(Initial, first));
      var once := AfterSubscribe(up, BroadcastTopic, DatasetUpsert);
      var again := AfterConnectSuccess(AfterReconnectTimer(AfterConnectError(once), retry));
      var twice := AfterSubscribe(again, BroadcastTopic, DatasetUpsert);
      && twice.stompClient == Some(retry)
      && twice.subscribedTopics[BroadcastTopic].client == first
  {
  }

  /**
   * The consequence of the stale handle: after the drop and the reconnect, a broadcast frame
   * reaches no callback, whichever client delivers it. The old client is gone and the new one
   * never subscribed to the topic.
   */
  lemma ReconnectSilencesBroadcast(first: StompClient, retry: StompClient, data: Crypto)
    requires first != retry
    ensures var up := AfterConnectSuccess(AfterConnect(Initial, first));
      var once := AfterSubscribe(up, BroadcastTopic, DatasetUpsert);
      var again := AfterConnectSuccess(AfterReconnectTimer(AfterConnectError(once), retry));
      var twice := AfterSubscribe(again, BroadcastTopic, DatasetUpsert);
      && HandlerFor(once, first, BroadcastTopic) == Some(DatasetUpsert)
      && HandlerFor(twice, first, BroadcastTopic) == None
      && HandlerFor(twice, retry, BroadcastTopic) == None
  {
  }

  /**
   * The same run on the running component: mount, connect, lose the connection, reconnect
   * with a new client that connects. From then on a broadcast frame from any client leaves
   * the dashboard's state as it was, while a frame from the new client on a newly selected
   * instrument's narrow topic still replaces the selection.
   */
  method DropSilencesDashboard(first: StompClient, retry: StompClient, sender: StompClient, data: Crypto, focus: Crypto)
    returns (before: State, after: State, focused: Option<Crypto>)
    requires first != retry
    ensures after == before && before.connected
    ensures focused == Some(focus)
  {
    var service := new WebSocketService();
    var dashboard := new DashboardComponent(service);
    dashboard.Mount(first);
    dashboard.OnSocketConnected();
    dashboard.OnSocketError();
    dashboard.OnReconnectTimer(retry);
    dashboard.OnSocketConnected();
    before := dashboard.state;
    dashboard.OnFrame(sender, BroadcastTopic, data);
    after := dashboard.state;

    dashboard.SelectCrypto(data);
    ghost var s := service.Model();
    ghost var cleanup := dashboard.narrowCleanup;
    NarrowEffectSwitches(s, cleanup, dashboard.state);
    dashboard.RerunNarrowEffect();
    dashboard.OnFrame(retry, NarrowTopic(data.symbol), focus);
    focused := dashboard.state.selectedCrypto;
  }

  /** `disconnect` while a reconnect is pending does not cancel it: the timer can still fire and reconnect. */
  lemma DisconnectKeepsPendingReconnect(s: ServiceState, client: StompClient)
    ensures var torn := AfterDisconnect(AfterConnectError(s));
      torn.pendingReconnects > 0 && AfterReconnectTimer(torn, client).stompClient == Some(client)
  {
  }

  /**
   * With Bitcoin selected, a broadcast snapshot at 51000 becomes the selection, and the chart
   * fed the new selection gains exactly that sample.
   */
  lemma FocusedUpdateReachesChart(h: History)
    requires |h.priceHistory| == |h.timestamps| < HistoryLimit
    ensures var s := FetchInitialData(InitialState, Fetched([Btc(50000)]));
      var t := Deliver(s, DatasetUpsert, Btc(51000));
      && t.selectedCrypto == Some(Btc(51000))
      && t.cryptoData == [Btc(51000)]
      && OnData(h, t.selectedCrypto).priceHistory == h.priceHistory + [Decimal(51000, 0)]
      && OnData(EmptyHistory, t.selectedCrypto) == History([Decimal(51000, 0)], [HourMinuteSecond(Instant(0, 0))])
  {
  }

  /** A later successful bootstrap does not clear the error message of an earlier failed one. */
  lemma RetryKeepsError(list: seq<Crypto>)
    ensures FetchInitialData(FetchInitialData(InitialState, FetchFailed), Fetched(list)).error == Some(LoadErrorMessage)
  {
  }
}
