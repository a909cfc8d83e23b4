/**
 * The side effects of the dashboard component (frontend/src/components/Dashboard.js):
 * opening the channel on mount and subscribing to the broadcast topic once it is up,
 * keeping the selected instrument's narrow topic subscribed, routing delivered
 * snapshots to the state updaters, and tearing the channel down on unmount.
 *
 * The component's state changes only through the pure updaters of module Dashboard.
 * When React re-runs the selection effect is not modelled: the host calls
 * `RerunNarrowEffect` whenever `selectedCrypto` or `connected` has changed.
 */
module DashboardEffects {
  import opened Wrappers
  import opened CryptoData
  import opened WebSocket
  import opened Dashboard

  /** The narrow topics registered in `m`. */
  function NarrowKeys(m: map<Topic, Subscription>): (r: set<Topic>)
    ensures forall t :: t in r <==> t in m && IsNarrow(t)
  {
    set t | t in m && IsNarrow(t)
  }

  /** The only narrow topic registered, if any, is the one the selection effect will clean up. */
  predicate NarrowBounded(s: ServiceState, cleanup: Option<Topic>)
  {
    NarrowKeys(s.subscribedTopics) <= OptionSet(cleanup)
  }

  /**
   * The registry after the selection effect re-runs for state `st`: the previous run's cleanup
   * unsubscribes its topic, then the effect subscribes the narrow topic of the selection, if
   * there is a selection and `connected` is set.
   */
  function AfterNarrowEffect(s: ServiceState, cleanup: Option<Topic>, st: State): (r: ServiceState)
    requires Consistent(s)
    ensures Consistent(r)
    ensures r.stompClient == s.stompClient && r.socketConnected == s.socketConnected
    ensures r.pendingReconnects == s.pendingReconnects
  {
    var released := if cleanup.Some? then AfterUnsubscribe(s, cleanup.value) else s;
    match NarrowTopicFor(st)
    case None => released
    case Some(topicPath) => AfterSubscribe(released, topicPath, FocusReplace)
  }

  /**
   * Re-running the selection effect keeps at most one narrow topic registered: the
   * selection's own, and none while the channel is down.
   */
  lemma NarrowEffectKeepsOne(s: ServiceState, cleanup: Option<Topic>, st: State)
    requires Consistent(s) && NarrowBounded(s, cleanup)
    requires forall t :: t in OptionSet(cleanup) ==> IsNarrow(t)
    ensures NarrowBounded(AfterNarrowEffect(s, cleanup, st), NarrowTopicFor(st))
    ensures !s.socketConnected ==> NarrowKeys(AfterNarrowEffect(s, cleanup, st).subscribedTopics) == {}
    ensures |NarrowKeys(AfterNarrowEffect(s, cleanup, st).subscribedTopics)| <= 1
  {
    var r := AfterNarrowEffect(s, cleanup, st);
    var released := if cleanup.Some? then AfterUnsubscribe(s, cleanup.value) else s;
    assert NarrowKeys(released.subscribedTopics) == {};
    assert NarrowKeys(r.subscribedTopics) <= OptionSet(NarrowTopicFor(st));
    assert |OptionSet(NarrowTopicFor(st))| <= 1;
    SubsetCard(NarrowKeys(r.subscribedTopics), OptionSet(NarrowTopicFor(st)));
  }

  lemma SubsetCard<T>(a: set<T>, b: set<T>)
    requires a <= b
    ensures |a| <= |b|
  {
    assert b == a + (b - a);
  }

  /**
   * What one re-run does to the registry: the old narrow topic is gone unless it is also the
   * new one; when connected, the new one is registered afresh with the focus callback on the
   * current client; every other topic (the broadcast topic among them) keeps its entry.
   */
  lemma NarrowEffectSwitches(s: ServiceState, cleanup: Option<Topic>, st: State)
    requires Consistent(s) && NarrowBounded(s, cleanup)
    requires forall t :: t in OptionSet(cleanup) ==> IsNarrow(t)
    ensures var r := AfterNarrowEffect(s, cleanup, st);
      && (cleanup.Some? && NarrowTopicFor(st) != cleanup ==> cleanup.value !in r.subscribedTopics)
      && (NarrowTopicFor(st).Some? && s.socketConnected ==>
            r.subscribedTopics[NarrowTopicFor(st).value]
              == Subscription(s.stompClient.value, NarrowTopicFor(st).value, FocusReplace))
      && (forall t :: t in s.subscribedTopics && !IsNarrow(t) ==>
            t in r.subscribedTopics && r.subscribedTopics[t] == s.subscribedTopics[t])
      && (forall t :: t in r.subscribedTopics && !IsNarrow(t) ==> t in s.subscribedTopics)
  {
  }

  /** The dashboard component together with the service singleton it drives. */
  class DashboardComponent {
    /** The component's state record. */
    var state: State
    /** The topic the last run of the selection effect will unsubscribe in its cleanup. */
    var narrowCleanup: Option<Topic>
    /** The service singleton. */
    const ws: WebSocketService

    ghost predicate Valid()
      reads this, ws
    {
      && ws.Valid()
      && NarrowBounded(ws.Model(), narrowCleanup)
      && (forall t :: t in OptionSet(narrowCleanup) ==> IsNarrow(t))
    }

    /**
     * The broadcast topic is registered on a client that is no longer the current one, so
     * its frames reach no callback.
     */
    ghost predicate BroadcastSilenced()
      reads this, ws
    {
      StaleHandle(ws.Model(), BroadcastTopic)
    }

    /** The first render: the initial state, no effect has run yet. */
    constructor (service: WebSocketService)
      requires service.Valid() && NarrowKeys(service.subscribedTopics) == {}
      ensures Valid() && ws == service
      ensures state == InitialState && narrowCleanup == None
    {
      state := InitialState;
      narrowCleanup := None;
      ws := service;
    }

    /** The mount effect: `fetchInitialData()` is started and `setupWebSocket()` opens the channel. */
    method Mount(client: StompClient)
      requires Valid() && client !in ws.used && !ws.socketConnected
      modifies ws
      ensures Valid()
      ensures ws.Model() == AfterConnect(old(ws.Model()), client)
      ensures ws.attempt == Some(client) && ws.used == old(ws.used) + {client}
    {
      ws.Connect(client);
    }

    /** The bootstrap fetch completes, with the list or with an error. */
    method OnFetchResult(result: FetchResult)
      requires Valid()
      modifies this
      ensures Valid() && narrowCleanup == old(narrowCleanup)
      ensures state == FetchInitialData(old(state), result)
    {
      state := FetchInitialData(state, result);
    }

    /**
     * The channel comes up: the service raises its flag and then runs the `onConnect` that
     * `setupWebSocket` passed, which sets `connected` and subscribes to the broadcast topic.
     */
    method OnSocketConnected()
      requires Valid() && ws.attempt.Some?
      modifies this, ws
      ensures Valid() && narrowCleanup == old(narrowCleanup)
      ensures ws.Model() == AfterSubscribe(AfterConnectSuccess(old(ws.Model())), BroadcastTopic, DatasetUpsert)
      ensures state == UpdateState(old(state), EmptyPatch.(connected := Some(true)))
      ensures BroadcastTopic in ws.subscribedTopics
      ensures ws.attempt == None && ws.used == old(ws.used)
      ensures old(BroadcastSilenced()) ==> BroadcastSilenced()
    {
      ws.OnConnectSuccess();
      state := UpdateState(state, EmptyPatch.(connected := Some(true)));
      assert !IsNarrow(BroadcastTopic);
      var _ := ws.Subscribe(BroadcastTopic, DatasetUpsert);
    }

    /** The connect attempt fails; `connected` in the component's state is not touched. */
    method OnSocketError()
      requires Valid() && (ws.attempt.Some? || ws.socketConnected)
      modifies ws
      ensures Valid()
      ensures ws.Model() == AfterConnectError(old(ws.Model()))
      ensures ws.attempt == None && ws.used == old(ws.used)
      ensures old(BroadcastSilenced()) ==> BroadcastSilenced()
    {
      ws.OnConnectError();
    }

    /**
     * A scheduled reconnect fires with a new client. A broadcast subscription made on an
     * earlier client is left behind on it, and the broadcast topic falls silent.
     */
    method OnReconnectTimer(client: StompClient)
      requires Valid() && ws.pendingReconnects > 0 && client !in ws.used && !ws.socketConnected
      modifies ws
      ensures Valid()
      ensures ws.Model() == AfterReconnectTimer(old(ws.Model()), client)
      ensures ws.attempt == Some(client) && ws.used == old(ws.used) + {client}
      ensures BroadcastTopic in old(ws.subscribedTopics) ==> BroadcastSilenced()
    {
      ws.OnReconnectTimer(client);
    }

    /**
     * `client` delivers a decoded frame on `topic`. It reaches the callback of the topic's
     * handle only when that handle belongs to `client` and `client` is the live connection;
     * otherwise nothing changes.
     */
    method OnFrame(client: StompClient, topic: Topic, data: Crypto)
      requires Valid()
      modifies this
      ensures Valid() && narrowCleanup == old(narrowCleanup)
      ensures HandlerFor(ws.Model(), client, topic).Some? ==>
        state == Deliver(old(state), HandlerFor(ws.Model(), client, topic).value, data)
      ensures HandlerFor(ws.Model(), client, topic).None? ==> state == old(state)
      ensures BroadcastSilenced() && topic == BroadcastTopic ==> state == old(state)
    {
      var handler := HandlerFor(ws.Model(), client, topic);
      if handler.Some? {
        state := Deliver(state, handler.value, data);
      }
    }

    /** A row of the table is clicked. */
    method SelectCrypto(crypto: Crypto)
      requires Valid()
      modifies this
      ensures Valid() && narrowCleanup == old(narrowCleanup)
      ensures state == HandleSelectCrypto(old(state), crypto)
    {
      state := HandleSelectCrypto(state, crypto);
    }

    /**
     * The selection effect re-runs after `selectedCrypto` or `connected` changed: the previous
     * run's cleanup unsubscribes its topic, then the selection's narrow topic is subscribed.
     */
    method RerunNarrowEffect()
      requires Valid()
      modifies this, ws
      ensures Valid() && state == old(state)
      ensures narrowCleanup == NarrowTopicFor(state)
      ensures ws.Model() == AfterNarrowEffect(old(ws.Model()), old(narrowCleanup), state)
      ensures ws.attempt == old(ws.attempt) && ws.used == old(ws.used)
      ensures old(BroadcastSilenced()) ==> BroadcastSilenced()
    {
      NarrowEffectKeepsOne(ws.Model(), narrowCleanup, state);
      NarrowEffectSwitches(ws.Model(), narrowCleanup, state);
      assert !IsNarrow(BroadcastTopic);
      if narrowCleanup.Some? {
        ws.Unsubscribe(narrowCleanup.value);
      }
      narrowCleanup := None;
      if state.selectedCrypto.Some? && state.connected {
        var topicPath := NarrowTopic(state.selectedCrypto.value.symbol);
        var _ := ws.Subscribe(topicPath, FocusReplace);
        narrowCleanup := Some(topicPath);
      }
    }

    /** Unmount: the mount effect's cleanup disconnects, then the selection effect's cleanup unsubscribes. */
    method Unmount()
      requires Valid()
      modifies this, ws
      ensures Valid() && state == old(state) && narrowCleanup == None
      ensures old(ws.stompClient).Some? ==> !ws.socketConnected && ws.subscribedTopics == map[]
      ensures ws.attempt == None && ws.used == old(ws.used)
      ensures ws.Model() == var d := AfterDisconnect(old(ws.Model()));
        if old(narrowCleanup).Some? then AfterUnsubscribe(d, old(narrowCleanup).value) else d
    {
      ws.Disconnect();
      if narrowCleanup.Some? {
        ws.Unsubscribe(narrowCleanup.value);
      }
      narrowCleanup := None;
    }
  }
}
