/**
 * The client side of the STOMP-over-SockJS channel (frontend/src/services/WebSocketService.js):
 * a connection flag, the current STOMP client and a registry mapping each topic to the
 * one subscription handle that holds its delivery callback.
 *
 * The transport itself is abstract. Opening a socket yields a `StompClient` value chosen
 * by the environment; the outcome of a connect attempt arrives later as a success or an
 * error event; `setTimeout(() => this.connect(onConnect), 5000)` is a count of reconnect
 * timers that are still to fire.
 *
 * The pure functions `After*` give the state after each operation; the class
 * `WebSocketService` keeps the same state in fields and each of its methods is proved
 * to move it exactly as the corresponding function says.
 */
module WebSocket {
  import opened Wrappers

  type Topic = string

  /** The object `Stomp.over(new SockJS('/ws'))`; two clients are told apart by `id`. */
  datatype StompClient = StompClient(id: nat)

  /**
   * The delivery callbacks the frames of a topic are handed to. The dashboard registers exactly
   * two: the dataset upsert for the broadcast topic and the focus replacement for a narrow topic.
   */
  datatype Callback = DatasetUpsert | FocusReplace

  /** The handle `stompClient.subscribe(topic, ...)` returns, with the callback its closure holds. */
  datatype Subscription = Subscription(client: StompClient, topic: Topic, callback: Callback)

  /**
   * The three fields of the service, plus the reconnect timers that `setTimeout` has
   * scheduled and that have not fired yet.
   */
  datatype ServiceState = ServiceState(
    stompClient: Option<StompClient>,
    socketConnected: bool,
    subscribedTopics: map<Topic, Subscription>,
    pendingReconnects: nat)

  /** The state the constructor builds. */
  const Initial: ServiceState := ServiceState(None, false, map[], 0)

  /**
   * What every reachable state satisfies: a connected service has a client, and each
   * registry entry is the handle for that very topic (so no topic has two handles).
   */
  predicate Consistent(s: ServiceState)
  {
    && (s.socketConnected ==> s.stompClient.Some?)
    && (forall t :: t in s.subscribedTopics ==> s.subscribedTopics[t].topic == t)
  }

  /** `connect`: a fresh client replaces the current one; the flag and the registry stay as they were. */
  function AfterConnect(s: ServiceState, client: StompClient): (r: ServiceState)
    ensures r.stompClient == Some(client)
    ensures r.socketConnected == s.socketConnected
    ensures r.subscribedTopics == s.subscribedTopics
    ensures r.pendingReconnects == s.pendingReconnects
    ensures Consistent(s) ==> Consistent(r)
  {
    s.(stompClient := Some(client))
  }

  /** The success callback of `stompClient.connect`: the flag becomes true and nothing else changes. */
  function AfterConnectSuccess(s: ServiceState): (r: ServiceState)
    requires s.stompClient.Some?
    ensures r.socketConnected
    ensures r.stompClient == s.stompClient && r.subscribedTopics == s.subscribedTopics
    ensures r.pendingReconnects == s.pendingReconnects
    ensures Consistent(s) ==> Consistent(r)
  {
    s.(socketConnected := true)
  }

  /**
   * The error callback: the flag becomes false and one more reconnect timer is pending.
   * The registry is left as it was, handles of the failed client included.
   */
  function AfterConnectError(s: ServiceState): (r: ServiceState)
    ensures !r.socketConnected
    ensures r.pendingReconnects == s.pendingReconnects + 1
    ensures r.stompClient == s.stompClient && r.subscribedTopics == s.subscribedTopics
    ensures Consistent(s) ==> Consistent(r)
  {
    s.(socketConnected := false, pendingReconnects := s.pendingReconnects + 1)
  }

  /** A reconnect timer fires: it is no longer pending, and `connect` runs again with a new client. */
  function AfterReconnectTimer(s: ServiceState, client: StompClient): (r: ServiceState)
    requires s.pendingReconnects > 0
    ensures r.pendingReconnects == s.pendingReconnects - 1
    ensures r.stompClient == Some(client)
    ensures r.socketConnected == s.socketConnected && r.subscribedTopics == s.subscribedTopics
    ensures Consistent(s) ==> Consistent(r)
  {
    AfterConnect(s.(pendingReconnects := s.pendingReconnects - 1), client)
  }

  /**
   * `subscribe(topic, callback)`. Disconnected: nothing happens. Connected and the topic
   * already registered: nothing happens either, the existing handle and its callback stay.
   * Connected and new: exactly one entry is added, a handle on the current client.
   */
  function AfterSubscribe(s: ServiceState, topic: Topic, callback: Callback): (r: ServiceState)
    requires Consistent(s)
    ensures Consistent(r)
    ensures !s.socketConnected ==> r == s
    ensures topic in s.subscribedTopics ==> r == s
    ensures s.socketConnected ==> topic in r.subscribedTopics
    ensures s.socketConnected && topic !in s.subscribedTopics ==>
      && r.subscribedTopics.Keys == s.subscribedTopics.Keys + {topic}
      && r.subscribedTopics[topic] == Subscription(s.stompClient.value, topic, callback)
    ensures forall t :: t in s.subscribedTopics ==> t in r.subscribedTopics && r.subscribedTopics[t] == s.subscribedTopics[t]
    ensures r.stompClient == s.stompClient && r.socketConnected == s.socketConnected
    ensures r.pendingReconnects == s.pendingReconnects
  {
    if !s.socketConnected then s
    else if topic in s.subscribedTopics then s
    else
      var handle := Subscription(s.stompClient.value, topic, callback);
      s.(subscribedTopics := s.subscribedTopics[topic := handle])
  }

  /** `unsubscribe(topic)`: the entry for `topic` goes, every other entry stays; absent, nothing changes. */
  function AfterUnsubscribe(s: ServiceState, topic: Topic): (r: ServiceState)
    ensures topic !in r.subscribedTopics
    ensures r.subscribedTopics.Keys == s.subscribedTopics.Keys - {topic}
    ensures forall t :: t in r.subscribedTopics ==> r.subscribedTopics[t] == s.subscribedTopics[t]
    ensures topic !in s.subscribedTopics ==> r == s
    ensures r.stompClient == s.stompClient && r.socketConnected == s.socketConnected
    ensures r.pendingReconnects == s.pendingReconnects
    ensures Consistent(s) ==> Consistent(r)
  {
    if topic in s.subscribedTopics then s.(subscribedTopics := s.subscribedTopics - {topic}) else s
  }

  /**
   * `disconnect()`: with a client, the flag drops and the registry empties; with none, a no-op.
   * Pending reconnect timers are not cancelled.
   */
  function AfterDisconnect(s: ServiceState): (r: ServiceState)
    ensures s.stompClient.Some? ==> !r.socketConnected && r.subscribedTopics == map[]
    ensures s.stompClient.None? ==> r == s
    ensures r.stompClient == s.stompClient && r.pendingReconnects == s.pendingReconnects
    ensures Consistent(s) ==> Consistent(r)
  {
    if s.stompClient.Some? then s.(socketConnected := false, subscribedTopics := map[]) else s
  }

  /**
   * The callback a frame that `client` delivers on `topic` reaches, if any. The handler that
   * `subscribe` gave `stompClient.subscribe` exists only for the topics that very client
   * subscribed to, and only a client whose connect succeeded and has not since failed delivers
   * frames: that is the current client while the flag is up.
   */
  function HandlerFor(s: ServiceState, client: StompClient, topic: Topic): (r: Option<Callback>)
    ensures r.Some? <==>
      && s.socketConnected && s.stompClient == Some(client)
      && topic in s.subscribedTopics && s.subscribedTopics[topic].client == client
    ensures r.Some? ==> r.value == s.subscribedTopics[topic].callback
  {
    if s.socketConnected && s.stompClient == Some(client)
       && topic in s.subscribedTopics && s.subscribedTopics[topic].client == client
    then Some(s.subscribedTopics[topic].callback)
    else None
  }

  /** A topic newly subscribed while connected hands the current client's frames to its callback. */
  lemma SubscribeRoutes(s: ServiceState, topic: Topic, callback: Callback)
    requires Consistent(s) && s.socketConnected && topic !in s.subscribedTopics
    ensures HandlerFor(AfterSubscribe(s, topic, callback), s.stompClient.value, topic) == Some(callback)
  {
  }

  /** After a failed connect no frame of any client reaches a callback. */
  lemma ErrorRoutesNothing(s: ServiceState, client: StompClient, topic: Topic)
    ensures HandlerFor(AfterConnectError(s), client, topic) == None
  {
  }

  /** After `disconnect` no frame of any client reaches a callback. */
  lemma DisconnectRoutesNothing(s: ServiceState, client: StompClient, topic: Topic)
    ensures HandlerFor(AfterDisconnect(s), client, topic) == None
  {
  }

  /** `topic` is registered, but its handle belongs to a client other than the current one. */
  predicate StaleHandle(s: ServiceState, topic: Topic)
  {
    topic in s.subscribedTopics && s.stompClient.Some? && s.subscribedTopics[topic].client != s.stompClient.value
  }

  /** A topic whose handle is stale hands no client's frames to any callback. */
  lemma StaleRoutesNothing(s: ServiceState, topic: Topic, client: StompClient)
    requires StaleHandle(s, topic)
    ensures HandlerFor(s, client, topic) == None
  {
  }

  /** Subscribing twice to one topic leaves exactly the registration of the first call. */
  lemma SubscribeIdempotent(s: ServiceState, topic: Topic, first: Callback, second: Callback)
    requires Consistent(s)
    ensures AfterSubscribe(AfterSubscribe(s, topic, first), topic, second) == AfterSubscribe(s, topic, first)
  {
  }

  /** Unsubscribing twice is the same as unsubscribing once, and leaves no registration. */
  lemma UnsubscribeIdempotent(s: ServiceState, topic: Topic)
    ensures AfterUnsubscribe(AfterUnsubscribe(s, topic), topic) == AfterUnsubscribe(s, topic)
    ensures topic !in AfterUnsubscribe(AfterUnsubscribe(s, topic), topic).subscribedTopics
  {
  }

  /** Calling `disconnect` again changes nothing. */
  lemma DisconnectIdempotent(s: ServiceState)
    ensures AfterDisconnect(AfterDisconnect(s)) == AfterDisconnect(s)
  {
  }

  /** Subscribing to a new topic and then unsubscribing it restores the registry. */
  lemma SubscribeThenUnsubscribe(s: ServiceState, topic: Topic, callback: Callback)
    requires Consistent(s) && topic !in s.subscribedTopics
    ensures AfterUnsubscribe(AfterSubscribe(s, topic, callback), topic) == s
  {
  }

  /**
   * The running service. Its fields are those of the source class, plus the count of
   * reconnect timers scheduled and not yet fired.
   *
   * Two ghost fields record what the transport guarantees about the events. `attempt` is the
   * client whose connect outcome is still to arrive: a client reports success or failure of
   * its own connect once, and a lost connection once more as an error. `used` holds every
   * client created so far: each `connect` builds a new `Stomp.over(new SockJS('/ws'))`.
   */
  class WebSocketService {
    var stompClient: Option<StompClient>
    var socketConnected: bool
    var subscribedTopics: map<Topic, Subscription>
    var pendingReconnects: nat
    ghost var attempt: Option<StompClient>
    ghost var used: set<StompClient>

    /** The fields as one value, the state the `After*` functions speak about. */
    function Model(): ServiceState
      reads this
    {
      ServiceState(stompClient, socketConnected, subscribedTopics, pendingReconnects)
    }

    ghost predicate Valid()
      reads this
    {
      && Consistent(Model())
      && (stompClient.Some? ==> stompClient.value in used)
      && (attempt.Some? ==> attempt == stompClient)
      && (forall t :: t in subscribedTopics ==> subscribedTopics[t].client in used)
    }

    /** A new service: no client, not connected, nothing subscribed. */
    constructor ()
      ensures Valid()
      ensures Model() == Initial
      ensures attempt == None && used == {}
    {
      stompClient := None;
      socketConnected := false;
      subscribedTopics := map[];
      pendingReconnects := 0;
      attempt := None;
      used := {};
    }

    /** `connect(onConnect)`: installs the new client; the outcome arrives as a later event. */
    method Connect(client: StompClient)
      requires Valid() && client !in used && !socketConnected
      modifies this
      ensures Valid()
      ensures Model() == AfterConnect(old(Model()), client)
      ensures attempt == Some(client) && used == old(used) + {client}
      ensures forall t :: t in subscribedTopics ==> StaleHandle(Model(), t)
    {
      stompClient := Some(client);
      attempt := Some(client);
      used := used + {client};
    }

    /** The connect success event; the caller's `onConnect` runs right after it. */
    method OnConnectSuccess()
      requires Valid() && attempt.Some?
      modifies this
      ensures Valid()
      ensures Model() == AfterConnectSuccess(old(Model()))
      ensures attempt == None && used == old(used)
    {
      socketConnected := true;
      attempt := None;
    }

    /**
     * The connect error event, for a failed attempt or a lost connection: the flag drops and
     * a reconnect is scheduled.
     */
    method OnConnectError()
      requires Valid() && (attempt.Some? || socketConnected)
      modifies this
      ensures Valid()
      ensures Model() == AfterConnectError(old(Model()))
      ensures attempt == None && used == old(used)
    {
      socketConnected := false;
      pendingReconnects := pendingReconnects + 1;
      attempt := None;
    }

    /** A scheduled reconnect fires and calls `connect` again. */
    method OnReconnectTimer(client: StompClient)
      requires Valid() && pendingReconnects > 0 && client !in used && !socketConnected
      modifies this
      ensures Valid()
      ensures Model() == AfterReconnectTimer(old(Model()), client)
      ensures attempt == Some(client) && used == old(used) + {client}
      ensures forall t :: t in subscribedTopics ==> StaleHandle(Model(), t)
    {
      pendingReconnects := pendingReconnects - 1;
      Connect(client);
    }

    /** `subscribe(topic, callback)`, returning whether the request was accepted. */
    method Subscribe(topic: Topic, callback: Callback) returns (accepted: bool)
      requires Valid()
      modifies this
      ensures Valid()
      ensures accepted == old(socketConnected)
      ensures Model() == AfterSubscribe(old(Model()), topic, callback)
      ensures attempt == old(attempt) && used == old(used)
    {
      if !socketConnected {
        return false;
      }
      if topic !in subscribedTopics {
        var subscription := Subscription(stompClient.value, topic, callback);
        subscribedTopics := subscribedTopics[topic := subscription];
      }
      return true;
    }

    /** `unsubscribe(topic)`: releases and forgets the handle, if there is one. */
    method Unsubscribe(topic: Topic)
      requires Valid()
      modifies this
      ensures Valid()
      ensures Model() == AfterUnsubscribe(old(Model()), topic)
      ensures attempt == old(attempt) && used == old(used)
    {
      if topic in subscribedTopics {
        subscribedTopics := subscribedTopics - {topic};
      }
    }

    /** `disconnect()`; a connect attempt still pending is abandoned with its client. */
    method Disconnect()
      requires Valid()
      modifies this
      ensures Valid()
      ensures Model() == AfterDisconnect(old(Model()))
      ensures attempt == None && used == old(used)
    {
      if stompClient.Some? {
        socketConnected := false;
        subscribedTopics := map[];
      }
      attempt := None;
    }

    /** `isConnected()`: reads the flag and changes nothing. */
    method IsConnected() returns (connected: bool)
      ensures connected == socketConnected
    {
      connected := socketConnected;
    }
  }
}
