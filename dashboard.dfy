/**
 * The state of the dashboard component (frontend/src/components/Dashboard.js) and the
 * pure updaters the component hands to `setState`: the shallow merge, the upsert of a
 * streamed snapshot, the two outcomes of the bootstrap fetch and the user's selection.
 * Also the topic names the component subscribes to and the routing of a delivered
 * snapshot to its callback.
 */
module Dashboard {
  import opened Wrappers
  import opened CryptoData
  import WebSocket

  /** The component's state record. */
  datatype State = State(
    cryptoData: seq<Crypto>,
    selectedCrypto: Option<Crypto>,
    loading: bool,
    error: Option<string>,
    connected: bool)

  /** The state the component starts with. */
  const InitialState: State := State([], None, true, None, false)

  /** The message shown when the bootstrap fetch fails. */
  const LoadErrorMessage: string := "Failed to load cryptocurrency data. Please try refreshing the page."

  // ---------------------------------------------------------------------------
  // The shallow merge `{ ...prevState, ...newState }`
  // ---------------------------------------------------------------------------

  /** The object literal passed to `updateState`: the keys present are `Some`. */
  datatype Patch = Patch(
    cryptoData: Option<seq<Crypto>>,
    selectedCrypto: Option<Option<Crypto>>,
    loading: Option<bool>,
    error: Option<Option<string>>,
    connected: Option<bool>)

  /** `{}`: a patch naming no field. */
  const EmptyPatch: Patch := Patch(None, None, None, None, None)

  function Pick<T>(given: Option<T>, prev: T): (r: T)
  {
    match given
    case Some(v) => v
    case None => prev
  }

  /** `updateState(newState)`: each field the patch names takes the patch's value; every other field keeps its value. */
  function UpdateState(prev: State, patch: Patch): (r: State)
    ensures patch.cryptoData.Some? ==> r.cryptoData == patch.cryptoData.value
    ensures patch.cryptoData.None? ==> r.cryptoData == prev.cryptoData
    ensures patch.selectedCrypto.Some? ==> r.selectedCrypto == patch.selectedCrypto.value
    ensures patch.selectedCrypto.None? ==> r.selectedCrypto == prev.selectedCrypto
    ensures patch.loading.Some? ==> r.loading == patch.loading.value
    ensures patch.loading.None? ==> r.loading == prev.loading
    ensures patch.error.Some? ==> r.error == patch.error.value
    ensures patch.error.None? ==> r.error == prev.error
    ensures patch.connected.Some? ==> r.connected == patch.connected.value
    ensures patch.connected.None? ==> r.connected == prev.connected
  {
    State(
      Pick(patch.cryptoData, prev.cryptoData),
      Pick(patch.selectedCrypto, prev.selectedCrypto),
      Pick(patch.loading, prev.loading),
      Pick(patch.error, prev.error),
      Pick(patch.connected, prev.connected))
  }

  /** The spread `{ ...p, ...q }`: the fields of `q` win over those of `p`. */
  function Then(p: Patch, q: Patch): (r: Patch)
  {
    Patch(
      if q.cryptoData.Some? then q.cryptoData else p.cryptoData,
      if q.selectedCrypto.Some? then q.selectedCrypto else p.selectedCrypto,
      if q.loading.Some? then q.loading else p.loading,
      if q.error.Some? then q.error else p.error,
      if q.connected.Some? then q.connected else p.connected)
  }

  /** Two merges in a row are one merge with the combined patch; the empty patch is the identity. */
  lemma UpdateStateComposes(s: State, p: Patch, q: Patch)
    ensures UpdateState(UpdateState(s, p), q) == UpdateState(s, Then(p, q))
    ensures UpdateState(s, EmptyPatch) == s
  {
  }

  // ---------------------------------------------------------------------------
  // Lookup by id
  // ---------------------------------------------------------------------------

  /** `data.findIndex(crypto => crypto.id === id)`: the first position holding `id`, or -1. */
  function FindIndex(data: seq<Crypto>, id: string): (i: int)
    ensures -1 <= i < |data|
    ensures i == -1 <==> forall k :: 0 <= k < |data| ==> data[k].id != id
    ensures 0 <= i ==> data[i].id == id && forall k :: 0 <= k < i ==> data[k].id != id
  {
    if |data| == 0 then -1
    else if data[0].id == id then 0
    else
      var j := FindIndex(data[1..], id);
      if j == -1 then -1 else j + 1
  }

  /** The snapshot that id-based lookup in `data` finds for `id`. */
  function Lookup(data: seq<Crypto>, id: string): (r: Option<Crypto>)
    ensures r.Some? ==> r.value in data && r.value.id == id
    ensures r.None? <==> forall k :: 0 <= k < |data| ==> data[k].id != id
  {
    var i := FindIndex(data, id);
    if i == -1 then None else Some(data[i])
  }

  /** The ids of `data`, in order. */
  function Ids(data: seq<Crypto>): (r: seq<string>)
    ensures |r| == |data|
    ensures forall k :: 0 <= k < |data| ==> r[k] == data[k].id
  {
    seq(|data|, k requires 0 <= k < |data| => data[k].id)
  }

  /** No id occurs twice. */
  predicate UniqueIds(data: seq<Crypto>)
  {
    forall i, j :: 0 <= i < j < |data| ==> data[i].id != data[j].id
  }

  // ---------------------------------------------------------------------------
  // The upsert `updateCryptoData(newData)`
  // ---------------------------------------------------------------------------

  /**
   * The updater of `updateCryptoData(newData)`. A known id: the snapshot at its first position
   * is replaced and every other position stays; an unknown id: the snapshot is appended.
   * The selection follows the snapshot exactly when it is non-null with the same id.
   */
  function UpdateCryptoData(prev: State, newData: Crypto): (r: State)
    ensures var i := FindIndex(prev.cryptoData, newData.id);
      && (i != -1 ==>
            && |r.cryptoData| == |prev.cryptoData|
            && r.cryptoData[i] == newData
            && forall k :: 0 <= k < |prev.cryptoData| && k != i ==> r.cryptoData[k] == prev.cryptoData[k])
      && (i == -1 ==> r.cryptoData == prev.cryptoData + [newData])
    ensures prev.selectedCrypto.Some? && prev.selectedCrypto.value.id == newData.id ==> r.selectedCrypto == Some(newData)
    ensures !(prev.selectedCrypto.Some? && prev.selectedCrypto.value.id == newData.id) ==> r.selectedCrypto == prev.selectedCrypto
    ensures r.loading == prev.loading && r.error == prev.error && r.connected == prev.connected
  {
    var index := FindIndex(prev.cryptoData, newData.id);
    var updatedCryptoData :=
      if index != -1 then prev.cryptoData[index := newData] else prev.cryptoData + [newData];
    var updatedSelectedCrypto :=
      if prev.selectedCrypto.Some? && prev.selectedCrypto.value.id == newData.id
      then Some(newData) else prev.selectedCrypto;
    prev.(cryptoData := updatedCryptoData, selectedCrypto := updatedSelectedCrypto)
  }

  /** `ids` with `id` added at the end, unless it is already there. */
  function AddIfNew(ids: seq<string>, id: string): (r: seq<string>)
  {
    if id in ids then ids else ids + [id]
  }

  /** An upsert keeps the order of the ids and adds a new id at the end: first-seen order. */
  lemma UpdateIds(s: State, newData: Crypto)
    ensures Ids(UpdateCryptoData(s, newData).cryptoData) == AddIfNew(Ids(s.cryptoData), newData.id)
  {
  }

  /** An upsert keeps the ids unique. */
  lemma UpdateKeepsUniqueIds(s: State, newData: Crypto)
    requires UniqueIds(s.cryptoData)
    ensures UniqueIds(UpdateCryptoData(s, newData).cryptoData)
  {
  }

  /** The position `FindIndex` gives is determined by its contract: the first one holding `id`. */
  lemma FindIndexIsFirst(data: seq<Crypto>, id: string, i: int)
    requires -1 <= i < |data|
    requires i == -1 ==> forall k :: 0 <= k < |data| ==> data[k].id != id
    requires 0 <= i ==> data[i].id == id && forall k :: 0 <= k < i ==> data[k].id != id
    ensures FindIndex(data, id) == i
  {
  }

  /** After an upsert, looking up the snapshot's id finds the snapshot; other ids find what they found before. */
  lemma UpdateLookup(s: State, newData: Crypto, id: string)
    ensures Lookup(UpdateCryptoData(s, newData).cryptoData, id)
         == if id == newData.id then Some(newData) else Lookup(s.cryptoData, id)
  {
    var before := s.cryptoData;
    var after := UpdateCryptoData(s, newData).cryptoData;
    var i := FindIndex(before, newData.id);
    var j := FindIndex(before, id);
    assert forall k :: 0 <= k < |before| && k != i ==> after[k] == before[k];
    if id == newData.id {
      if i == -1 {
        FindIndexIsFirst(after, id, |before|);
      } else {
        FindIndexIsFirst(after, id, i);
      }
    } else if j != -1 {
      assert j != i;
      FindIndexIsFirst(after, id, j);
    } else {
      FindIndexIsFirst(after, id, -1);
    }
  }

  // ---------------------------------------------------------------------------
  // The selection resolves to the latest snapshot
  // ---------------------------------------------------------------------------

  /** The selected snapshot is the one that lookup by its id finds in the dataset. */
  predicate FocusResolves(s: State)
  {
    s.selectedCrypto.Some? ==> Lookup(s.cryptoData, s.selectedCrypto.value.id) == s.selectedCrypto
  }

  /** An upsert keeps the selection resolving to the dataset's snapshot. */
  lemma UpdateKeepsFocusResolved(s: State, newData: Crypto)
    requires FocusResolves(s)
    ensures FocusResolves(UpdateCryptoData(s, newData))
  {
    if s.selectedCrypto.Some? {
      UpdateLookup(s, newData, s.selectedCrypto.value.id);
    }
  }

  // ---------------------------------------------------------------------------
  // A stream of upserts
  // ---------------------------------------------------------------------------

  /** The state after the upserts `updates`, oldest first. */
  function ApplyUpdates(s: State, updates: seq<Crypto>): (r: State)
  {
    if updates == [] then s
    else UpdateCryptoData(ApplyUpdates(s, updates[..|updates| - 1]), updates[|updates| - 1])
  }

  /** `ids` extended by `more`, each id added the first time it is seen. */
  function FirstSeen(ids: seq<string>, more: seq<string>): (r: seq<string>)
  {
    if more == [] then ids
    else AddIfNew(FirstSeen(ids, more[..|more| - 1]), more[|more| - 1])
  }

  /** The latest snapshot for `id` among `updates`, if any. */
  function LatestFor(updates: seq<Crypto>, id: string): (r: Option<Crypto>)
    ensures r.Some? ==> r.value in updates && r.value.id == id
    ensures r.None? <==> forall k :: 0 <= k < |updates| ==> updates[k].id != id
  {
    if updates == [] then None
    else if updates[|updates| - 1].id == id then Some(updates[|updates| - 1])
    else LatestFor(updates[..|updates| - 1], id)
  }

  /** Any stream of upserts keeps the ids unique. */
  lemma {:induction false} UpdatesKeepUniqueIds(s: State, updates: seq<Crypto>)
    requires UniqueIds(s.cryptoData)
    ensures UniqueIds(ApplyUpdates(s, updates).cryptoData)
  {
    if updates != [] {
      UpdatesKeepUniqueIds(s, updates[..|updates| - 1]);
      UpdateKeepsUniqueIds(ApplyUpdates(s, updates[..|updates| - 1]), updates[|updates| - 1]);
    }
  }

  /** Any stream of upserts orders the ids by first appearance: old ids in their order, new ones as they arrive. */
  lemma {:induction false} UpdatesFirstSeenOrder(s: State, updates: seq<Crypto>)
    ensures Ids(ApplyUpdates(s, updates).cryptoData) == FirstSeen(Ids(s.cryptoData), Ids(updates))
  {
    if updates != [] {
      var init := updates[..|updates| - 1];
      UpdatesFirstSeenOrder(s, init);
      UpdateIds(ApplyUpdates(s, init), updates[|updates| - 1]);
      assert Ids(updates)[..|updates| - 1] == Ids(init);
    }
  }

  /** After a stream of upserts, each id resolves to its latest snapshot, or to what it resolved to before. */
  lemma {:induction false} UpdatesLookupLatest(s: State, updates: seq<Crypto>, id: string)
    ensures Lookup(ApplyUpdates(s, updates).cryptoData, id)
         == if LatestFor(updates, id).Some? then LatestFor(updates, id) else Lookup(s.cryptoData, id)
  {
    if updates != [] {
      UpdatesLookupLatest(s, updates[..|updates| - 1], id);
      UpdateLookup(ApplyUpdates(s, updates[..|updates| - 1]), updates[|updates| - 1], id);
    }
  }

  /** After a stream of upserts, the selection is the latest snapshot for its id, if one arrived. */
  lemma {:induction false} UpdatesSelectLatest(s: State, updates: seq<Crypto>)
    ensures var r := ApplyUpdates(s, updates).selectedCrypto;
      && (s.selectedCrypto.None? ==> r.None?)
      && (s.selectedCrypto.Some? ==>
            r == if LatestFor(updates, s.selectedCrypto.value.id).Some?
                 then LatestFor(updates, s.selectedCrypto.value.id) else s.selectedCrypto)
  {
    if updates != [] {
      UpdatesSelectLatest(s, updates[..|updates| - 1]);
    }
  }

  // ---------------------------------------------------------------------------
  // Bootstrap and selection
  // ---------------------------------------------------------------------------

  /** The outcome of the bulk fetch `GET /api/crypto`. */
  datatype FetchResult = Fetched(list: seq<Crypto>) | FetchFailed

  /**
   * The updater `fetchInitialData` applies. Success: the dataset is the fetched list, the
   * first element is selected (none for an empty list), loading ends and an earlier error
   * message stays. Failure: the error message is set, loading ends, dataset and selection stay.
   */
  function FetchInitialData(prev: State, result: FetchResult): (r: State)
    ensures !r.loading && r.connected == prev.connected
    ensures result.Fetched? ==>
      && r.cryptoData == result.list
      && (|result.list| > 0 ==> r.selectedCrypto == Some(result.list[0]))
      && (|result.list| == 0 ==> r.selectedCrypto == None)
      && r.error == prev.error
    ensures result.FetchFailed? ==>
      && r.error == Some(LoadErrorMessage)
      && r.cryptoData == prev.cryptoData
      && r.selectedCrypto == prev.selectedCrypto
  {
    match result
    case Fetched(initialData) =>
      UpdateState(prev, EmptyPatch.(
        cryptoData := Some(initialData),
        selectedCrypto := Some(if |initialData| > 0 then Some(initialData[0]) else None),
        loading := Some(false)))
    case FetchFailed =>
      UpdateState(prev, EmptyPatch.(
        error := Some(Some(LoadErrorMessage)),
        loading := Some(false)))
  }

  /** A successful bootstrap leaves the selection resolving to the dataset; a failed one keeps it as it was. */
  lemma FetchKeepsFocusResolved(s: State, result: FetchResult)
    requires result.FetchFailed? ==> FocusResolves(s)
    ensures FocusResolves(FetchInitialData(s, result))
  {
  }

  /** `handleSelectCrypto(crypto)`: the selection becomes `crypto`, no other field changes. */
  function HandleSelectCrypto(prev: State, crypto: Crypto): (r: State)
    ensures r.selectedCrypto == Some(crypto)
    ensures r.cryptoData == prev.cryptoData && r.loading == prev.loading
    ensures r.error == prev.error && r.connected == prev.connected
  {
    UpdateState(prev, EmptyPatch.(selectedCrypto := Some(Some(crypto))))
  }

  /** Selecting the dataset's snapshot for an id keeps the selection resolving. */
  lemma SelectKeepsFocusResolved(s: State, crypto: Crypto)
    requires Lookup(s.cryptoData, crypto.id) == Some(crypto)
    ensures FocusResolves(HandleSelectCrypto(s, crypto))
  {
  }

  /** With unique ids, any row of the dataset is the snapshot lookup finds for its id. */
  lemma RowIsLatest(data: seq<Crypto>, k: nat)
    requires UniqueIds(data) && k < |data|
    ensures Lookup(data, data[k].id) == Some(data[k])
  {
  }

  // ---------------------------------------------------------------------------
  // Topics and delivery
  // ---------------------------------------------------------------------------

  /** The topic every instrument's snapshots are broadcast on. */
  const BroadcastTopic: WebSocket.Topic := "/topic/crypto"

  /** The prefix of the per-instrument topics. */
  const NarrowPrefix: WebSocket.Topic := "/topic/crypto/"

  predicate IsNarrow(t: WebSocket.Topic)
  {
    |t| >= |NarrowPrefix| && t[..|NarrowPrefix|] == NarrowPrefix
  }

  /** The narrow topic of an instrument, `/topic/crypto/${symbol}`. */
  function NarrowTopic(symbol: string): (t: WebSocket.Topic)
    ensures IsNarrow(t)
    ensures t[|NarrowPrefix|..] == symbol
  {
    NarrowPrefix + symbol
  }

  /** The broadcast topic is not a narrow topic, and distinct symbols give distinct narrow topics. */
  lemma TopicsDistinct(a: string, b: string)
    ensures !IsNarrow(BroadcastTopic)
    ensures NarrowTopic(a) == NarrowTopic(b) <==> a == b
  {
  }

  /** The narrow topic the selection effect keeps subscribed in `s`: one exactly when a selection exists and `connected` is set. */
  function NarrowTopicFor(s: State): (t: Option<WebSocket.Topic>)
    ensures t.Some? <==> s.selectedCrypto.Some? && s.connected
    ensures t.Some? ==> t.value == NarrowTopic(s.selectedCrypto.value.symbol)
  {
    if s.selectedCrypto.Some? && s.connected then Some(NarrowTopic(s.selectedCrypto.value.symbol)) else None
  }

  /**
   * A decoded snapshot handed to a callback. The broadcast callback upserts it; the narrow
   * callback only replaces the selection and leaves the dataset alone.
   */
  function Deliver(s: State, callback: WebSocket.Callback, data: Crypto): (r: State)
    ensures callback == WebSocket.DatasetUpsert ==> r == UpdateCryptoData(s, data)
    ensures callback == WebSocket.FocusReplace ==>
      r.selectedCrypto == Some(data) && r.cryptoData == s.cryptoData
      && r.loading == s.loading && r.error == s.error && r.connected == s.connected
  {
    match callback
    case DatasetUpsert => UpdateCryptoData(s, data)
    case FocusReplace => UpdateState(s, EmptyPatch.(selectedCrypto := Some(Some(data))))
  }

  /**
   * The narrow callback alone can leave the selection ahead of the dataset: the selected
   * instrument's new snapshot is shown while its row still holds the old one.
   */
  lemma NarrowDeliveryCanOutrunDataset(row: Crypto, latest: Crypto)
    requires row.id == latest.id && row != latest
    ensures var s := InitialState.(cryptoData := [row], selectedCrypto := Some(row));
      FocusResolves(s) && !FocusResolves(Deliver(s, WebSocket.FocusReplace, latest))
  {
  }

  /** Once the same snapshot also arrives on the broadcast topic, in either order, the selection resolves again. */
  lemma BroadcastAndNarrowAgree(s: State, data: Crypto)
    ensures FocusResolves(UpdateCryptoData(Deliver(s, WebSocket.FocusReplace, data), data))
    ensures FocusResolves(Deliver(UpdateCryptoData(s, data), WebSocket.FocusReplace, data))
  {
    UpdateLookup(Deliver(s, WebSocket.FocusReplace, data), data, data.id);
    UpdateLookup(s, data, data.id);
  }
}
