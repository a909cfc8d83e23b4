/**
 * The price history kept by the chart component (frontend/src/components/CryptoChart.js):
 * two parallel sequences, prices and time labels, each appended to and cut back to its
 * last 20 entries whenever the component receives a snapshot with a price.
 *
 * The history belongs to the chart component, which the dashboard renders without a
 * `key`; it therefore survives a change of selection and is not reset by it.
 */
module CryptoChart {
  import opened Wrappers
  import opened CryptoData

  /** How many samples each sequence keeps. */
  const HistoryLimit: nat := 20

  /** The last `n` elements of `s`, or all of `s` if it is shorter (`s.slice(s.length - n)`). */
  function KeepLast<T>(s: seq<T>, n: nat): (r: seq<T>)
    ensures |r| == if |s| > n then n else |s|
    ensures r == s[|s| - |r|..]
  {
    if |s| > n then s[|s| - n..] else s
  }

  /**
   * One updater passed to `setPriceHistory` / `setTimestamps`: `x` goes at the end and,
   * past the limit, the oldest entries are dropped.
   */
  function AppendSample<T>(prev: seq<T>, x: T): (r: seq<T>)
    ensures |r| <= HistoryLimit
    ensures |r| > 0 && r[|r| - 1] == x
    ensures |prev| < HistoryLimit ==> r == prev + [x]
    ensures |prev| + 1 > HistoryLimit ==> |r| == HistoryLimit && r == (prev + [x])[|prev| + 1 - HistoryLimit..]
  {
    var next := prev + [x];
    if |next| > HistoryLimit then next[|next| - HistoryLimit..] else next
  }

  /** The label `moment(timestamp).format('HH:mm:ss')`, kept as the instant it formats. */
  datatype TimeLabel = HourMinuteSecond(at: Instant)

  /** The chart's two pieces of state. */
  datatype History = History(priceHistory: seq<Decimal>, timestamps: seq<TimeLabel>)

  /** The initial `useState([])` of both sequences. */
  const EmptyHistory: History := History([], [])

  /** `data && data.price`: a snapshot is present and its price is neither null nor zero. */
  predicate HasPrice(data: Option<Crypto>)
  {
    data.Some? && data.value.price.Some? && !data.value.price.value.IsZero()
  }

  /**
   * The effect run when the chart's `data` changes. Without a price nothing changes; with one
   * each sequence is its own updater applied to the new price and the new time label.
   */
  function OnData(h: History, data: Option<Crypto>): (r: History)
    ensures !HasPrice(data) ==> r == h
    ensures HasPrice(data) ==>
      && r.priceHistory == AppendSample(h.priceHistory, data.value.price.value)
      && r.timestamps == AppendSample(h.timestamps, HourMinuteSecond(data.value.timestamp))
    ensures HasPrice(data) ==>
      && 0 < |r.priceHistory| <= HistoryLimit && 0 < |r.timestamps| <= HistoryLimit
      && r.priceHistory[|r.priceHistory| - 1] == data.value.price.value
      && r.timestamps[|r.timestamps| - 1] == HourMinuteSecond(data.value.timestamp)
    ensures |h.priceHistory| == |h.timestamps| ==> |r.priceHistory| == |r.timestamps|
  {
    if HasPrice(data) then
      History(
        AppendSample(h.priceHistory, data.value.price.value),
        AppendSample(h.timestamps, HourMinuteSecond(data.value.timestamp)))
    else h
  }

  /** The sequence after appending `xs` one by one, oldest first. */
  function AppendAll<T>(prev: seq<T>, xs: seq<T>): (r: seq<T>)
  {
    if xs == [] then prev else AppendSample(AppendAll(prev, xs[..|xs| - 1]), xs[|xs| - 1])
  }

  /** Appending to the last 20 keeps the same last 20 as appending to the whole. */
  lemma KeepLastAppend<T>(s: seq<T>, x: T)
    ensures AppendSample(KeepLast(s, HistoryLimit), x) == KeepLast(s + [x], HistoryLimit)
  {
  }

  /** After any run of appends the buffer holds the last (at most) 20 of everything seen, oldest first. */
  lemma {:induction false} AppendAllKeepsLast<T>(prev: seq<T>, xs: seq<T>)
    requires |prev| <= HistoryLimit
    ensures AppendAll(prev, xs) == KeepLast(prev + xs, HistoryLimit)
  {
    if xs != [] {
      var init := xs[..|xs| - 1];
      AppendAllKeepsLast(prev, init);
      KeepLastAppend(prev + init, xs[|xs| - 1]);
      assert prev + init + [xs[|xs| - 1]] == prev + xs;
    }
  }

  /** Starting empty, 25 appends leave exactly the last 20 samples, in arrival order. */
  lemma TwentyFiveAppends<T>(xs: seq<T>)
    requires |xs| == 25
    ensures AppendAll([], xs) == xs[5..]
  {
    AppendAllKeepsLast([], xs);
    assert [] + xs == xs;
  }

  /** The chart state after the effect has run for each snapshot of `stream` in turn. */
  function OnDataAll(h: History, stream: seq<Option<Crypto>>): (r: History)
  {
    if stream == [] then h else OnData(OnDataAll(h, stream[..|stream| - 1]), stream[|stream| - 1])
  }

  /** The prices of the snapshots of `stream` that carry one, in order. */
  function Prices(stream: seq<Option<Crypto>>): (r: seq<Decimal>)
    ensures |r| <= |stream|
  {
    if stream == [] then []
    else
      var last := stream[|stream| - 1];
      Prices(stream[..|stream| - 1]) + (if HasPrice(last) then [last.value.price.value] else [])
  }

  /** The time labels of the snapshots of `stream` that carry a price, in order. */
  function Labels(stream: seq<Option<Crypto>>): (r: seq<TimeLabel>)
    ensures |r| == |Prices(stream)|
  {
    if stream == [] then []
    else
      var last := stream[|stream| - 1];
      Labels(stream[..|stream| - 1]) + (if HasPrice(last) then [HourMinuteSecond(last.value.timestamp)] else [])
  }

  /** Feeding a stream of snapshots appends its prices and its labels, one by one. */
  lemma {:induction false} StreamAppends(h: History, stream: seq<Option<Crypto>>)
    ensures OnDataAll(h, stream).priceHistory == AppendAll(h.priceHistory, Prices(stream))
    ensures OnDataAll(h, stream).timestamps == AppendAll(h.timestamps, Labels(stream))
  {
    if stream != [] {
      var init := stream[..|stream| - 1];
      var last := stream[|stream| - 1];
      StreamAppends(h, init);
      if HasPrice(last) {
        var prices := Prices(init) + [last.value.price.value];
        var labels := Labels(init) + [HourMinuteSecond(last.value.timestamp)];
        assert prices[..|prices| - 1] == Prices(init);
        assert labels[..|labels| - 1] == Labels(init);
      } else {
        assert Prices(stream) == Prices(init) + [] == Prices(init);
        assert Labels(stream) == Labels(init) + [] == Labels(init);
      }
    }
  }

  /**
   * Over any stream of snapshots, from any history within the limit, the prices are the last 20
   * of the old ones followed by the priced snapshots, the labels likewise are the last 20 of the
   * old ones followed by those snapshots' labels, and both sequences keep equal lengths.
   */
  lemma HistoryOverStream(h: History, stream: seq<Option<Crypto>>)
    requires |h.priceHistory| == |h.timestamps| <= HistoryLimit
    ensures OnDataAll(h, stream).priceHistory == KeepLast(h.priceHistory + Prices(stream), HistoryLimit)
    ensures OnDataAll(h, stream).timestamps == KeepLast(h.timestamps + Labels(stream), HistoryLimit)
    ensures |OnDataAll(h, stream).priceHistory| == |OnDataAll(h, stream).timestamps| <= HistoryLimit
  {
    StreamAppends(h, stream);
    AppendAllKeepsLast(h.priceHistory, Prices(stream));
    AppendAllKeepsLast(h.timestamps, Labels(stream));
  }

  /**
   * From the empty history a freshly mounted chart starts with, the chart shows the last 20
   * prices and labels of the priced snapshots it was fed, oldest first.
   */
  lemma HistoryFromMount(stream: seq<Option<Crypto>>)
    ensures OnDataAll(EmptyHistory, stream)
         == History(KeepLast(Prices(stream), HistoryLimit), KeepLast(Labels(stream), HistoryLimit))
  {
    HistoryOverStream(EmptyHistory, stream);
    assert EmptyHistory.priceHistory + Prices(stream) == Prices(stream);
    assert EmptyHistory.timestamps + Labels(stream) == Labels(stream);
  }

  /**
   * When the selection moves to another instrument, the samples already shown stay and the
   * new instrument's sample is appended after them.
   */
  lemma SelectionKeepsHistory(h: History, before: Crypto, after: Crypto)
    requires |h.priceHistory| + 1 < HistoryLimit
    requires HasPrice(Some(before)) && HasPrice(Some(after)) && before.id != after.id
    ensures OnData(OnData(h, Some(before)), Some(after)).priceHistory
         == h.priceHistory + [before.price.value, after.price.value]
  {
  }
}
