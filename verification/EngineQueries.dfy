/** Queries over a consistent engine: as-of pair states and the 24-hour metrics of pools. */
module EngineQueries {
  import opened Domain
  import opened Fixed
  import opened PriceBook
  import opened PairIndex
  import opened Flows
  import opened CandleTheorems
  import opened SortedIds
  import opened Projection
  import opened ViewInvariants
  import opened EngineSpec
  import opened Engine

  /** A pair's state as of `t`, by scanning its history. */
  function StateAsOf(l: Listing, pair: Id, t: int): Option<PairState> {
    LastPublishedAt(HistoryOf(l, pair), t)
  }

  /** The known pairs that have a state as of `t`, in order. */
  function Visible(l: Listing, keys: seq<Id>, t: int): seq<Id> {
    if keys == [] then []
    else
      var rest, last := Visible(l, keys[..|keys| - 1], t), keys[|keys| - 1];
      if StateAsOf(l, last, t).Some? then rest + [last] else rest
  }

  lemma {:induction false} PublishedWhenSeen(history: seq<Stamp>, t: int)
    ensures LastPublishedAt(history, t).Some? <==> exists s :: s in history && s.state.timestamp <= t
  {
    if history != [] {
      var init, last := history[..|history| - 1], history[|history| - 1];
      assert history == init + [last];
      PublishedWhenSeen(init, t);
    }
  }

  /** The least timestamp decides whether a pair has a state. */
  lemma FirstSeenDecides(l: Listing, pair: Id, t: int)
    requires ListingOk(l) && pair in l.pairs
    ensures pair in l.firstSeen
    ensures StateAsOf(l, pair, t).Some? <==> l.firstSeen[pair] <= t
  {
    hide StrictlySorted, InChainOrder, SeenBy;
    assert l.pairs[pair] == l.pairs[pair];
    PublishedWhenSeen(l.histories[pair], t);
  }

  lemma LastSeenDecides(l: Listing, pair: Id, t: int)
    requires ListingOk(l) && pair in l.pairs && l.lastSeen.Some? && l.lastSeen.value <= t
    ensures StateAsOf(l, pair, t).Some?
  {
    hide StrictlySorted, InChainOrder;
    assert l.pairs[pair] == l.pairs[pair] && l.histories[pair] == l.histories[pair];
    var s :| s in l.histories[pair] && s.state.timestamp == l.firstSeen[pair];
    PublishedWhenSeen(l.histories[pair], t);
  }

  /** The as-of lookup by binary search finds what the scan of the chain-order history finds. */
  method PairStateAsOf(e: AnalyticsEngine, pair: Id, t: int) returns (r: Option<PairState>)
    requires e.Working()
    ensures r == StateAsOf(e.Abs().listing, pair, t)
  {
    hide ViewOk, IndexValid, Holds, BuildIndex, StateAt;
    var snapshots := if pair in e.pairSnapshotsByPair then e.pairSnapshotsByPair[pair] else [];
    ghost var history := HistoryOf(e.Abs().listing, pair);
    NothingIndexed();
    HistoryOrdered(e.policies, e.Abs(), pair);
    BuildIndexValid(history);
    LookupRefinesScan(history, t);
    r := PairIndex.PairStateAt(snapshots, t);
  }

  lemma HistoryOrdered(policies: Policies, v: View, pair: Id)
    requires ViewOk(policies, v)
    ensures InChainOrder(HistoryOf(v.listing, pair))
  {
    if pair in v.listing.histories {
      assert v.listing.pairs[pair] == v.listing.pairs[pair];
    }
  }

  // 24-hour metrics

  datatype Metrics = Metrics(pair: Id, tvl: Option<int>, volume: Option<int>, totalFees: Option<int>,
                             feeToTvl: Option<int>, protocolFees: Option<int>, lpFees: Option<int>,
                             lpFeeToTvl: Option<int>, breakdownComplete: bool, price: Option<int>, asOfBlock: int,
                             asOf: int, ready: bool, missing: set<Id>)

  predicate HistoryCovers(backfill: Backfill, from: int, through: int) {
    && backfill.status == Complete
    && backfill.coverageStart.Some? && backfill.coverageStart.value <= from
    && backfill.coverageThrough.Some? && backfill.coverageThrough.value >= through
  }

  /** The tokens without a price among the swaps of a window. */
  ghost function MissingIn(rows: seq<FlowRow>, from: int, to: int): set<Id> {
    set i, token | 0 <= i < |rows| && from <= rows[i].timestamp < to && token in rows[i].missing :: token
  }

  function Ratio(known: bool, fees: int, tvl: Option<int>): Option<int> {
    if !known || tvl.None? then None else RatioE18(fees, tvl.value)
  }

  /** The metrics of a pair state, from the sums of its swaps in the window. */
  function MetricsFrom(pair: PairState, t: int, day: Stats, flowMissing: set<Id>, covered: bool, value: Valued,
                       price: Option<int>): Metrics
  {
    var complete := covered && !day.missProtocol && !day.missLp;
    Metrics(pair.ident.pair, value.total,
            if covered then Unless(day.missVolume, day.volume) else None,
            if covered then Unless(day.missTotal, day.totalFees) else None,
            Ratio(covered && !day.missTotal, day.totalFees, value.total),
            Unless(!complete, day.protocolFees), Unless(!complete, day.lpFees),
            Ratio(complete, day.lpFees, value.total), complete, price, pair.block, t,
            value.total.Some? && price.Some? && !day.missVolume && !day.missTotal && complete,
            value.missing + (if price.None? then {pair.ident.tokenX} else {}) + flowMissing)
  }

  ghost function MetricsAt(policies: Policies, v: View, backfill: Backfill, pair: PairState, t: int): Metrics {
    var rows := RowsOf(v.flows, pair.ident.pair);
    var q := QuotesAt(policies, v.book, pair.ident, t);
    MetricsFrom(pair, t, Total(rows, t - DAY_SECONDS + 1, t + 1), MissingIn(rows, t - DAY_SECONDS + 1, t + 1),
                HistoryCovers(backfill, t - DAY_SECONDS, t),
                ValueAmounts(pair.ident, pair.reserveX, pair.reserveY, q.x, q.y), q.x)
  }

  method DayMissing(rows: seq<FlowRow>, t: int) returns (missing: set<Id>)
    requires Flows.SortedByTime(rows)
    ensures missing == MissingIn(rows, t - DAY_SECONDS + 1, t + 1)
  {
    var firstFlow := UpperBoundFlowTimestamp(rows, t - DAY_SECONDS);
    var afterLastFlow := UpperBoundFlowTimestamp(rows, t);
    WindowOrdered(rows, t - DAY_SECONDS, t, firstFlow, afterLastFlow);
    missing := {};
    var index := firstFlow;
    while index < afterLastFlow
      invariant firstFlow <= index <= afterLastFlow
      invariant missing == set i, token | firstFlow <= i < index && token in rows[i].missing :: token
    {
      missing := missing + rows[index].missing;
      index := index + 1;
    }
  }

  method PoolMetrics(e: AnalyticsEngine, pair: PairState, t: int) returns (m: Metrics)
    requires e.Working()
    ensures m == MetricsAt(e.policies, e.Abs(), e.backfill, pair, t)
  {
    hide BookValid, ListingOk, MinutesOk, OwnersOk, PoolsOk, IndexesBuilt, Total, MissingIn, MetricsFrom, ValueAmounts,
         Flows.SortedByTime, AllSplitWell, QuotesAt;
    RowsOk(e.flowsByPair, pair.ident.pair);
    var rows := if pair.ident.pair in e.flowsByPair then e.flowsByPair[pair.ident.pair] else [];
    var day := DayTotals(rows, t);
    var flowMissing := DayMissing(rows, t);
    var q := e.GetQuotes(pair.ident, t);
    m := MetricsFrom(pair, t, day, flowMissing, HistoryCovers(e.backfill, t - DAY_SECONDS, t),
                     ValueAmounts(pair.ident, pair.reserveX, pair.reserveY, q.x, q.y), q.x);
  }

  /** Fees of the window: when the metrics show all three, they lose at most two units per swap to rounding. */
  lemma MetricsRoundingLoss(policies: Policies, v: View, backfill: Backfill, pair: PairState, t: int)
    requires ViewOk(policies, v)
    ensures var m := MetricsAt(policies, v, backfill, pair, t);
            var swaps := Total(RowsOf(v.flows, pair.ident.pair), t - DAY_SECONDS + 1, t + 1).swaps;
            m.totalFees.Some? && m.protocolFees.Some? && m.lpFees.Some? ==>
              0 <= m.totalFees.value - m.protocolFees.value - m.lpFees.value <= 2 * swaps
  {
    hide BookValid, ListingOk, MinutesOk, OwnersOk, PoolsOk, Total, MissingIn, ValueAmounts, Flows.SortedByTime,
         AllSplitWell, QuotesAt, HistoryCovers, Ratio;
    var rows := RowsOf(v.flows, pair.ident.pair);
    RowsOk(v.flows, pair.ident.pair);
    WindowRoundingLoss(rows, t - DAY_SECONDS + 1, t + 1);
  }

  // The metrics page

  ghost function MetricsOf(policies: Policies, v: View, backfill: Backfill, keys: seq<Id>, t: int): seq<Metrics>
    requires forall p :: p in keys ==> StateAsOf(v.listing, p, t).Some?
  {
    seq(|keys|, i requires 0 <= i < |keys| =>
      assert keys[i] in keys; MetricsAt(policies, v, backfill, StateAsOf(v.listing, keys[i], t).value, t))
  }

  lemma {:induction false} VisibleHaveStates(l: Listing, keys: seq<Id>, t: int)
    ensures forall p :: p in Visible(l, keys, t) ==> p in keys && StateAsOf(l, p, t).Some?
    ensures |Visible(l, keys, t)| <= |keys|
  {
    if keys != [] {
      VisibleHaveStates(l, keys[..|keys| - 1], t);
    }
  }

  lemma {:induction false} AllVisible(l: Listing, keys: seq<Id>, t: int)
    requires forall p :: p in keys ==> StateAsOf(l, p, t).Some?
    ensures Visible(l, keys, t) == keys
  {
    if keys != [] {
      AllVisible(l, keys[..|keys| - 1], t);
      assert keys == keys[..|keys| - 1] + [keys[|keys| - 1]];
    }
  }

  /** The pairs to page through: all of them for a recent time, otherwise those first seen by then. */
  method PairKeysAsOf(e: AnalyticsEngine, t: int) returns (keys: seq<Id>)
    requires e.Working()
    ensures keys == Visible(e.Abs().listing, e.Abs().listing.sortedPairs, t)
  {
    hide BookValid, FlowsOk, MinutesOk, OwnersOk, PoolsOk, IndexesBuilt, HistoryOk, SeenBy, StrictlySorted, StateAsOf;
    ghost var l := e.Abs().listing;
    if e.maximumPairTimestamp.None? || t >= e.maximumPairTimestamp.value {
      forall p | p in l.sortedPairs
        ensures StateAsOf(l, p, t).Some?
      {
        NeverUnseen(l, p);
        LastSeenDecides(l, p, t);
      }
      AllVisible(l, l.sortedPairs, t);
      return e.sortedPairKeys;
    }
    keys := [];
    var i := 0;
    while i < |e.sortedPairKeys|
      invariant i <= |e.sortedPairKeys|
      invariant keys == Visible(l, e.sortedPairKeys[..i], t)
    {
      var pair := e.sortedPairKeys[i];
      assert e.sortedPairKeys[..i + 1][..i] == e.sortedPairKeys[..i];
      assert pair in l.sortedPairs;
      FirstSeenDecides(l, pair, t);
      if e.minimumPairTimestamps[pair] <= t {
        keys := keys + [pair];
      }
      i := i + 1;
    }
    assert e.sortedPairKeys[..i] == e.sortedPairKeys;
  }

  lemma NeverUnseen(l: Listing, pair: Id)
    requires ListingOk(l) && pair in l.pairs
    ensures l.lastSeen.Some?
  {
    hide StrictlySorted, InChainOrder;
    assert l.pairs[pair] == l.pairs[pair] && l.histories[pair] == l.histories[pair];
    assert l.histories[pair][0] in l.histories[pair];
  }

  function PageOf(keys: seq<Id>, offset: nat, first: nat): seq<Id> {
    var from := if offset < |keys| then offset else |keys|;
    keys[from..if from + first < |keys| then from + first else |keys|]
  }

  lemma PageVisible(l: Listing, t: int, offset: nat, first: nat)
    ensures forall p :: p in PageOf(Visible(l, l.sortedPairs, t), offset, first) ==> StateAsOf(l, p, t).Some?
  {
    hide StateAsOf;
    VisibleHaveStates(l, l.sortedPairs, t);
  }

  /** A page of metrics. Every listed pair has a state as of the requested time, so the lookup cannot fail. */
  method QueryPoolMetrics(e: AnalyticsEngine, t: int, offset: nat, first: nat) returns (nodes: seq<Metrics>)
    requires e.Working() && 0 < first
    ensures var keys := PageOf(Visible(e.Abs().listing, e.Abs().listing.sortedPairs, t), offset, first);
            && (forall p :: p in keys ==> StateAsOf(e.Abs().listing, p, t).Some?)
            && nodes == MetricsOf(e.policies, e.Abs(), e.backfill, keys, t)
  {
    hide ViewOk, IndexesBuilt, StateAsOf, MetricsAt, MetricsOf, Visible, PageOf;
    var keys := PairKeysAsOf(e, t);
    PageVisible(e.Abs().listing, t, offset, first);
    nodes := Materialize(e, PageOf(keys, offset, first), t);
  }

  method Materialize(e: AnalyticsEngine, selected: seq<Id>, t: int) returns (nodes: seq<Metrics>)
    requires e.Working()
    requires forall p :: p in selected ==> StateAsOf(e.Abs().listing, p, t).Some?
    ensures nodes == MetricsOf(e.policies, e.Abs(), e.backfill, selected, t)
  {
    hide ViewOk, IndexesBuilt, StateAsOf, MetricsAt;
    ghost var v := e.Abs();
    nodes := [];
    var i := 0;
    while i < |selected|
      invariant i <= |selected| && |nodes| == i
      invariant forall k :: 0 <= k < i ==>
                  nodes[k] == MetricsAt(e.policies, v, e.backfill, StateAsOf(v.listing, selected[k], t).value, t)
    {
      var pair := PairStateAsOf(e, selected[i], t);
      var m := PoolMetrics(e, pair.value, t);
      nodes := nodes + [m];
      i := i + 1;
    }
  }
}
