/** What the sums of candles and metrics contain: the swaps one by one, and each figure as a plain sum over them. */
module SwapSums {
  import opened Domain
  import opened Fixed
  import opened PriceBook
  import opened PairIndex
  import opened Flows
  import opened Candles
  import opened CandleTheorems
  import opened Chain
  import opened Projection
  import opened ViewInvariants
  import opened EngineSpec
  import opened Engine
  import opened EngineQueries
  import opened ChainSwaps
  import opened Valuations

  // One swap

  /** What a swap was worth when it happened; without a price, or without the protocol's share, there is no figure. */
  datatype Figures = Figures(volume: Option<int>, fees: Option<int>, protocolFees: Option<int>, lpFees: Option<int>)

  /** The two amounts at the two prices; there is none as soon as a needed price is unknown. */
  function WorthOf(ident: PairIdentity, x: int, y: int, q: Quotes): Option<int> {
    if (x != 0 && q.x.None?) || (y != 0 && q.y.None?) then None
    else Some(Worth(x, ident.decimalsX, q.x) + Worth(y, ident.decimalsY, q.y))
  }

  function FiguresOf(e: Event, q: Quotes): Figures
    requires e.Swap?
  {
    var split := e.protocolFeeX.Some? && e.protocolFeeY.Some?;
    Figures(WorthOf(e.ident, e.amountInX, e.amountInY, q), WorthOf(e.ident, e.feeX, e.feeY, q),
            if !split then None else WorthOf(e.ident, e.protocolFeeX.value, e.protocolFeeY.value, q),
            if !split then None
            else WorthOf(e.ident, e.feeX - e.protocolFeeX.value, e.feeY - e.protocolFeeY.value, q))
  }

  /** The swaps of a pair among the events of a block, in order. */
  function SwapsOf(policies: Policies, book: Book, events: seq<Event>, t: int, pair: Id): seq<Figures> {
    if events == [] then []
    else
      var rest, e := SwapsOf(policies, book, events[..|events| - 1], t, pair), events[|events| - 1];
      if e.Swap? && e.ident.pair == pair then rest + [FiguresOf(e, QuotesAt(policies, book, e.ident, t))] else rest
  }

  /** The swaps of a pair in the retained blocks of the half-open window, in chain order. */
  function SwapsIn(policies: Policies, blocks: seq<Block>, pair: Id, from: int, to: int): seq<Figures> {
    if blocks == [] then []
    else
      var rest, b := SwapsIn(policies, blocks[..|blocks| - 1], pair, from, to), blocks[|blocks| - 1];
      if from <= b.timestamp < to
      then rest + SwapsOf(policies, BookAfter(policies, blocks), b.events, b.timestamp, pair) else rest
  }

  // Sums

  function Volume(f: Figures): Option<int> { f.volume }

  function Fees(f: Figures): Option<int> { f.fees }

  function ProtocolFees(f: Figures): Option<int> { f.protocolFees }

  function LpFees(f: Figures): Option<int> { f.lpFees }

  /** The sum of the figures that are known. */
  function Sum(swaps: seq<Figures>, figure: Figures -> Option<int>): int {
    if swaps == [] then 0
    else
      var last := figure(swaps[|swaps| - 1]);
      Sum(swaps[..|swaps| - 1], figure) + if last.Some? then last.value else 0
  }

  ghost predicate SomeUnknown(swaps: seq<Figures>, figure: Figures -> Option<int>) {
    exists f :: f in swaps && figure(f).None?
  }

  /** Every figure of the sums is the plain sum over the swaps, and its flag tells whether one of them has none. */
  ghost predicate SumsUp(s: Stats, swaps: seq<Figures>) {
    && s.swaps == |swaps|
    && s.volume == Sum(swaps, Volume) && (s.missVolume <==> SomeUnknown(swaps, Volume))
    && s.totalFees == Sum(swaps, Fees) && (s.missTotal <==> SomeUnknown(swaps, Fees))
    && s.protocolFees == Sum(swaps, ProtocolFees) && (s.missProtocol <==> SomeUnknown(swaps, ProtocolFees))
    && s.lpFees == Sum(swaps, LpFees) && (s.missLp <==> SomeUnknown(swaps, LpFees))
  }

  lemma {:induction false} SumConcat(a: seq<Figures>, b: seq<Figures>, figure: Figures -> Option<int>)
    ensures Sum(a + b, figure) == Sum(a, figure) + Sum(b, figure)
    ensures SomeUnknown(a + b, figure) <==> SomeUnknown(a, figure) || SomeUnknown(b, figure)
  {
    if b == [] {
      assert a + b == a;
    } else {
      SumConcat(a, b[..|b| - 1], figure);
      assert (a + b)[..|a + b| - 1] == a + b[..|b| - 1];
    }
  }

  lemma SumsTogether(s: Stats, a: seq<Figures>, t: Stats, b: seq<Figures>)
    requires SumsUp(s, a) && SumsUp(t, b)
    ensures SumsUp(Plus(s, t), a + b)
  {
    hide Sum, SomeUnknown;
    SumConcat(a, b, Volume);
    SumConcat(a, b, Fees);
    SumConcat(a, b, ProtocolFees);
    SumConcat(a, b, LpFees);
  }

  lemma SumOfOne(f: Figures, figure: Figures -> Option<int>)
    ensures Sum([f], figure) == (if figure(f).Some? then figure(f).value else 0)
    ensures SomeUnknown([f], figure) <==> figure(f).None?
  {
    assert [f][..0] == [] && f in [f];
  }

  lemma NothingSums()
    ensures SumsUp(ZERO, [])
  {
  }

  lemma SwapSumsUp(e: Event, q: Quotes)
    requires e.Swap?
    ensures SumsUp(SwapStats(e, q), [FiguresOf(e, q)])
  {
    hide ValueAmounts, WorthOf, Sum, SomeUnknown;
    WorthIsValue(e.ident, e.amountInX, e.amountInY, q);
    WorthIsValue(e.ident, e.feeX, e.feeY, q);
    if e.protocolFeeX.Some? && e.protocolFeeY.Some? {
      WorthIsValue(e.ident, e.protocolFeeX.value, e.protocolFeeY.value, q);
      WorthIsValue(e.ident, e.feeX - e.protocolFeeX.value, e.feeY - e.protocolFeeY.value, q);
    }
    var f := FiguresOf(e, q);
    SumOfOne(f, Volume);
    SumOfOne(f, Fees);
    SumOfOne(f, ProtocolFees);
    SumOfOne(f, LpFees);
  }

  lemma WorthIsValue(ident: PairIdentity, x: int, y: int, q: Quotes)
    ensures WorthOf(ident, x, y, q) == ValueAmounts(ident, x, y, q.x, q.y).total
  {
    hide Worth, ValueAmounts;
    ValueAmountsIs(ident, x, y, q.x, q.y);
  }

  lemma {:induction false} EventsSumUp(policies: Policies, book: Book, events: seq<Event>, t: int, pair: Id)
    ensures SumsUp(EventStats(policies, book, events, t, pair), SwapsOf(policies, book, events, t, pair))
  {
    hide SumsUp, Plus, SwapStats, FiguresOf, QuotesAt;
    if events == [] {
      NothingSums();
    } else {
      var init, e := events[..|events| - 1], events[|events| - 1];
      EventsSumUp(policies, book, init, t, pair);
      if e.Swap? && e.ident.pair == pair {
        var q := QuotesAt(policies, book, e.ident, t);
        SwapSumsUp(e, q);
        SumsTogether(EventStats(policies, book, init, t, pair), SwapsOf(policies, book, init, t, pair),
                     SwapStats(e, q), [FiguresOf(e, q)]);
      }
    }
  }

  lemma {:induction false} ChainSumsUp(policies: Policies, blocks: seq<Block>, pair: Id, from: int, to: int)
    ensures SumsUp(ChainStats(policies, blocks, pair, from, to), SwapsIn(policies, blocks, pair, from, to))
  {
    hide SumsUp, Plus, EventStats, SwapsOf, BookAfter;
    if blocks == [] {
      NothingSums();
    } else {
      var init, b := blocks[..|blocks| - 1], blocks[|blocks| - 1];
      var book := BookAfter(policies, blocks);
      ChainSumsUp(policies, init, pair, from, to);
      EventsSumUp(policies, book, b.events, b.timestamp, pair);
      SumsTogether(ChainStats(policies, init, pair, from, to), SwapsIn(policies, init, pair, from, to),
                   EventStats(policies, book, b.events, b.timestamp, pair),
                   SwapsOf(policies, book, b.events, b.timestamp, pair));
    }
  }

  /** Main result on candles: in every reachable engine the figures of a candle are the plain sums over the swap events
      of its pair in the retained blocks of its window, at any of the seven intervals. */
  lemma CandleSumsUp(e: AnalyticsEngine, k: Key)
    requires e.Valid() && Aligned(k)
    ensures SumsUp(if k in e.candles then e.candles[k].stats else ZERO,
                   SwapsIn(e.policies, e.blocks, k.pair, k.start, k.start + Seconds(k.interval)))
  {
    hide SumsUp, ChainStats, SwapsIn, ViewOk, Replay, IsRolledUp, Aligned, ContextOf, CanonicalChain, IndexesBuilt;
    CandlesSumBlocks(e, k);
    ChainSumsUp(e.policies, e.blocks, k.pair, k.start, k.start + Seconds(k.interval));
  }

  // Metrics

  /** Backfilling is complete and reaches over the whole day. */
  predicate DayCovered(b: Backfill, t: int) {
    && b.status == Complete && b.coverageStart.Some? && b.coverageThrough.Some?
    && b.coverageStart.value <= t - 86_400 && t <= b.coverageThrough.value
  }

  function IfKnown(known: bool, n: int): Option<int> {
    if known then Some(n) else None
  }

  /** Fees over value, with eighteen decimals; there is none where either is unknown or the value is zero. */
  predicate IsRatio(r: Option<int>, n: Option<int>, d: Option<int>) {
    if n.None? || d.None? || d.value == 0 then r.None?
    else r.Some? && (n.value >= 0 && d.value > 0 ==> RoundedDown(n.value * USD_SCALE, d.value, r.value))
  }

  /** The figures of the day before `t`, over exactly the swaps in it. */
  ghost predicate MetricsSumUp(m: Metrics, covered: bool, swaps: seq<Figures>) {
    var split := covered && !SomeUnknown(swaps, ProtocolFees) && !SomeUnknown(swaps, LpFees);
    && m.volume == IfKnown(covered && !SomeUnknown(swaps, Volume), Sum(swaps, Volume))
    && m.totalFees == IfKnown(covered && !SomeUnknown(swaps, Fees), Sum(swaps, Fees))
    && m.protocolFees == IfKnown(split, Sum(swaps, ProtocolFees)) && m.lpFees == IfKnown(split, Sum(swaps, LpFees))
    && (m.breakdownComplete <==> split)
  }

  lemma RatioOf(known: bool, n: int, d: Option<int>)
    ensures IsRatio(Ratio(known, n, d), IfKnown(known, n), d)
  {
    if d.Some? {
      RatioIs(n, d.value);
    }
  }

  lemma MetricsFromAre(pair: PairState, t: int, day: Stats, flowMissing: set<Id>, covered: bool, value: Valued,
                       price: Option<int>, swaps: seq<Figures>)
    requires SumsUp(day, swaps)
    ensures var m := MetricsFrom(pair, t, day, flowMissing, covered, value, price);
            && MetricsSumUp(m, covered, swaps)
            && m.pair == pair.ident.pair && m.asOfBlock == pair.block && m.asOf == t
            && m.tvl == value.total && m.price == price
            && IsRatio(m.feeToTvl, m.totalFees, m.tvl) && IsRatio(m.lpFeeToTvl, m.lpFees, m.tvl)
            && (m.ready <==> m.tvl.Some? && m.price.Some? && m.volume.Some? && m.totalFees.Some? && m.lpFees.Some?)
            && m.missing == value.missing + (if price.None? then {pair.ident.tokenX} else {}) + flowMissing
  {
    hide Sum, SomeUnknown, IsRatio, Ratio;
    RatioOf(covered && !day.missTotal, day.totalFees, value.total);
    RatioOf(covered && !day.missProtocol && !day.missLp, day.lpFees, value.total);
  }

  /** Main result on metrics: the figures of the last 24 hours are plain sums over exactly the swaps of the retained
      blocks later than a day before the requested time and not later than it. A figure is shown exactly when history
      covers the day and every one of its swaps has it; the value is that of the reserves at the prices of the requested
      time. */
  lemma MetricsAre(e: AnalyticsEngine, pair: PairState, t: int)
    requires e.Valid()
    ensures var m := MetricsAt(e.policies, e.Abs(), e.backfill, pair, t);
            var q := QuotesAt(e.policies, e.Abs().book, pair.ident, t);
            && MetricsSumUp(m, DayCovered(e.backfill, t),
                            SwapsIn(e.policies, e.blocks, pair.ident.pair, t - 86_399, t + 1))
            && m.pair == pair.ident.pair && m.asOfBlock == pair.block && m.asOf == t
            && m.tvl == WorthOf(pair.ident, pair.reserveX, pair.reserveY, q) && m.price == q.x
            && IsRatio(m.feeToTvl, m.totalFees, m.tvl) && IsRatio(m.lpFeeToTvl, m.lpFees, m.tvl)
            && (m.ready <==> m.tvl.Some? && m.price.Some? && m.volume.Some? && m.totalFees.Some? && m.lpFees.Some?)
  {
    hide ViewOk, Replay, IsRolledUp, ContextOf, CanonicalChain, IndexesBuilt, Total, ChainStats, SwapsIn, SumsUp,
         MetricsFrom, ValueAmounts, QuotesAt, WorthOf, MissingIn, MetricsSumUp, IsRatio;
    var v, p := e.Abs(), pair.ident.pair;
    var q := QuotesAt(e.policies, v.book, pair.ident, t);
    EngineFlows(e);
    ReplaySums(e.policies, e.blocks, p, t - 86_399, t + 1);
    ChainSumsUp(e.policies, e.blocks, p, t - 86_399, t + 1);
    WorthIsValue(pair.ident, pair.reserveX, pair.reserveY, q);
    MetricsFromAre(pair, t, Total(RowsOf(v.flows, p), t - 86_399, t + 1),
                   MissingIn(RowsOf(v.flows, p), t - 86_399, t + 1), DayCovered(e.backfill, t),
                   ValueAmounts(pair.ident, pair.reserveX, pair.reserveY, q.x, q.y), q.x,
                   SwapsIn(e.policies, e.blocks, p, t - 86_399, t + 1));
  }

  /** The tokens that a swap lacked a price for: those of which it had some amount, and what its pair state lacked. */
  lemma SwapLacks(e: Event, state: PairState, q: Quotes, token: Id)
    requires e.Swap?
    ensures var split := e.protocolFeeX.Some? && e.protocolFeeY.Some?;
            token in SwapRow(e, state, q).missing <==>
              || token in state.missing
              || (token == state.ident.tokenX && q.x.None?
                  && (e.amountInX != 0 || e.feeX != 0 || (split && e.protocolFeeX.value != 0)))
              || (token == state.ident.tokenY && q.y.None?
                  && (e.amountInY != 0 || e.feeY != 0 || (split && e.protocolFeeY.value != 0)))
  {
    hide Worth, ValueAmounts;
    ValueAmountsIs(state.ident, e.amountInX, e.amountInY, q.x, q.y);
    ValueAmountsIs(state.ident, e.feeX, e.feeY, q.x, q.y);
    if e.protocolFeeX.Some? && e.protocolFeeY.Some? {
      ValueAmountsIs(state.ident, e.protocolFeeX.value, e.protocolFeeY.value, q.x, q.y);
      ValueAmountsIs(state.ident, e.feeX - e.protocolFeeX.value, e.feeY - e.protocolFeeY.value, q.x, q.y);
    }
  }
}
