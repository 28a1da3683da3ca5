/** What every level of candles says about the swaps and prices below it, and what the browser accepts.
    Sums: a rolled-up candle holds the sums of exactly the swaps in its window, because windows nest.
    Prices: low, high, open and close stay coherent from the minute candles up through every merge.
    Block ranges: with ordered block times they run forward at every level, and the browser's validator
    then accepts what the server publishes. */
module CandleTheorems {
  import opened Domain
  import opened Flows
  import opened Grid
  import opened PairIndex
  import opened Candles

  type FlowMap = map<Id, seq<FlowRow>>

  function RowsOf(flows: FlowMap, pair: Id): seq<FlowRow> {
    if pair in flows then flows[pair] else []
  }

  function StatsOf(c: Option<Candle>): Stats {
    if c.Some? then c.value.stats else ZERO
  }

  /** Sums of some kind of record of a pair over a half-open window. */
  type WindowSum = (Id, int, int) -> Stats

  ghost predicate Additive(f: WindowSum) {
    && (forall p: Id, t: int :: f(p, t, t) == ZERO)
    && (forall p: Id, t: int, u: int, v: int {:trigger Consecutive(t, u, v), f(p, t, v)} ::
          Consecutive(t, u, v) ==> f(p, t, v) == Plus(f(p, t, u), f(p, u, v)))
  }

  predicate Consecutive(t: int, u: int, v: int) {
    t <= u <= v
  }

  ghost predicate SumsRight(c: CandleMap, f: WindowSum, k: Key) {
    StatsOf(Find(c, k)) == f(k.pair, k.start, k.start + Seconds(k.interval))
  }

  ghost predicate MinuteSums(c: CandleMap, f: WindowSum) {
    forall k: Key :: k.interval == Minute && Aligned(k) ==> SumsRight(c, f, k)
  }

  lemma {:induction false} RolledSums(c: CandleMap, f: WindowSum, k: Key, n: nat)
    requires Additive(f)
    requires forall j: nat :: j < n ==> SumsRight(c, f, Slot(k, j))
    ensures StatsOf(Rolled(c, k, n)) == f(k.pair, k.start, Slot(k, n).start)
  {
    if n == 0 {
      RolledSumsBase(c, f, k);
    } else {
      RolledSums(c, f, k, n - 1);
      SlotsForward(k, n - 1);
      SlotSum(c, f, k, n - 1);
      RolledSumsStep(c, f, k, n);
    }
  }

  lemma SlotSum(c: CandleMap, f: WindowSum, k: Key, j: nat)
    requires SumsRight(c, f, Slot(k, j))
    ensures StatsOf(Find(c, Slot(k, j))) == f(k.pair, Slot(k, j).start, Slot(k, j + 1).start)
  {
    var slot := Slot(k, j);
    assert slot.start + Seconds(slot.interval) == Slot(k, j + 1).start;
  }

  lemma RolledSumsBase(c: CandleMap, f: WindowSum, k: Key)
    requires Additive(f)
    ensures StatsOf(Rolled(c, k, 0)) == f(k.pair, k.start, Slot(k, 0).start)
  {
    assert Slot(k, 0).start == k.start;
    assert f(k.pair, k.start, k.start) == ZERO;
  }

  lemma RolledSumsStep(c: CandleMap, f: WindowSum, k: Key, n: nat)
    requires Additive(f) && n > 0
    requires StatsOf(Rolled(c, k, n - 1)) == f(k.pair, k.start, Slot(k, n - 1).start)
    requires StatsOf(Find(c, Slot(k, n - 1))) == f(k.pair, Slot(k, n - 1).start, Slot(k, n).start)
    requires k.start <= Slot(k, n - 1).start <= Slot(k, n).start
    ensures StatsOf(Rolled(c, k, n)) == f(k.pair, k.start, Slot(k, n).start)
  {
    hide Absorb, StatsOf, Plus, Slot, Find, Additive;
    AdditiveAt(f, k.pair, k.start, Slot(k, n - 1).start, Slot(k, n).start);
    AbsorbAdds(Rolled(c, k, n - 1), Find(c, Slot(k, n - 1)));
  }

  lemma AdditiveAt(f: WindowSum, p: Id, t: int, u: int, v: int)
    requires Additive(f) && t <= u <= v
    ensures f(p, t, v) == Plus(f(p, t, u), f(p, u, v))
  {
    assert Consecutive(t, u, v);
  }

  lemma SlotsForward(k: Key, j: nat)
    ensures k.start <= Slot(k, j).start <= Slot(k, j + 1).start
  {
    if j > 0 {
      SlotsGrow(k, 0, j);
    }
    SlotsGrow(k, j, j + 1);
  }

  lemma AbsorbAdds(rollup: Option<Candle>, source: Option<Candle>)
    ensures StatsOf(Absorb(rollup, source)) == Plus(StatsOf(rollup), StatsOf(source))
  {
    hide Plus, Higher, Lower, MergePriceSource;
    PlusZero(StatsOf(rollup));
    PlusZero(StatsOf(source));
    if source.Some? {
      if rollup.None? {
        CreatedZero(source.value);
      } else {
        MergedAdds(rollup.value, source.value);
      }
    }
  }

  lemma CreatedZero(source: Candle)
    ensures Merged(Created(source), source).stats == Plus(ZERO, source.stats)
  {
    hide Plus, Higher, Lower, MergePriceSource;
  }

  lemma MergedAdds(rollup: Candle, source: Candle)
    ensures Merged(rollup, source).stats == Plus(rollup.stats, source.stats)
  {
    hide Plus, Higher, Lower, MergePriceSource;
  }

  /** Sums that are right for the minutes are right at every level, through up to three rollup steps. */
  lemma {:induction false} LevelSums(c: CandleMap, f: WindowSum, k: Key)
    requires IsRolledUp(c) && Additive(f) && MinuteSums(c, f) && Aligned(k)
    ensures SumsRight(c, f, k)
    decreases Seconds(k.interval)
  {
    if k.interval == Minute {
      assert SumsRight(c, f, k);
    } else {
      assert BucketRight(c, k);
      forall j: nat | j < Slots(k.interval)
        ensures SumsRight(c, f, Slot(k, j))
      {
        SlotAligned(k, j);
        LevelSums(c, f, Slot(k, j));
      }
      RolledSums(c, f, k, Slots(k.interval));
      SlotInside(k, 0);
    }
  }

  /** The sums of the swaps recorded in the flow index. */
  function SwapSums(flows: FlowMap): WindowSum {
    (pair: Id, from: int, to: int) => Total(RowsOf(flows, pair), from, to)
  }

  lemma SwapSumsAdditive(flows: FlowMap)
    ensures Additive(SwapSums(flows))
  {
    forall p: Id, t: int
      ensures SwapSums(flows)(p, t, t) == ZERO
    {
      TotalOfNone(RowsOf(flows, p), t, t);
    }
    forall p: Id, t: int, u: int, v: int | Consecutive(t, u, v)
      ensures SwapSums(flows)(p, t, v) == Plus(SwapSums(flows)(p, t, u), SwapSums(flows)(p, u, v))
    {
      TotalSplits(RowsOf(flows, p), t, u, v);
    }
  }

  /** Main result on sums: at every level, the candle of an aligned window counts and sums exactly the swaps
      of its pair whose block time lies in the window; without such swaps the sums are zero. */
  lemma CandleSums(c: CandleMap, flows: FlowMap, k: Key)
    requires IsRolledUp(c) && MinuteSums(c, SwapSums(flows)) && Aligned(k)
    ensures StatsOf(Find(c, k)) == Total(RowsOf(flows, k.pair), k.start, k.start + Seconds(k.interval))
  {
    SwapSumsAdditive(flows);
    LevelSums(c, SwapSums(flows), k);
  }

  /** Each swap lies in exactly one window per level. */
  lemma OneWindowPerLevel(t: int, interval: Interval, start: int)
    requires Aligned(Key(0, interval, start))
    ensures start <= t < start + Seconds(interval) <==> start == Boundary(t, interval)
  {
    BoundaryTiles(t, start, interval);
  }

  /** Rounding loss of any candle without missing fee values. */
  lemma CandleRoundingLoss(c: CandleMap, flows: FlowMap, k: Key)
    requires IsRolledUp(c) && MinuteSums(c, SwapSums(flows)) && Aligned(k) && k in c
    requires AllSplitWell(RowsOf(flows, k.pair))
    ensures var s := c[k].stats;
            !s.missTotal && !s.missProtocol && !s.missLp ==>
              0 <= s.totalFees - s.protocolFees - s.lpFees <= 2 * s.swaps
  {
    CandleSums(c, flows, k);
    WindowRoundingLoss(RowsOf(flows, k.pair), k.start, k.start + Seconds(k.interval));
  }

  // Prices

  /** Open, high, low and close are all present with low and high enclosing the other two, or all absent. */
  predicate PricesCoherent(c: Candle) {
    if c.open.Some? then
      && c.high.Some? && c.low.Some? && c.close.Some?
      && c.low.value <= c.open.value <= c.high.value
      && c.low.value <= c.close.value <= c.high.value
    else c.high.None? && c.low.None? && c.close.None?
  }

  lemma TouchedCoherent(c: Candle, pair: PairState)
    requires PricesCoherent(c)
    ensures PricesCoherent(Touched(c, pair))
  {
  }

  lemma AbsorbCoherent(rollup: Option<Candle>, source: Option<Candle>)
    requires rollup.Some? ==> PricesCoherent(rollup.value)
    requires source.Some? ==> PricesCoherent(source.value)
    ensures Absorb(rollup, source).Some? ==> PricesCoherent(Absorb(rollup, source).value)
  {
    if source.Some? {
      MergedCoherent(if rollup.Some? then rollup.value else Created(source.value), source.value);
    }
  }

  lemma MergedCoherent(rollup: Candle, source: Candle)
    requires PricesCoherent(rollup) && PricesCoherent(source)
    ensures PricesCoherent(Merged(rollup, source))
  {
    var m := Merged(rollup, source);
    assert m.open == rollup.open.Or(source.open) && m.close == source.close.Or(rollup.close);
    if source.open.Some? {
      assert m.high == Higher(rollup.high, source.high.value) && m.low == Lower(rollup.low, source.low.value);
    } else {
      assert m.high == rollup.high && m.low == rollup.low;
    }
  }

  lemma {:induction false} RolledCoherent(c: CandleMap, k: Key, n: nat)
    requires forall j: nat :: j < n && Slot(k, j) in c ==> PricesCoherent(c[Slot(k, j)])
    ensures Rolled(c, k, n).Some? ==> PricesCoherent(Rolled(c, k, n).value)
  {
    if n > 0 {
      RolledCoherent(c, k, n - 1);
      AbsorbCoherent(Rolled(c, k, n - 1), Find(c, Slot(k, n - 1)));
    }
  }

  lemma {:induction false} AllCoherent(c: CandleMap, k: Key)
    requires IsRolledUp(c) && k in c
    requires forall m :: m in c && m.interval == Minute ==> PricesCoherent(c[m])
    ensures PricesCoherent(c[k])
    decreases Seconds(k.interval)
  {
    if k.interval != Minute {
      assert BucketRight(c, k);
      forall j: nat | j < Slots(k.interval) && Slot(k, j) in c
        ensures PricesCoherent(c[Slot(k, j)])
      {
        AllCoherent(c, Slot(k, j));
      }
      RolledCoherent(c, k, Slots(k.interval));
    }
  }

  // Block ranges

  predicate Earlier(a: Key, b: Key, interval: Interval) {
    a.interval == interval && b.interval == interval && a.pair == b.pair && a.start < b.start
  }

  /** Each candle's block range runs forward, and an earlier candle of a pair ends no later than a later
      one begins. */
  ghost predicate RangesOrdered(c: CandleMap, interval: Interval) {
    && (forall k :: k in c && k.interval == interval ==> c[k].firstBlock <= c[k].lastBlock)
    && (forall a, b :: a in c && b in c && Earlier(a, b, interval) ==> c[a].lastBlock <= c[b].firstBlock)
  }

  /** A nonempty rollup takes its first block from one slot and its last block from a slot not before it. */
  lemma {:induction false} RolledRange(c: CandleMap, k: Key, n: nat) returns (i: nat, j: nat)
    requires Rolled(c, k, n).Some?
    ensures i <= j < n && Slot(k, i) in c && Slot(k, j) in c
    ensures Rolled(c, k, n).value.firstBlock == c[Slot(k, i)].firstBlock
    ensures Rolled(c, k, n).value.lastBlock == c[Slot(k, j)].lastBlock
  {
    if Slot(k, n - 1) in c {
      j := n - 1;
      if Rolled(c, k, n - 1).Some? {
        var j';
        i, j' := RolledRange(c, k, n - 1);
      } else {
        i := n - 1;
      }
    } else {
      i, j := RolledRange(c, k, n - 1);
    }
  }

  lemma RangesRollUp(c: CandleMap, level: Interval)
    requires IsRolledUp(c) && level != Minute && RangesOrdered(c, SourceOf(level))
    ensures RangesOrdered(c, level)
  {
    forall k | k in c && k.interval == level
      ensures c[k].firstBlock <= c[k].lastBlock
    {
      RangeForward(c, k);
    }
    forall a, b | a in c && b in c && Earlier(a, b, level)
      ensures c[a].lastBlock <= c[b].firstBlock
    {
      RangesApart(c, a, b);
    }
  }

  lemma RangeForward(c: CandleMap, k: Key)
    requires k in c && k.interval != Minute && BucketRight(c, k) && RangesOrdered(c, SourceOf(k.interval))
    ensures c[k].firstBlock <= c[k].lastBlock
  {
    var i, j := RolledRange(c, k, Slots(k.interval));
    if i < j {
      SlotsGrow(k, i, j);
      assert Earlier(Slot(k, i), Slot(k, j), SourceOf(k.interval));
    }
  }

  lemma RangesApart(c: CandleMap, a: Key, b: Key)
    requires a in c && b in c && a.interval != Minute && Earlier(a, b, a.interval)
    requires BucketRight(c, a) && BucketRight(c, b) && RangesOrdered(c, SourceOf(a.interval))
    ensures c[a].lastBlock <= c[b].firstBlock
  {
    var ia, ja := RolledRange(c, a, Slots(a.interval));
    var ib, jb := RolledRange(c, b, Slots(b.interval));
    SlotsOfEarlier(a, b, ja, ib);
    assert Earlier(Slot(a, ja), Slot(b, ib), SourceOf(a.interval));
  }

  lemma SlotsOfEarlier(a: Key, b: Key, i: nat, j: nat)
    requires Aligned(a) && Aligned(b) && a.interval == b.interval && a.interval != Minute && a.start < b.start
    requires i < Slots(a.interval) && j < Slots(b.interval)
    ensures Slot(a, i).start < Slot(b, j).start
  {
    SlotAligned(a, i);
    SlotAligned(b, j);
    BoundaryTiles(Slot(a, i).start, a.start, a.interval);
    BoundaryTiles(Slot(b, j).start, b.start, b.interval);
    BoundaryTiles(b.start, a.start, a.interval);
  }

  lemma {:induction false} AllRangesOrdered(c: CandleMap, level: Interval)
    requires IsRolledUp(c) && RangesOrdered(c, Minute)
    ensures RangesOrdered(c, level)
    decreases Seconds(level)
  {
    if level != Minute {
      AllRangesOrdered(c, SourceOf(level));
      RangesRollUp(c, level);
    }
  }

  // The browser's validator

  datatype Finalized = Finalized(key: Key, end: int, open: Option<int>, high: Option<int>, low: Option<int>,
                                 close: Option<int>, volume: Option<int>, totalFees: Option<int>,
                                 protocolFees: Option<int>, lpFees: Option<int>, feeBreakdownComplete: bool,
                                 tvl: Option<int>, ready: bool, missing: set<Id>, firstBlock: int, lastBlock: int)

  function Unless(missing: bool, value: int): Option<int> {
    if missing then None else Some(value)
  }

  function Finalize(k: Key, c: Candle): Finalized {
    var partial := c.stats.missVolume || c.stats.missTotal || c.stats.missProtocol || c.stats.missLp
                   || c.missing != {} || c.tvl.None? || c.close.None?;
    Finalized(k, k.start + Seconds(k.interval), c.open, c.high, c.low, c.close,
              Unless(c.stats.missVolume, c.stats.volume), Unless(c.stats.missTotal, c.stats.totalFees),
              Unless(c.stats.missProtocol, c.stats.protocolFees), Unless(c.stats.missLp, c.stats.lpFees),
              !c.stats.missProtocol && !c.stats.missLp, c.tvl, !partial, c.missing, c.firstBlock, c.lastBlock)
  }

  /** The browser's own boundary test: a remainder, with the Monday offset for weeks. */
  predicate IsCandleBoundary(t: int, i: Interval) {
    if i == Week then (t - 345_600) % Seconds(i) == 0 else t % Seconds(i) == 0
  }

  /** The browser's checks on a candle that do not depend on the requested range. */
  predicate BrowserAccepts(f: Finalized) {
    && IsCandleBoundary(f.key.start, f.key.interval)
    && f.end == f.key.start + Seconds(f.key.interval)
    && (f.open.None? <==> f.high.None?) && (f.open.None? <==> f.low.None?) && (f.open.None? <==> f.close.None?)
    && (f.open.Some? ==>
          !(f.high.value < f.open.value || f.high.value < f.close.value || f.low.value > f.open.value
            || f.low.value > f.close.value || f.high.value < f.low.value))
    && f.firstBlock <= f.lastBlock
    && (f.ready ==>
          f.missing == {} && f.open.Some? && f.feeBreakdownComplete && f.volume.Some? && f.totalFees.Some?
          && f.protocolFees.Some? && f.lpFees.Some? && f.tvl.Some?)
  }

  /** The engine's boundaries are the browser's boundaries. */
  lemma BoundariesAgree(t: int, i: Interval)
    ensures IsCandleBoundary(t, i) <==> Boundary(t, i) == t
  {
    var n := t - Offset(i);
    assert n == n / Seconds(i) * Seconds(i) + n % Seconds(i);
  }

  /** The window that holds a time starts no later and ends after it, at a whole number of windows from the epoch, or
      for weeks from the Monday after it. */
  lemma WindowIs(t: int, i: Interval)
    ensures Seconds(i) == match i
                          case Minute => 60
                          case FiveMinutes => 5 * 60
                          case FifteenMinutes => 15 * 60
                          case Hour => 60 * 60
                          case FourHours => 4 * 60 * 60
                          case Day => 24 * 60 * 60
                          case Week => 7 * 24 * 60 * 60
    ensures Boundary(t, i) <= t < Boundary(t, i) + Seconds(i)
    ensures (Boundary(t, i) - if i == Week then 4 * 24 * 60 * 60 else 0) % Seconds(i) == 0
  {
    FloorHolds(t, Seconds(i), Offset(i));
    OnGrid(Boundary(t, i), Seconds(i), Offset(i));
  }

  lemma OnGrid(s: int, step: int, offset: int)
    requires step > 0 && Floor(s, step, offset) == s
    ensures (s - offset) % step == 0
  {
    var n := s - offset;
    assert n == n / step * step + n % step;
  }

  /** A candle of a rolled-up map with coherent prices passes the browser's checks exactly when its block
      range runs forward. */
  lemma AcceptedIffForward(k: Key, c: Candle)
    requires Aligned(k) && PricesCoherent(c)
    ensures BrowserAccepts(Finalize(k, c)) <==> c.firstBlock <= c.lastBlock
  {
    BoundariesAgree(k.start, k.interval);
  }
}
