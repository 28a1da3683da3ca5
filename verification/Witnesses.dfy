/** Engines driven, block by block, into the corners that the exact conditions single out.
    A pair that moves at time 120 in block 0 and at time 60 in block 1 gives a five-minute candle with a reversed
    block range, and the next block finalizes a minute candle without reporting it. A block that goes back in time
    makes a final candle open again without reporting it. One observation of bins "7" and "07" gives a window of
    radius 0 with two bins. */
module Witnesses {
  import opened Domain
  import opened Grid
  import opened Candles
  import opened CandleTheorems
  import opened Chain
  import opened Ingest
  import opened PlainBlocks
  import opened PoolState
  import opened ReplicaTheorems
  import opened Projection
  import opened Admission
  import opened EngineSpec
  import opened Engine
  import opened ChangedCandles
  import opened BlockRanges
  import EngineReplica

  const PAIR := PairIdentity(1, 2, 3, 18, 18, Provenance(None, None, None, None, None))

  // Decreasing block times

  /** A pair snapshot without a source, which is never a repeat. */
  const MOVE := PairSnapshot(None, PAIR, Market(None, None, None), 0, 0, None)
  const LATE := Block(None, 0, 10, 9, 120, [], [MOVE])
  const EARLY := Block(None, 1, 11, 10, 60, [], [MOVE])
  const NEXT := Block(None, 2, 12, 11, 300, [], [])
  const AHEAD := Block(None, 1, 13, 10, 300, [], [])
  const BACK := Block(None, 2, 14, 13, 60, [], [])

  lemma PlansPlain()
    ensures PlanFor([], LATE) == Append(LATE)
    ensures PlanFor([LATE], EARLY) == Append(EARLY) && PlanFor([LATE, EARLY], NEXT) == Append(NEXT)
    ensures PlanFor([LATE], AHEAD) == Append(AHEAD) && PlanFor([LATE, AHEAD], BACK) == Append(BACK)
  {
    hide PlanFor;
    PlainAppends([], LATE);
    PlainAppends([LATE], EARLY);
    PlainAppends([LATE, EARLY], NEXT);
    PlainAppends([LATE], AHEAD);
    PlainAppends([LATE, AHEAD], BACK);
  }

  lemma MoveAdmitted(g: Guard, b: Block)
    requires b.events == [MOVE] && (g.pairs == map[] || g.pairs == map[1 := PAIR])
    ensures var r := AfterAdmitted(g, b.events, b.chainId); r.Some? && r.value.pairs == map[1 := PAIR]
  {
    hide HeldAfter;
    assert b.events[..0] == [];
    assert AfterAdmitted(g, [], b.chainId) == Some(g);
    assert SamePairIdentity(PAIR, PAIR);
    assert Admission.Admissible(g, MOVE, b.chainId);
  }

  lemma AllAdmitted()
    ensures Admitted([LATE]) && Admitted([LATE, EARLY]) && Admitted([LATE, EARLY, NEXT])
    ensures Admitted([LATE, AHEAD]) && Admitted([LATE, AHEAD, BACK])
  {
    hide AfterAdmitted, EmptyGuard, Admitted;
    assert [LATE, EARLY] + [NEXT] == [LATE, EARLY, NEXT] && [LATE] + [AHEAD] == [LATE, AHEAD];
    assert [LATE, AHEAD] + [BACK] == [LATE, AHEAD, BACK];
    MovesAdmitted();
    QuietAdmitted([LATE, EARLY], NEXT);
    QuietAdmitted([LATE], AHEAD);
    QuietAdmitted([LATE, AHEAD], BACK);
  }

  lemma MovesAdmitted()
    ensures Admitted([LATE]) && Admitted([LATE, EARLY])
  {
    hide AfterAdmitted, EmptyGuard;
    assert [LATE][..0] == [] && [LATE, EARLY][..1] == [LATE];
    NoPairs();
    MoveAdmitted(EmptyGuard(), LATE);
    assert GuardOf([LATE][..0]) == Some(EmptyGuard());
    assert GuardOf([LATE]) == AfterAdmitted(EmptyGuard(), LATE.events, LATE.chainId);
    MoveAdmitted(GuardOf([LATE]).value, EARLY);
  }

  lemma QuietAdmitted(blocks: seq<Block>, b: Block)
    requires Admitted(blocks) && b.events == []
    ensures Admitted(blocks + [b])
  {
    assert (blocks + [b])[..|blocks|] == blocks;
  }

  lemma NoPairs()
    ensures EmptyGuard().pairs == map[]
  {
  }

  lemma MovesPlain(b: Block, k: Key)
    requires b.events == [MOVE] && k.pair == 1
    ensures Moves(b, k) <==> Boundary(b.timestamp, k.interval) == k.start
  {
    assert MOVE in b.events;
    assert MarketPairs(b.events) == {1};
  }

  const FIVE := Key(1, FiveMinutes, 0)

  lemma BucketAt(t: int, i: Interval, q: int)
    requires i != Week && q * Seconds(i) <= t < q * Seconds(i) + Seconds(i)
    ensures Boundary(t, i) == q * Seconds(i)
  {
    hide Floor, Seconds;
    FloorAtPoint(q, Seconds(i), 0, t);
  }

  lemma Buckets()
    ensures Boundary(60, Minute) == 60 && Boundary(120, Minute) == 120
    ensures Boundary(60, FiveMinutes) == 0 && Boundary(120, FiveMinutes) == 0
  {
    hide Boundary;
    BucketAt(60, Minute, 1);
    BucketAt(120, Minute, 2);
    BucketAt(60, FiveMinutes, 0);
    BucketAt(120, FiveMinutes, 0);
  }

  /** The pair moves in minute 120 first and in minute 60 later; both lie in the five minutes from 0. */
  lemma Reversed()
    ensures MovedBy([LATE, EARLY], 0, FIVE) && MovedBy([LATE, EARLY], 1, FIVE)
    ensures !RunsForward([LATE, EARLY], FIVE)
  {
    hide Boundary, Moves;
    Buckets();
    var blocks := [LATE, EARLY];
    MovesPlain(LATE, FIVE);
    MovesPlain(EARLY, FIVE);
    assert MovedBy(blocks, 0, FIVE) && MovedBy(blocks, 1, FIVE);
    assert !InFirstMinute(blocks, 0, FIVE) && !InLastMinute(blocks, 1, FIVE);
  }

  /** An engine whose five-minute candle the browser refuses: a pair moves at time 120 in block 0 and at time 60 in
      block 1. */
  method ReversedCandle(policies: Policies) returns (e: AnalyticsEngine)
    ensures fresh(e) && fresh(e.priceBook) && e.blocks == [LATE, EARLY] && e.Valid()
    ensures FIVE in e.candles && !BrowserAccepts(Finalize(FIVE, e.candles[FIVE]))
  {
    hide AnalyticsEngine.Valid, AnalyticsEngine.Abs, AnalyticsEngine.Recoverable, PlanFor, Admitted, Replay,
         BrowserAccepts, Finalize, MovedBy, RunsForward, NewlyFinalized, BucketsAt, MarketPairs;
    PlansPlain();
    AllAdmitted();
    e := new AnalyticsEngine(policies, false);
    var first := e.IngestBlock(LATE);
    assert [] + [LATE] == [LATE];
    var second := e.IngestBlock(EARLY);
    assert [LATE] + [EARLY] == [LATE, EARLY];
    Reversed();
    CandlesOfBlocks(e, FIVE);
    EngineCandleAcceptedIff(e, FIVE);
  }

  const TWO_MINUTES := Key(1, Minute, 120)

  lemma FlipUnreported(pairs: set<Id>, c: CandleMap)
    ensures TWO_MINUTES !in NewlyFinalized(pairs, c, Some(60), 300) + BucketsAt(MarketPairs([]), 300)
  {
    hide Boundary, Finalizes;
    Buckets();
    assert MarketPairs([]) == {};
  }

  lemma MovedFirst(more: seq<Block>)
    ensures MovedBy([LATE] + more, 0, TWO_MINUTES)
  {
    hide Boundary, Moves;
    Buckets();
    MovesPlain(LATE, TWO_MINUTES);
  }

  /** The next block makes the minute candle of 120 final without reporting it: when the head was at time 60 the
      candle had started but not ended, and it does not hold the head. */
  method UnreportedFlip(policies: Policies) returns (e: AnalyticsEngine, ghost before: Option<int>)
    ensures fresh(e) && fresh(e.priceBook) && e.blocks == [LATE, EARLY, NEXT] && e.Valid()
    ensures before == HeadTimestamp([LATE, EARLY])
    ensures TWO_MINUTES in e.candles && TWO_MINUTES !in e.lastChangedCandleKeys
    ensures !FinalizedAt(before, TWO_MINUTES) && FinalizedAt(HeadTimestamp(e.blocks), TWO_MINUTES)
  {
    hide AnalyticsEngine.Valid, AnalyticsEngine.Abs, AnalyticsEngine.Recoverable, PlanFor, Admitted, Replay,
         BrowserAccepts, Finalize, MovedBy, NewlyFinalized, BucketsAt, MarketPairs;
    e := ReversedCandle(policies);
    before := HeadTimestamp(e.blocks);
    PlansPlain();
    AllAdmitted();
    FlipUnreported(e.pairs.Keys, e.candles);
    var third := e.IngestBlock(NEXT);
    assert [LATE, EARLY] + [NEXT] == [LATE, EARLY, NEXT];
    assert [LATE, EARLY, NEXT] == [LATE] + [EARLY, NEXT];
    MovedFirst([EARLY, NEXT]);
    CandlesOfBlocks(e, TWO_MINUTES);
  }

  lemma ReopenUnreported(pairs: set<Id>, c: CandleMap)
    ensures TWO_MINUTES !in NewlyFinalized(pairs, c, Some(300), 60) + BucketsAt(MarketPairs([]), 60)
  {
    assert MarketPairs([]) == {};
  }

  method AheadOfTime(policies: Policies) returns (e: AnalyticsEngine)
    ensures fresh(e) && fresh(e.priceBook) && e.blocks == [LATE, AHEAD] && e.Valid()
  {
    hide AnalyticsEngine.Valid, AnalyticsEngine.Abs, AnalyticsEngine.Recoverable, PlanFor, Admitted, Replay,
         NewlyFinalized, BucketsAt, MarketPairs;
    PlansPlain();
    AllAdmitted();
    e := new AnalyticsEngine(policies, false);
    var first := e.IngestBlock(LATE);
    assert [] + [LATE] == [LATE];
    var second := e.IngestBlock(AHEAD);
    assert [LATE] + [AHEAD] == [LATE, AHEAD];
  }

  /** A block that goes back in time makes the minute candle of 120 open again without reporting it. */
  method UnreportedReopening(policies: Policies) returns (e: AnalyticsEngine, ghost before: Option<int>)
    ensures fresh(e) && fresh(e.priceBook) && e.blocks == [LATE, AHEAD, BACK] && e.Valid()
    ensures before == HeadTimestamp([LATE, AHEAD])
    ensures TWO_MINUTES in e.candles && TWO_MINUTES !in e.lastChangedCandleKeys
    ensures FinalizedAt(before, TWO_MINUTES) && !FinalizedAt(HeadTimestamp(e.blocks), TWO_MINUTES)
  {
    hide AnalyticsEngine.Valid, AnalyticsEngine.Abs, AnalyticsEngine.Recoverable, PlanFor, Admitted, Replay, MovedBy,
         NewlyFinalized, BucketsAt, MarketPairs;
    e := AheadOfTime(policies);
    before := HeadTimestamp(e.blocks);
    PlansPlain();
    AllAdmitted();
    ReopenUnreported(e.pairs.Keys, e.candles);
    var third := e.IngestBlock(BACK);
    assert [LATE, AHEAD] + [BACK] == [LATE, AHEAD, BACK] == [LATE] + [AHEAD, BACK];
    MovedFirst([AHEAD, BACK]);
    CandlesOfBlocks(e, TWO_MINUTES);
  }

  // Two texts for one bin

  const BOTH := Observation(0, [BinSnapshot(BinKey(7, 0), 1, 1, 1), BinSnapshot(BinKey(7, 1), 1, 1, 1)], [1], false)
  const OBSERVE :=
    PairSnapshot(Some(Source(1, None, None, 0, BlockSnapshot)), PAIR, Market(Some(1), Some(7), Some(10)), 0, 0, Some(BOTH))
  const ALIASED := Block(Some(1), 0, 10, 9, 0, [], [OBSERVE])

  /** The engine's validation accepts an observation that lists bins "7" and "07". */
  lemma BothAccepted()
    ensures ValidObservation(BOTH) && ValidBlock(ALIASED) && ObservationsLast([OBSERVE])
  {
  }

  lemma AliasedPlan()
    ensures PlanFor([], ALIASED) == Append(ALIASED) && Admitted([ALIASED])
  {
    hide HeldAfter, ValidBlock, ValidEvent, ObservationsLast;
    BothAccepted();
    assert [OBSERVE][..0] == [] && [ALIASED][..0] == [];
    assert DedupAll(Some(1), map[], [OBSERVE]).kept == [OBSERVE];
    var g := EmptyGuard();
    assert Admission.Admissible(g, OBSERVE, Some(1));
    assert GuardOf([ALIASED][..0]) == Some(g) && AfterAdmitted(g, ALIASED.events[..0], Some(1)) == Some(g);
    assert AfterAdmitted(g, ALIASED.events, Some(1)).Some?;
  }

  lemma BothApplied(at: At)
    ensures var a := ApplyBins(map[], StartBins(EMPTY_POOL, false), BOTH.binUpdates, false, at);
            a.bins.Keys == {BinKey(7, 0), BinKey(7, 1)}
  {
    hide IndexBin;
    var first, second := BinSnapshot(BinKey(7, 0), 1, 1, 1), BinSnapshot(BinKey(7, 1), 1, 1, 1);
    assert BOTH.binUpdates[..1] == [first] && [first][..0] == [];
    var start := StartBins(EMPTY_POOL, false);
    assert ApplyBins(map[], start, [first], false, at) == ApplyBin(map[], start, first, false, at);
  }

  lemma AliasedBins(policies: Policies)
    requires Replay(policies, [ALIASED]).ok
    ensures var pools := Replay(policies, [ALIASED]).view.pools;
            && 1 in pools && pools[1].state.Some? && pools[1].state.value.activeId == 7
            && pools[1].bins.Keys == {BinKey(7, 0), BinKey(7, 1)}
  {
    hide AfterBlock, ValidBlock, ObservationsLast, ApplyBins, EngineReplica.PoolsKnown;
    BothAccepted();
    assert [ALIASED][..0] == [];
    NoPools();
    var step := EngineReplica.BlockMoves(policies, EMPTY_VIEW, ALIASED, 1);
    AliasedStep(step);
    BothApplied(step.value.at);
    EngineReplica.ObservedShape(EMPTY_POOL, step.value.pair, BOTH, step.value.at);
  }

  lemma NoPools()
    ensures EngineReplica.PoolsKnown(EMPTY_VIEW, 0)
  {
  }

  lemma AliasedStep(step: Option<Step>)
    requires EngineReplica.StepIn([OBSERVE], ALIASED, 1, step)
    ensures step.Some? && step.value.observation == BOTH && step.value.pair.activeId == Some(7)
  {
    assert OBSERVE in [OBSERVE];
    assert EngineReplica.ObservesIn([OBSERVE], 1);
  }

  /** An engine whose windowed query of radius 0 lists two bins, more than the browser's bound of one. */
  method AliasedWindow(policies: Policies) returns (e: AnalyticsEngine, listed: seq<PoolBin>)
    ensures fresh(e) && e.blocks == [ALIASED] && e.Valid()
    ensures 1 in e.pools && e.pools[1].state.Some? && e.pools[1].state.value.activeId == 7
    ensures IsWindow(listed, e.pools[1].bins, 7, 7) && |listed| == 2 > 2 * 0 + 1
  {
    hide AnalyticsEngine.Valid, AnalyticsEngine.Abs, AnalyticsEngine.Recoverable, PlanFor, Admitted, Replay,
         NewlyFinalized, BucketsAt, MarketPairs;
    AliasedPlan();
    e := new AnalyticsEngine(policies, false);
    var r := e.IngestBlock(ALIASED);
    assert [] + [ALIASED] == [ALIASED];
    AliasedBins(policies);
    EnginePools(e);
    var q := QueryPoolState(e.pools[1], 0);
    listed := q.value.1;
    TwoListed(listed, e.pools[1].bins);
  }

  lemma EnginePools(e: AnalyticsEngine)
    requires e.Valid()
    ensures e.pools == Replay(e.policies, e.blocks).view.pools
    ensures forall p :: p in e.pools ==> IndexAgrees(e.pools[p].bins, e.pools[p].numeric)
  {
    hide CanonicalChain, Replay, IsRolledUp;
  }

  lemma TwoListed(listed: seq<PoolBin>, bins: BinMap)
    requires IsWindow(listed, bins, 7, 7) && bins.Keys == {BinKey(7, 0), BinKey(7, 1)}
    requires forall key :: key in bins ==> bins[key].bin == key
    ensures |listed| == 2
  {
    assert Within(bins, 7, 7) == {BinKey(7, 0), BinKey(7, 1)};
    ListingLength(listed, bins, Within(bins, 7, 7));
  }
}
