/** What every run of the engine guarantees. */
module EngineTheorems {
  // It is a function of the retained blocks, checkpoints restore it, a failed append cannot be retried, and every
  // candle level agrees with the swaps below it.

  import opened Domain
  import opened PairIndex
  import opened Flows
  import opened Candles
  import opened CandleTheorems
  import opened Chain
  import opened Ingest
  import opened Projection
  import opened Admission
  import opened ViewInvariants
  import opened EngineSpec
  import opened Engine

  /** Main result: whatever appends, duplicates, reorganisations, rewinds and augmentations two engines went
      through, equal policies and retained blocks mean equal derived state, at every candle level and in every
      index. One of them may be a fresh engine that only replayed the blocks. */
  lemma SameBlocksSameState(a: AnalyticsEngine, b: AnalyticsEngine)
    requires a.Valid() && b.Valid() && a.policies == b.policies && a.blocks == b.blocks
    ensures a.Abs() == b.Abs() && a.candles == b.candles && a.canonical == b.canonical
    ensures a.pairSnapshotsByPair == b.pairSnapshotsByPair
  {
    hide ViewOk, MinutesOf, IsRolledUp, Replay, ContextOf, CanonicalChain;
    a.AbsShows();
    b.AbsShows();
    RolledUpUnique(a.candles, b.candles);
    IndexesEqual(a.pairSnapshotsByPair, b.pairSnapshotsByPair, a.histories);
  }

  lemma IndexesEqual(a: map<Id, seq<Entry>>, b: map<Id, seq<Entry>>, histories: map<Id, seq<Stamp>>)
    requires IndexesBuilt(a, histories) && IndexesBuilt(b, histories)
    ensures a == b
  {
  }

  /** Restoring an exported checkpoint into an empty engine with the same policies gives back the engine. */
  method RestoreExported(a: AnalyticsEngine) returns (b: AnalyticsEngine)
    requires a.Valid() && a.reorgCount >= 0
    ensures fresh(b) && b.Valid() && b.policies == a.policies
    ensures b.blocks == a.blocks && b.reorgCount == a.reorgCount && b.backfill == a.backfill
    ensures b.Abs() == a.Abs() && b.candles == a.candles && b.canonical == a.canonical
    ensures b.pairSnapshotsByPair == a.pairSnapshotsByPair
  {
    hide ViewOk, IsRolledUp, Replay, ContextOf, CanonicalChain, Admitted;
    CanonicalReplaysIff(a.policies, a.blocks);
    b := new AnalyticsEngine(a.policies, false);
    var ok := b.RestoreCheckpoint(a.ExportCheckpoint());
    SameBlocksSameState(a, b);
  }

  // Retries

  /** A block that was retained is answered "duplicate" when it is delivered again, whether or not applying it
      succeeded. */
  lemma RetryIsDuplicate(blocks: seq<Block>, b: Block)
    requires PlanFor(blocks, b).Append? || PlanFor(blocks, b).Fork?
    ensures Answer(PlanFor(Retained(blocks, PlanFor(blocks, b)), b), true) == Duplicate
  {
    hide PlanFor;
    if PlanFor(blocks, b).Append? {
      AppendRedelivered(blocks, b, PlanFor(blocks, b).block);
    } else {
      ForkRedelivered(blocks, b, PlanFor(blocks, b).parent, PlanFor(blocks, b).block);
    }
  }

  /** A chain whose block threw never replays again, however it is extended. */
  lemma FailureIsPermanent(policies: Policies, blocks: seq<Block>, more: seq<Block>)
    requires !Replay(policies, blocks).ok
    ensures !Replay(policies, blocks + more).ok
  {
    hide Replay;
    assert (blocks + more)[..|blocks|] == blocks;
    if Replay(policies, blocks + more).ok {
      ReplayPrefixOk(policies, blocks + more, |blocks|);
    }
  }

  const POISON_PAIR := PairIdentity(1, 2, 3, 18, 18, Provenance(None, None, None, None, None))
  const POISON_EVENT :=
    Liquidity(None, POISON_PAIR, Market(None, None, None), 0, 0, false, 5, [BinChange(BinKey(7, 0), 1, 0, 0)])
  const POISON := Block(None, 0, 10, 9, 0, [], [POISON_EVENT])

  /** Such blocks exist: a first block that withdraws more than was ever deposited is appended, throws whatever the
      policies are, stays retained, and is answered "duplicate" from then on. */
  lemma PoisonedAppend(policies: Policies)
    ensures PlanFor([], POISON) == Append(POISON)
    ensures !Admitted([POISON]) && !Replay(policies, [POISON]).ok
    ensures PlanFor([POISON], POISON) == AlreadyKnown
  {
    PoisonPlan();
    AppendRedelivered([], POISON, POISON);
    assert [] + [POISON] == [POISON];
    PoisonRefused();
    PlanKeepsChain([], POISON);
    CanonicalReplaysIff(policies, [POISON]);
  }

  lemma PoisonPlan()
    ensures PlanFor([], POISON) == Append(POISON)
  {
    assert ValidEvent(POISON_EVENT, None);
    assert DedupAll(None, map[], [POISON_EVENT]).kept == [POISON_EVENT] by {
      assert [POISON_EVENT][..0] == [];
    }
    assert ObservationsLast([POISON_EVENT]);
  }

  lemma PoisonRefused()
    ensures !Admitted([POISON])
  {
    hide Advance;
    var changes := [BinChange(BinKey(7, 0), 1, 0, 0)];
    assert [POISON][..0] == [] && [POISON_EVENT][..0] == [] && changes[..0] == [];
    assert changes[0] in changes && Burned(changes, BinKey(7, 0)) == 1;
    var g := EmptyGuard();
    assert !Admissible(g, POISON_EVENT, None);
    assert GuardOf([POISON][..0]) == Some(g) && AfterAdmitted(g, POISON.events[..0], None) == Some(g);
    assert AfterAdmitted(g, POISON.events, None).None?;
  }

  // Recovery

  lemma {:induction false} NumbersConsecutive(blocks: seq<Block>, i: nat, j: nat)
    requires CanonicalChain(blocks) && i <= j < |blocks|
    ensures blocks[j].number - blocks[i].number == j - i
  {
    hide Canonicalize, ContextOf, ValidBlock;
    if i < j {
      PrefixCanonical(blocks, j);
      assert blocks[..j][j - 1] == blocks[j - 1];
      NumbersConsecutive(blocks, i, j - 1);
    }
  }

  /** A retained block other than the head can be rewound to. */
  lemma RewindsTo(blocks: seq<Block>, i: nat)
    requires CanonicalChain(blocks) && i < |blocks| - 1
    ensures var b := blocks[i];
            && NumberIndex(blocks, b.number) == Some(i)
            && RewindAnswer(blocks, Head(b.number, b.hash, b.timestamp)) == Rewound
  {
    hide CanonicalChain, NumberIndex;
    ChainValid(blocks, i);
    var index := NumberIndex(blocks, blocks[i].number);
    if index.Some? && index.value != i {
      var low, high := if index.value < i then index.value else i, if index.value < i then i else index.value;
      NumbersConsecutive(blocks, low, high);
    }
  }

  /** Main result: a rewind to the block below a head that threw leaves an engine in which everything holds again.
      After a failed append it is the engine from before, down to its candles and indexes; after a failed
      reorganisation it is the engine that never retained more than the fork's parent. */
  method UndoThrow(e: AnalyticsEngine, b: Block) returns (r: IngestResult)
    requires e.Valid() && e.blocks != []
    modifies e, e.priceBook
    ensures var plan := PlanFor(old(e.blocks), b);
            && r == Answer(plan, Admitted(Retained(old(e.blocks), plan)))
            && e.blocks == if r.Failed? then Below(old(e.blocks), plan) else Retained(old(e.blocks), plan)
    ensures r.Failed? && PlanFor(old(e.blocks), b).Append? ==>
              && e.Abs() == old(e.Abs()) && e.candles == old(e.candles) && e.canonical == old(e.canonical)
              && e.pairSnapshotsByPair == old(e.pairSnapshotsByPair)
    ensures e.Valid()
  {
    hide ViewOk, MinutesOf, IsRolledUp, Replay, ContextOf, CanonicalChain, Admitted, PlanFor, RewindAnswer, NumberIndex,
         AnalyticsEngine.Abs, IndexesBuilt, NewlyFinalized, BucketsAt, MarketPairs;
    ghost var plan := PlanFor(e.blocks, b);
    ghost var histories := e.histories;
    PlanKeepsChain(e.blocks, b);
    e.AbsShows();
    r := e.IngestBlock(b);
    if r.Failed? {
      var n := |e.blocks| - 2;
      RewindsTo(e.blocks, n);
      var below := e.blocks[n];
      var back := e.RewindCanonicalHead(Head(below.number, below.hash, below.timestamp));
      e.AbsShows();
      if plan.Append? {
        RolledUpUnique(old(e.candles), e.candles);
        IndexesEqual(old(e.pairSnapshotsByPair), e.pairSnapshotsByPair, histories);
      }
    }
  }

  /** A first block that threw has nothing below it: no rewind drops it and no block can replace it. */
  lemma FirstThrowStays(blocks: seq<Block>, b: Block, expected: Head)
    requires |blocks| == 1 && !Follows(blocks, b)
    ensures Retained(blocks, PlanFor(blocks, b)) == blocks
    ensures RewindAnswer(blocks, expected) != Rewound
  {
    hide Canonicalize, ValidBlock, SamePayload, ContextOf;
  }

  // Candles

  lemma MinuteSumsOf(c: CandleMap, f: WindowSum)
    requires MinuteSums(MinutesOf(c), f)
    ensures MinuteSums(c, f)
  {
    forall k: Key | k.interval == Minute && Aligned(k)
      ensures SumsRight(c, f, k)
    {
      assert SumsRight(MinutesOf(c), f, k);
      assert Find(MinutesOf(c), k) == Find(c, k);
    }
  }

  /** In every reachable engine the candle of an aligned window, at any of the seven intervals, counts and sums
      exactly the swaps of its pair in that half-open window; its fees, when complete, lose at most two units per
      swap to rounding; and its prices enclose each other. */
  lemma EngineCandles(e: AnalyticsEngine, k: Key)
    requires e.Valid() && Aligned(k)
    ensures StatsOf(Find(e.candles, k)) == Total(RowsOf(e.flowsByPair, k.pair), k.start, k.start + Seconds(k.interval))
    ensures k in e.candles ==>
              var c := e.candles[k];
              && PricesCoherent(c)
              && (!c.stats.missTotal && !c.stats.missProtocol && !c.stats.missLp ==>
                    0 <= c.stats.totalFees - c.stats.protocolFees - c.stats.lpFees <= 2 * c.stats.swaps)
  {
    hide ListingOk, OwnersOk, PoolsOk, Replay, IsRolledUp, Aligned, SwapSums, Total, Flows.SortedByTime,
         AllSplitWell, PricesCoherent, IndexesBuilt;
    MinuteSumsOf(e.candles, SwapSums(e.flowsByPair));
    CandleSums(e.candles, e.flowsByPair, k);
    if k in e.candles {
      RowsOk(e.flowsByPair, k.pair);
      CandleRoundingLoss(e.candles, e.flowsByPair, k);
      forall m | m in e.candles && m.interval == Minute
        ensures PricesCoherent(e.candles[m])
      {
        assert m in MinutesOf(e.candles);
      }
      AllCoherent(e.candles, k);
    }
  }
}
