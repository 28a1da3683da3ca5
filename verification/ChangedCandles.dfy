/** The candle keys an append reports: which candles they cover, and when they miss one.
    A block changes minute candles only at its own time and only for the pairs it mentions, and such a change
    can reach only the buckets of that time on higher levels. Those buckets, and the ones that the new
    head finalizes, are what an append reports. When block times never decrease, every candle outside the
    report keeps its content and its finality. */
module ChangedCandles {
  import opened Domain
  import opened PairIndex
  import opened Candles
  import opened CandleTheorems
  import opened Rollups
  import opened Chain
  import opened Projection
  import opened EngineSpec
  import opened ChainTime

  // What a block changes

  lemma PutIsLocal(minutes: CandleMap, state: PairState, c: Candle)
    ensures LocalChange(minutes, minutes[MinuteKey(state) := c], {state.ident.pair}, state.timestamp)
  {
  }

  lemma MarketLocal(policies: Policies, v: View, e: Event, b: Block)
    requires e.IsMarket()
    ensures LocalChange(v.minutes, AfterMarket(policies, v, e, b).view.minutes, {e.ident.pair}, b.timestamp)
  {
    hide Published, SwapRow, QuotesAt, SamePairIdentity, AfterLiquidity, AfterObservation, WithRow, MinuteKey, CandleOr,
         Listed, LocalChange, Touched, WithSwap;
    var current := CurrentPair(v.listing, e.ident.pair);
    var q := QuotesAt(policies, v.book, e.ident, b.timestamp);
    var state := Published(current, e, b, q);
    PublishedAt(current, e, b, q);
    var touched := TouchedAt(v.minutes, state);
    PutIsLocal(v.minutes, state, Touched(CandleOr(v.minutes, state), state));
    LocalSelf(v.minutes, {e.ident.pair}, b.timestamp);
    if e.Swap? {
      var row := SwapRow(e, state, q);
      PutIsLocal(touched, state, WithSwap(CandleOr(touched, state), row));
      LocalChangeTwice(v.minutes, touched, WithSwapAt(touched, state, row), {e.ident.pair}, b.timestamp);
    }
  }

  lemma LocalMore(a: CandleMap, b: CandleMap, pairs: set<Id>, more: set<Id>, t: int)
    requires LocalChange(a, b, pairs, t) && pairs <= more
    ensures LocalChange(a, b, more, t)
  {
  }

  lemma EventLocal(policies: Policies, v: View, e: Event, b: Block, index: nat, pairs: set<Id>)
    requires e.IsMarket() ==> e.ident.pair in pairs
    ensures LocalChange(v.minutes, AfterEvent(policies, v, e, b, index).view.minutes, pairs, b.timestamp)
  {
    hide LocalChange, AfterMarket, AfterSnapshot, AfterTransfer, QuotesAt, ActivityRow;
    var logged := Logged(v, e, b, index);
    if e.IsMarket() {
      MarketLocal(policies, logged, e, b);
      LocalMore(v.minutes, AfterMarket(policies, logged, e, b).view.minutes, {e.ident.pair}, pairs, b.timestamp);
    } else {
      LocalSelf(v.minutes, pairs, b.timestamp);
    }
  }

  lemma {:induction false} EventsLocal(policies: Policies, v: View, events: seq<Event>, b: Block, pairs: set<Id>)
    requires forall e :: e in events && e.IsMarket() ==> e.ident.pair in pairs
    ensures LocalChange(v.minutes, AfterEvents(policies, v, events, b).view.minutes, pairs, b.timestamp)
  {
    hide LocalChange, AfterEvent;
    if events == [] {
      LocalSelf(v.minutes, pairs, b.timestamp);
    } else {
      var n := |events| - 1;
      EventsLocal(policies, v, events[..n], b, pairs);
      var before := AfterEvents(policies, v, events[..n], b).view;
      EventLocal(policies, before, events[n], b, n, pairs);
      LocalChangeTwice(v.minutes, before.minutes, AfterEvent(policies, before, events[n], b, n).view.minutes, pairs,
                       b.timestamp);
    }
  }

  /** A block changes minute candles only of its market events' pairs, in its own minute. */
  lemma BlockLocal(policies: Policies, v: View, b: Block)
    ensures LocalChange(v.minutes, AfterBlock(policies, v, b).view.minutes, MarketPairs(b.events), b.timestamp)
  {
    hide LocalChange, AfterEvents;
    EventsLocal(policies, WithPrices(policies, v, b), b.events, b, MarketPairs(b.events));
  }

  /** Through the levels above, such a change reaches only the buckets that hold the block's time. */
  lemma {:induction false} ChangeReachesBuckets(c0: CandleMap, c1: CandleMap, pairs: set<Id>, t: int, k: Key)
    requires IsRolledUp(c0) && IsRolledUp(c1)
    requires LocalChange(MinutesOf(c0), MinutesOf(c1), pairs, t) && k !in BucketsAt(pairs, t)
    ensures Find(c0, k) == Find(c1, k)
    decreases Seconds(k.interval)
  {
    if k.interval == Minute {
      MinuteUnchanged(c0, c1, pairs, t, k);
    } else {
      assert BucketRight(c0, k) && BucketRight(c1, k);
      if Aligned(k) {
        forall j: nat | j < Slots(k.interval)
          ensures Find(c0, Slot(k, j)) == Find(c1, Slot(k, j))
        {
          SlotOutside(k, j, pairs, t);
          ChangeReachesBuckets(c0, c1, pairs, t, Slot(k, j));
        }
        RolledFrame(c0, c1, k, Slots(k.interval));
      }
    }
  }

  lemma InBucketsAt(pairs: set<Id>, t: int, k: Key)
    ensures k in BucketsAt(pairs, t) <==> k.pair in pairs && k.start == Boundary(t, k.interval)
  {
    hide Boundary;
    assert k.interval in INTERVALS by {
      AllIntervals(k.interval);
    }
    if k.pair in pairs && k.start == Boundary(t, k.interval) {
      assert k == Bucket(k.pair, k.interval, t);
    }
  }

  lemma AllIntervals(i: Interval)
    ensures i in INTERVALS
  {
    assert INTERVALS[0] == Minute && INTERVALS[1] == FiveMinutes && INTERVALS[2] == FifteenMinutes
           && INTERVALS[3] == Hour && INTERVALS[4] == FourHours && INTERVALS[5] == Day && INTERVALS[6] == Week;
  }

  lemma MinuteUnchanged(c0: CandleMap, c1: CandleMap, pairs: set<Id>, t: int, k: Key)
    requires k.interval == Minute && LocalChange(MinutesOf(c0), MinutesOf(c1), pairs, t) && k !in BucketsAt(pairs, t)
    ensures Find(c0, k) == Find(c1, k)
  {
    InBucketsAt(pairs, t, k);
    assert Find(MinutesOf(c0), k) == Find(MinutesOf(c1), k);
  }

  lemma SlotOutside(k: Key, j: nat, pairs: set<Id>, t: int)
    requires k.interval != Minute && Aligned(k) && j < Slots(k.interval) && k !in BucketsAt(pairs, t)
    ensures Slot(k, j) !in BucketsAt(pairs, t)
  {
    InBucketsAt(pairs, t, k);
    InBucketsAt(pairs, t, Slot(k, j));
    SlotAligned(k, j);
    BoundaryNests(t, k.interval);
  }

  // Known candles

  ghost predicate Known(c: CandleMap, pairs: set<Id>, t: int) {
    forall k :: k in c ==> k.pair in pairs && k.start <= t
  }

  lemma {:induction false} KnownAbove(c: CandleMap, pairs: set<Id>, t: int, k: Key)
    requires IsRolledUp(c) && Known(MinutesOf(c), pairs, t) && k in c
    ensures k.pair in pairs && k.start <= t
    decreases Seconds(k.interval)
  {
    if k.interval == Minute {
      assert k in MinutesOf(c);
    } else {
      assert BucketRight(c, k);
      var i, _ := RolledRange(c, k, Slots(k.interval));
      KnownAbove(c, pairs, t, Slot(k, i));
      SlotsForward(k, i);
    }
  }

  lemma ReplayKnown(policies: Policies, blocks: seq<Block>)
    requires CanonicalChain(blocks) && TimesOrdered(blocks) && blocks != [] && Replay(policies, blocks).ok
    ensures var v := Replay(policies, blocks).view;
            Known(v.minutes, v.listing.pairs.Keys, blocks[|blocks| - 1].timestamp)
  {
    hide CanonicalChain, Replay, RangesOrdered, Aligned;
    ReplayBy(policies, blocks);
    var v, head := Replay(policies, blocks).view, blocks[|blocks| - 1];
    forall k | k in v.minutes
      ensures k.pair in v.listing.pairs.Keys && k.start <= head.timestamp
    {
      assert MinuteBy(k, v.minutes[k], v.listing.pairs.Keys, head.number, head.timestamp);
    }
  }

  // Finalization

  /** Whether a candle is shown as final under the given head. */
  predicate FinalizedAt(head: Option<int>, k: Key) {
    head.Some? && head.value >= k.start + Seconds(k.interval)
  }

  /** A candle that becomes final is reported exactly when it starts no later than the previous head. A candle that
      ceases to be final, under a head that moves back in time, is reported exactly when it starts no later than the
      next head and the block moves its pair. */
  lemma FlipListedIff(pairs: set<Id>, c: CandleMap, moved: set<Id>, previous: int, next: int, k: Key)
    requires k in c && k.pair in pairs && Aligned(k)
    requires FinalizedAt(Some(previous), k) != FinalizedAt(Some(next), k)
    ensures k in NewlyFinalized(pairs, c, Some(previous), next) + BucketsAt(moved, next) <==>
            if FinalizedAt(Some(next), k) then k.start <= previous else k.start <= next && k.pair in moved
  {
    hide Boundary, BucketsAt;
    InBucketsAt(moved, next, k);
    BoundaryTiles(next, k.start, k.interval);
    if FinalizedAt(Some(next), k) {
      BecomesFinal(pairs, c, previous, next, k);
    }
  }

  lemma BecomesFinal(pairs: set<Id>, c: CandleMap, previous: int, next: int, k: Key)
    requires k in c && k.pair in pairs && Aligned(k)
    requires !FinalizedAt(Some(previous), k) && FinalizedAt(Some(next), k)
    ensures k in NewlyFinalized(pairs, c, Some(previous), next) <==> k.start <= previous
  {
    BoundaryTiles(previous, k.start, k.interval);
    AllIntervals(k.interval);
    if k.start <= previous {
      assert k == Bucket(k.pair, k.interval, previous);
      assert Finalizes(c, Bucket(k.pair, k.interval, previous), previous, next);
    } else if k in NewlyFinalized(pairs, c, Some(previous), next) {
      ListedHoldsPrevious(pairs, c, previous, next, k);
    }
  }

  lemma ListedHoldsPrevious(pairs: set<Id>, c: CandleMap, previous: int, next: int, k: Key)
    requires k in NewlyFinalized(pairs, c, Some(previous), next)
    ensures k.start == Boundary(previous, k.interval)
  {
    hide Boundary, Finalizes;
  }

  /** Main result: when block times never decrease, a candle that an append does not report keeps its content and
      its finality. */
  lemma UnreportedUnchanged(policies: Policies, blocks: seq<Block>, b: Block, c0: CandleMap, c1: CandleMap, k: Key)
    requires CanonicalChain(blocks + [b]) && TimesOrdered(blocks + [b]) && Replay(policies, blocks + [b]).ok
    requires IsRolledUp(c0) && MinutesOf(c0) == Replay(policies, blocks).view.minutes
    requires IsRolledUp(c1) && MinutesOf(c1) == Replay(policies, blocks + [b]).view.minutes
    requires k !in NewlyFinalized(Replay(policies, blocks).view.listing.pairs.Keys, c0, HeadTimestamp(blocks), b.timestamp)
                   + BucketsAt(MarketPairs(b.events), b.timestamp)
    ensures Find(c0, k) == Find(c1, k)
    ensures k in c0 ==> (FinalizedAt(HeadTimestamp(blocks), k) <==> FinalizedAt(Some(b.timestamp), k))
  {
    hide CanonicalChain, AfterBlock, IsRolledUp, NewlyFinalized, BucketsAt, MarketPairs, LocalChange, MinutesOf, Known,
         Replay;
    var chain := blocks + [b];
    ReplayAppend(policies, blocks, b);
    assert chain[..|blocks|] == blocks;
    ReplayPrefixOk(policies, chain, |blocks|);
    PrefixCanonical(chain, |blocks|);
    BlockLocal(policies, Replay(policies, blocks).view, b);
    ChangeReachesBuckets(c0, c1, MarketPairs(b.events), b.timestamp, k);
    if k in c0 {
      if blocks == [] {
        EmptyMinutes(policies, blocks);
        NothingKnown(c0, k);
      } else {
        ReplayKnown(policies, blocks);
        var pairs := Replay(policies, blocks).view.listing.pairs.Keys;
        KnownAbove(c0, pairs, blocks[|blocks| - 1].timestamp, k);
        CandleAligned(c0, k);
        assert chain[|blocks| - 1] == blocks[|blocks| - 1] && chain[|blocks|] == b;
        if !FinalizedAt(HeadTimestamp(blocks), k) && FinalizedAt(Some(b.timestamp), k) {
          FlipListedIff(pairs, c0, MarketPairs(b.events), blocks[|blocks| - 1].timestamp, b.timestamp, k);
        }
      }
    }
  }

  lemma NothingKnown(c: CandleMap, k: Key)
    requires IsRolledUp(c) && MinutesOf(c) == map[]
    ensures k !in c
  {
    if k in c {
      KnownAbove(c, {}, 0, k);
    }
  }
}
