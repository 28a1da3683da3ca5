/** First and last blocks of candles, told from the retained blocks. */
module BlockRanges {
  // At every interval they come from the earliest and the latest minute in which the pair moved, and the browser
  // accepts a candle exactly when these two run forward.

  import opened Domain
  import opened PairIndex
  import opened Flows
  import opened Candles
  import opened CandleTheorems
  import opened Chain
  import opened Projection
  import opened ViewInvariants
  import opened EngineSpec
  import opened Engine
  import opened ChainTime

  /** First and last block of a candle. */
  datatype Range = Range(first: int, last: int)

  function RangeOf(c: CandleMap, k: Key): Option<Range> {
    if k in c then Some(Range(c[k].firstBlock, c[k].lastBlock)) else None
  }

  /** The range after a block of the given number, which moves the candle or not. */
  function Extended(r: Option<Range>, moved: bool, number: int): Option<Range> {
    if !moved then r else Some(Range(if r.Some? then r.value.first else number, number))
  }

  /** The block holds a market event of the candle's pair at a time in the candle's window. */
  predicate Moves(b: Block, k: Key) {
    k.pair in MarketPairs(b.events) && Boundary(b.timestamp, k.interval) == k.start
  }

  /** The range of a minute candle, folded over the blocks. */
  function RangeIn(blocks: seq<Block>, k: Key): Option<Range> {
    if blocks == [] then None
    else
      var last := blocks[|blocks| - 1];
      Extended(RangeIn(blocks[..|blocks| - 1], k), Moves(last, k), last.number)
  }

  // Minute candles follow the blocks

  ghost predicate RangesAfter(before: CandleMap, after: CandleMap, pairs: set<Id>, b: Block) {
    forall k: Key :: k.interval == Minute ==>
      RangeOf(after, k)
      == Extended(RangeOf(before, k), k.pair in pairs && Boundary(b.timestamp, Minute) == k.start, b.number)
  }

  lemma TouchedRanges(minutes: CandleMap, state: PairState, b: Block)
    requires state.block == b.number && state.timestamp == b.timestamp
    ensures RangesAfter(minutes, TouchedAt(minutes, state), {state.ident.pair}, b)
  {
    hide Boundary;
    TouchedRange(minutes, state);
  }

  lemma SwappedRanges(minutes: CandleMap, state: PairState, row: FlowRow)
    requires MinuteKey(state) in minutes
    ensures forall k: Key :: RangeOf(WithSwapAt(minutes, state, row), k) == RangeOf(minutes, k)
  {
    hide Boundary;
    SwappedRange(minutes, state, row);
  }

  lemma MarketRanges(policies: Policies, v: View, e: Event, b: Block)
    requires e.IsMarket() && AfterMarket(policies, v, e, b).ok
    ensures RangesAfter(v.minutes, AfterMarket(policies, v, e, b).view.minutes, {e.ident.pair}, b)
  {
    hide Published, TouchedAt, WithSwapAt, SwapRow, QuotesAt, SamePairIdentity, AfterLiquidity, AfterObservation,
         WithRow, Projection.Listed, RangeOf, Extended;
    var current := CurrentPair(v.listing, e.ident.pair);
    var q := QuotesAt(policies, v.book, e.ident, b.timestamp);
    var state := Published(current, e, b, q);
    PublishedAt(current, e, b, q);
    TouchedRanges(v.minutes, state, b);
    if e.Swap? {
      TouchedHas(v.minutes, state);
      SwappedRanges(TouchedAt(v.minutes, state), state, SwapRow(e, state, q));
    }
  }

  lemma EventRanges(policies: Policies, v: View, e: Event, b: Block, index: nat)
    requires AfterEvent(policies, v, e, b, index).ok
    ensures RangesAfter(v.minutes, AfterEvent(policies, v, e, b, index).view.minutes,
                        if e.IsMarket() then {e.ident.pair} else {}, b)
  {
    hide AfterMarket, AfterSnapshot, AfterTransfer, QuotesAt, ActivityRow;
    if e.IsMarket() {
      MarketRanges(policies, Logged(v, e, b, index), e, b);
    }
  }

  lemma RangesTwice(a: CandleMap, m: CandleMap, z: CandleMap, pairs: set<Id>, more: set<Id>, b: Block)
    requires RangesAfter(a, m, pairs, b) && RangesAfter(m, z, more, b)
    ensures RangesAfter(a, z, pairs + more, b)
  {
    hide Boundary, RangeOf;
  }

  lemma MarketPairsMore(init: seq<Event>, e: Event)
    ensures MarketPairs(init + [e]) == MarketPairs(init) + if e.IsMarket() then {e.ident.pair} else {}
  {
    forall p: Id
      ensures p in MarketPairs(init + [e]) <==>
              p in MarketPairs(init) + if e.IsMarket() then {e.ident.pair} else {}
    {
      if p in MarketPairs(init) {
        var x :| x in init && x.IsMarket() && x.ident.pair == p;
        assert x in init + [e];
      }
      if e.IsMarket() && e.ident.pair == p {
        assert e in init + [e];
      }
    }
  }

  lemma {:induction false} EventsRanges(policies: Policies, v: View, events: seq<Event>, b: Block)
    requires AfterEvents(policies, v, events, b).ok
    ensures RangesAfter(v.minutes, AfterEvents(policies, v, events, b).view.minutes, MarketPairs(events), b)
  {
    hide AfterEvent, RangesAfter;
    if events == [] {
      NothingMoves(v.minutes, b);
    } else {
      var n := |events| - 1;
      assert events == events[..n] + [events[n]];
      EventsRanges(policies, v, events[..n], b);
      var before := AfterEvents(policies, v, events[..n], b).view;
      EventRanges(policies, before, events[n], b, n);
      MarketPairsMore(events[..n], events[n]);
      RangesTwice(v.minutes, before.minutes, AfterEvents(policies, v, events, b).view.minutes, MarketPairs(events[..n]),
                  if events[n].IsMarket() then {events[n].ident.pair} else {}, b);
    }
  }

  lemma NothingMoves(minutes: CandleMap, b: Block)
    ensures RangesAfter(minutes, minutes, MarketPairs([]), b)
  {
    assert MarketPairs([]) == {};
  }

  lemma {:induction false} ReplayRanges(policies: Policies, blocks: seq<Block>, k: Key)
    requires Replay(policies, blocks).ok && k.interval == Minute
    ensures RangeOf(Replay(policies, blocks).view.minutes, k) == RangeIn(blocks, k)
  {
    hide AfterEvents, RangeOf, Extended, MarketPairs, Boundary;
    if blocks == [] {
      assert RangeOf(EMPTY_VIEW.minutes, k) == None by {
        NoRange(k);
      }
    } else {
      var init, b := blocks[..|blocks| - 1], blocks[|blocks| - 1];
      ReplayRanges(policies, init, k);
      EventsRanges(policies, WithPrices(policies, Replay(policies, init).view, b), b.events, b);
    }
  }

  lemma NoRange(k: Key)
    ensures RangeOf(map[], k) == None
  {
  }

  // Ranges of a minute, as positions in the chain

  ghost predicate MovedBy(blocks: seq<Block>, i: nat, k: Key): (r: bool)
    ensures r ==> i < |blocks|
  {
    i < |blocks| && Moves(blocks[i], k)
  }

  ghost predicate FirstMove(blocks: seq<Block>, i: nat, k: Key) {
    MovedBy(blocks, i, k) && forall n: nat :: MovedBy(blocks, n, k) ==> i <= n
  }

  ghost predicate LastMove(blocks: seq<Block>, i: nat, k: Key) {
    MovedBy(blocks, i, k) && forall n: nat :: MovedBy(blocks, n, k) ==> n <= i
  }

  lemma {:induction false} RangeNone(blocks: seq<Block>, k: Key)
    ensures RangeIn(blocks, k).None? <==> forall n: nat :: !MovedBy(blocks, n, k)
  {
    hide Moves;
    if blocks != [] {
      var init := blocks[..|blocks| - 1];
      RangeNone(init, k);
      assert forall n: nat :: MovedBy(init, n, k) ==> MovedBy(blocks, n, k);
      assert forall n: nat :: MovedBy(blocks, n, k) ==> n == |init| || MovedBy(init, n, k);
      assert Moves(blocks[|init|], k) ==> MovedBy(blocks, |init|, k);
    }
  }

  lemma {:induction false} RangeMoves(blocks: seq<Block>, k: Key) returns (i: nat, j: nat)
    requires RangeIn(blocks, k).Some?
    ensures FirstMove(blocks, i, k) && LastMove(blocks, j, k) && i <= j
    ensures RangeIn(blocks, k) == Some(Range(blocks[i].number, blocks[j].number))
  {
    hide Moves;
    var n := |blocks| - 1;
    var init := blocks[..n];
    assert forall m: nat :: MovedBy(init, m, k) ==> MovedBy(blocks, m, k);
    assert forall m: nat :: MovedBy(blocks, m, k) ==> m == n || MovedBy(init, m, k);
    if RangeIn(init, k).Some? {
      i, j := RangeMoves(init, k);
      assert init[i] == blocks[i] && init[j] == blocks[j];
    } else {
      RangeNone(init, k);
      i := n;
    }
    if Moves(blocks[n], k) {
      assert MovedBy(blocks, n, k);
      j := n;
    }
  }

  lemma {:induction false} NumbersGrow(blocks: seq<Block>, i: nat, j: nat)
    requires CanonicalChain(blocks) && i < j < |blocks|
    ensures blocks[i].number < blocks[j].number
  {
    hide CanonicalChain, ContextOf, Canonicalize, ValidBlock;
    PrefixCanonical(blocks, j);
    assert blocks[..j] != [] && blocks[..j][j - 1] == blocks[j - 1];
    if i < j - 1 {
      NumbersGrow(blocks, i, j - 1);
    }
  }

  // Every level takes its ends from the outermost minutes

  /** A nonempty rollup takes its first block from the first slot that holds a candle and its last block from the
      last one. */
  lemma {:induction false} RolledEdges(c: CandleMap, k: Key, n: nat) returns (i: nat, j: nat)
    requires Rolled(c, k, n).Some?
    ensures i < n && j < n && Slot(k, i) in c && Slot(k, j) in c
    ensures forall m: nat :: m < n && Slot(k, m) in c ==> i <= m <= j
    ensures Rolled(c, k, n).value.firstBlock == c[Slot(k, i)].firstBlock
    ensures Rolled(c, k, n).value.lastBlock == c[Slot(k, j)].lastBlock
  {
    hide Plus, MergePriceSource;
    if Rolled(c, k, n - 1).Some? {
      i, j := RolledEdges(c, k, n - 1);
      if Slot(k, n - 1) in c {
        j := n - 1;
      }
    } else {
      RolledNothing(c, k, n - 1);
      i, j := n - 1, n - 1;
    }
  }

  lemma {:induction false} RolledNothing(c: CandleMap, k: Key, n: nat)
    ensures Rolled(c, k, n).None? <==> forall m: nat :: m < n ==> Slot(k, m) !in c
  {
    hide Merged, Created;
    if n > 0 {
      RolledNothing(c, k, n - 1);
    }
  }

  /** Minutes nest in the buckets of every level. */
  lemma {:induction false} MinuteNests(t: int, i: Interval)
    ensures Boundary(Boundary(t, Minute), i) == Boundary(t, i)
    decreases Seconds(i)
  {
    if i == Minute {
      BoundaryHolds(t, Minute);
    } else {
      var m := Boundary(t, Minute);
      MinuteNests(t, SourceOf(i));
      BoundaryNests(t, i);
      BoundaryNests(m, i);
    }
  }

  /** A minute candle of the bucket's pair inside the bucket. */
  ghost predicate MinuteIn(c: CandleMap, m: Key, k: Key): (r: bool)
    ensures r ==> m in c && m.interval == Minute && m.pair == k.pair
  {
    m in c && m.interval == Minute && m.pair == k.pair && Boundary(m.start, k.interval) == k.start
  }

  /** A bucket that holds a minute candle holds a candle. */
  lemma {:induction false} MinuteShows(c: CandleMap, m: Key, k: Key)
    requires IsRolledUp(c) && MinuteIn(c, m, k)
    ensures k in c
    decreases Seconds(k.interval)
  {
    if k.interval == Minute {
      assert Aligned(m);
    } else {
      var s := SourceBucket(c, m, k);
      MinuteShows(c, m, s);
      var n := SlotOf(k, s);
      assert BucketRight(c, k);
      RolledNothing(c, k, Slots(k.interval));
    }
  }

  /** The source bucket of the minute lies in the bucket. */
  lemma SourceBucket(c: CandleMap, m: Key, k: Key) returns (s: Key)
    requires MinuteIn(c, m, k) && k.interval != Minute
    ensures s == Bucket(m.pair, SourceOf(k.interval), m.start)
    ensures MinuteIn(c, m, s) && Aligned(s) && Aligned(k) && Boundary(s.start, k.interval) == k.start
  {
    s := Bucket(m.pair, SourceOf(k.interval), m.start);
    BoundaryHolds(m.start, SourceOf(k.interval));
    BoundaryHolds(m.start, k.interval);
    BoundaryNests(m.start, k.interval);
  }

  lemma InsideUp(c: CandleMap, m: Key, s: Key, k: Key)
    requires MinuteIn(c, m, s) && k.interval != Minute && s.interval == SourceOf(k.interval) && s.pair == k.pair
    requires Boundary(s.start, k.interval) == k.start
    ensures MinuteIn(c, m, k)
  {
    BoundaryNests(m.start, k.interval);
  }

  /** The outermost minutes of a bucket. */
  ghost predicate Edges(c: CandleMap, k: Key, a: Key, b: Key) {
    && MinuteIn(c, a, k) && MinuteIn(c, b, k)
    && forall m :: MinuteIn(c, m, k) ==> a.start <= m.start <= b.start
  }

  /** At every level a candle has the first block of its earliest minute and the last block of its latest. */
  lemma {:induction false} EdgeMinutes(c: CandleMap, k: Key) returns (a: Key, b: Key)
    requires IsRolledUp(c) && k in c
    ensures Edges(c, k, a, b)
    ensures c[k].firstBlock == c[a].firstBlock && c[k].lastBlock == c[b].lastBlock
    decreases Seconds(k.interval)
  {
    hide Rolled;
    if k.interval == Minute {
      a, b := k, k;
      assert MinutesAligned(c);
    } else {
      assert BucketRight(c, k);
      var i, j := RolledEdges(c, k, Slots(k.interval));
      SlotAligned(k, i);
      SlotAligned(k, j);
      var a', b';
      a, a' := EdgeMinutes(c, Slot(k, i));
      b', b := EdgeMinutes(c, Slot(k, j));
      InsideUp(c, a, Slot(k, i), k);
      InsideUp(c, b, Slot(k, j), k);
      forall m | MinuteIn(c, m, k)
        ensures a.start <= m.start <= b.start
      {
        MinuteBetween(c, k, m, i, j, a, b);
      }
    }
  }

  lemma MinuteBetween(c: CandleMap, k: Key, m: Key, i: nat, j: nat, a: Key, b: Key)
    requires IsRolledUp(c) && MinuteIn(c, m, k) && k.interval != Minute
    requires i < Slots(k.interval) && j < Slots(k.interval)
    requires forall n: nat :: n < Slots(k.interval) && Slot(k, n) in c ==> i <= n <= j
    requires MinuteIn(c, a, Slot(k, i)) && MinuteIn(c, b, Slot(k, j))
    requires forall x :: MinuteIn(c, x, Slot(k, i)) ==> a.start <= x.start
    requires forall x :: MinuteIn(c, x, Slot(k, j)) ==> x.start <= b.start
    ensures a.start <= m.start <= b.start
  {
    hide MinuteIn, IsRolledUp, Slot, Boundary, Aligned;
    var s := SourceBucket(c, m, k);
    MinuteShows(c, m, s);
    var n := SlotOf(k, s);
    if i < n {
      SlotsApart(c, k, i, n, a, m);
    }
    if n < j {
      SlotsApart(c, k, n, j, m, b);
    }
  }

  lemma SlotsApart(c: CandleMap, k: Key, i: nat, j: nat, a: Key, b: Key)
    requires Aligned(k) && k.interval != Minute && i < j < Slots(k.interval)
    requires MinuteIn(c, a, Slot(k, i)) && MinuteIn(c, b, Slot(k, j))
    ensures a.start < b.start
  {
    var level := SourceOf(k.interval);
    SlotsGrow(k, i, j);
    SlotAligned(k, i);
    SlotAligned(k, j);
    BoundaryTiles(a.start, Slot(k, i).start, level);
    BoundaryTiles(b.start, Slot(k, j).start, level);
    BoundaryTiles(Slot(k, j).start, Slot(k, i).start, level);
  }

  // Over the retained blocks

  /** The block moves the candle in the earliest minute in which any block does. */
  ghost predicate InFirstMinute(blocks: seq<Block>, i: nat, k: Key) {
    && MovedBy(blocks, i, k)
    && forall n: nat :: MovedBy(blocks, n, k) ==>
         Boundary(blocks[i].timestamp, Minute) <= Boundary(blocks[n].timestamp, Minute)
  }

  ghost predicate InLastMinute(blocks: seq<Block>, i: nat, k: Key) {
    && MovedBy(blocks, i, k)
    && forall n: nat :: MovedBy(blocks, n, k) ==>
         Boundary(blocks[n].timestamp, Minute) <= Boundary(blocks[i].timestamp, Minute)
  }

  /** Some block of the earliest minute is not after some block of the latest minute. */
  ghost predicate RunsForward(blocks: seq<Block>, k: Key) {
    exists i: nat, j: nat :: i <= j && InFirstMinute(blocks, i, k) && InLastMinute(blocks, j, k)
  }

  /** A block moves a candle exactly when it moves the minute candle of its own time inside it. */
  lemma MovesMinute(b: Block, k: Key)
    ensures var m := Bucket(k.pair, Minute, b.timestamp);
            Moves(b, k) <==> Moves(b, m) && Boundary(m.start, k.interval) == k.start
  {
    MinuteNests(b.timestamp, k.interval);
  }

  /** The minute candles of a replayed chain have the ranges of its blocks. */
  ghost predicate RangesOfBlocks(c: CandleMap, blocks: seq<Block>) {
    forall m: Key :: m.interval == Minute ==> RangeOf(c, m) == RangeIn(blocks, m)
  }

  lemma EngineRanges(e: AnalyticsEngine)
    requires e.Valid()
    ensures IsRolledUp(e.candles) && RangesOfBlocks(e.candles, e.blocks)
  {
    hide ViewOk, CanonicalChain, ContextOf, Replay, RangeOf, RangeIn, IndexesBuilt, IsRolledUp;
    forall m: Key | m.interval == Minute
      ensures RangeOf(e.candles, m) == RangeIn(e.blocks, m)
    {
      ReplayRanges(e.policies, e.blocks, m);
      MinuteRange(e.candles, m);
    }
  }

  lemma MinuteRange(c: CandleMap, m: Key)
    requires m.interval == Minute
    ensures RangeOf(MinutesOf(c), m) == RangeOf(c, m)
  {
  }

  /** A block that moves a candle lies in one of its minutes. */
  lemma MovedMinute(c: CandleMap, blocks: seq<Block>, n: nat, k: Key)
    requires RangesOfBlocks(c, blocks) && MovedBy(blocks, n, k)
    ensures var m := Bucket(k.pair, Minute, blocks[n].timestamp); MinuteIn(c, m, k) && MovedBy(blocks, n, m)
  {
    hide Moves, Boundary, RangeIn;
    var m := Bucket(k.pair, Minute, blocks[n].timestamp);
    MovesMinute(blocks[n], k);
    assert MovedBy(blocks, n, m);
    RangeNone(blocks, m);
    assert RangeOf(c, m) == RangeIn(blocks, m);
  }

  /** A block of a minute of the bucket moves the bucket's candle. */
  lemma MinuteMoves(c: CandleMap, blocks: seq<Block>, n: nat, m: Key, k: Key)
    requires MinuteIn(c, m, k) && MovedBy(blocks, n, m)
    ensures MovedBy(blocks, n, k) && Boundary(blocks[n].timestamp, Minute) == m.start
  {
    MovesMinute(blocks[n], k);
  }

  /** The candles of an engine are those that some retained block moves. */
  lemma CandlesOfBlocks(e: AnalyticsEngine, k: Key)
    requires e.Valid()
    ensures k in e.candles <==> exists n: nat :: MovedBy(e.blocks, n, k)
  {
    hide AnalyticsEngine.Valid, IsRolledUp, MovedBy, MinuteIn, RangeIn, RangesOfBlocks;
    EngineRanges(e);
    if k in e.candles {
      var a, b := EdgeMinutes(e.candles, k);
      assert MinuteIn(e.candles, a, k);
      var i, j := MinuteBlocks(e.candles, e.blocks, a, k);
      MinuteMoves(e.candles, e.blocks, i, a, k);
    }
    if n: nat :| MovedBy(e.blocks, n, k) {
      MovedMinute(e.candles, e.blocks, n, k);
      MinuteShows(e.candles, Bucket(k.pair, Minute, e.blocks[n].timestamp), k);
    }
  }

  lemma MinuteBlocks(c: CandleMap, blocks: seq<Block>, m: Key, k: Key) returns (i: nat, j: nat)
    requires RangesOfBlocks(c, blocks) && MinuteIn(c, m, k)
    ensures FirstMove(blocks, i, m) && LastMove(blocks, j, m) && i <= j
    ensures c[m].firstBlock == blocks[i].number && c[m].lastBlock == blocks[j].number
  {
    hide RangeIn, MovedBy;
    assert RangeOf(c, m) == RangeIn(blocks, m);
    i, j := RangeMoves(blocks, m);
  }

  /** The candle's ends are blocks of its earliest and of its latest minute. */
  lemma EndsForward(c: CandleMap, blocks: seq<Block>, k: Key)
    requires IsRolledUp(c) && RangesOfBlocks(c, blocks) && CanonicalChain(blocks) && k in c
    ensures c[k].firstBlock <= c[k].lastBlock <==> RunsForward(blocks, k)
  {
    hide IsRolledUp, RangesOfBlocks, CanonicalChain, MinuteIn, MovedBy, Boundary;
    var a, b := EdgeMinutes(c, k);
    var i0, i1 := MinuteBlocks(c, blocks, a, k);
    var j0, j1 := MinuteBlocks(c, blocks, b, k);
    EdgeInFirst(c, blocks, k, a, b, i0);
    EdgeInLast(c, blocks, k, a, b, j1);
    Ordered(blocks, i0, j1, k);
    if i: nat, j: nat :| i <= j && InFirstMinute(blocks, i, k) && InLastMinute(blocks, j, k) {
      MovedMinute(c, blocks, i, k);
      MovedMinute(c, blocks, j, k);
      assert MovedBy(blocks, i, a) && MovedBy(blocks, j, b) by {
        SameFirstMinute(blocks, i, i0, k, a);
        SameLastMinute(blocks, j, j1, k, b);
      }
    }
  }

  lemma SameFirstMinute(blocks: seq<Block>, i: nat, i0: nat, k: Key, a: Key)
    requires InFirstMinute(blocks, i, k) && InFirstMinute(blocks, i0, k)
    requires a.pair == k.pair && a.interval == Minute && MovedBy(blocks, i0, a)
    ensures MovedBy(blocks, i, a)
  {
    hide Boundary;
    assert MovedBy(blocks, i0, k);
  }

  lemma SameLastMinute(blocks: seq<Block>, j: nat, j1: nat, k: Key, b: Key)
    requires InLastMinute(blocks, j, k) && InLastMinute(blocks, j1, k)
    requires b.pair == k.pair && b.interval == Minute && MovedBy(blocks, j1, b)
    ensures MovedBy(blocks, j, b)
  {
    hide Boundary;
    assert MovedBy(blocks, j1, k);
  }

  lemma Ordered(blocks: seq<Block>, i: nat, j: nat, k: Key)
    requires CanonicalChain(blocks) && i < |blocks| && j < |blocks|
    ensures blocks[i].number <= blocks[j].number <==> i <= j
  {
    hide CanonicalChain;
    if i < j {
      NumbersGrow(blocks, i, j);
    } else if j < i {
      NumbersGrow(blocks, j, i);
    }
  }

  lemma EdgeInFirst(c: CandleMap, blocks: seq<Block>, k: Key, a: Key, b: Key, i: nat)
    requires RangesOfBlocks(c, blocks) && Edges(c, k, a, b) && MovedBy(blocks, i, a)
    ensures InFirstMinute(blocks, i, k)
  {
    hide RangesOfBlocks, MinuteIn, MovedBy, Boundary;
    MinuteMoves(c, blocks, i, a, k);
    forall n: nat | MovedBy(blocks, n, k)
      ensures Boundary(blocks[i].timestamp, Minute) <= Boundary(blocks[n].timestamp, Minute)
    {
      MovedMinute(c, blocks, n, k);
    }
  }

  lemma EdgeInLast(c: CandleMap, blocks: seq<Block>, k: Key, a: Key, b: Key, j: nat)
    requires RangesOfBlocks(c, blocks) && Edges(c, k, a, b) && MovedBy(blocks, j, b)
    ensures InLastMinute(blocks, j, k)
  {
    hide RangesOfBlocks, MinuteIn, MovedBy, Boundary;
    MinuteMoves(c, blocks, j, b, k);
    forall n: nat | MovedBy(blocks, n, k)
      ensures Boundary(blocks[n].timestamp, Minute) <= Boundary(blocks[j].timestamp, Minute)
    {
      MovedMinute(c, blocks, n, k);
    }
  }

  /** Main result: whatever the block times, the browser accepts a candle of the engine exactly when some retained
      block of its earliest minute is not after some retained block of its latest minute; minute candles always
      pass. */
  lemma EngineCandleAcceptedIff(e: AnalyticsEngine, k: Key)
    requires e.Valid() && k in e.candles
    ensures BrowserAccepts(Finalize(k, e.candles[k])) <==> RunsForward(e.blocks, k)
    ensures k.interval == Minute ==> BrowserAccepts(Finalize(k, e.candles[k]))
  {
    hide ListingOk, OwnersOk, PoolsOk, FlowsOk, IsRolledUp, Replay, CanonicalChain, ContextOf, BrowserAccepts,
         Finalize, IndexesBuilt, SwapSums, Aligned, PricesCoherent, RangesOfBlocks, RunsForward;
    EngineRanges(e);
    CandleAligned(e.candles, k);
    forall m | m in e.candles && m.interval == Minute
      ensures PricesCoherent(e.candles[m])
    {
      assert m in MinutesOf(e.candles);
    }
    AllCoherent(e.candles, k);
    AcceptedIffForward(k, e.candles[k]);
    EndsForward(e.candles, e.blocks, k);
    if k.interval == Minute {
      MinuteForward(e.candles, e.blocks, k);
    }
  }

  lemma MinuteForward(c: CandleMap, blocks: seq<Block>, k: Key)
    requires RangesOfBlocks(c, blocks) && CanonicalChain(blocks) && k in c && k.interval == Minute && Aligned(k)
    ensures c[k].firstBlock <= c[k].lastBlock
  {
    hide CanonicalChain, MovedBy, RangesOfBlocks, Boundary;
    var i, j := MinuteBlocks(c, blocks, k, k);
    Ordered(blocks, i, j, k);
  }
}
