/** Candles at seven intervals. One-minute candles are the base; every other level is a rollup of the
    level below it, kept up to date bucket by bucket or rebuilt from scratch. */
module Candles {
  import opened Domain
  import opened Flows
  import opened Grid
  import opened PairIndex

  datatype Interval = Minute | FiveMinutes | FifteenMinutes | Hour | FourHours | Day | Week

  function Seconds(i: Interval): int {
    match i
    case Minute => 60
    case FiveMinutes => 300
    case FifteenMinutes => 900
    case Hour => 3_600
    case FourHours => 14_400
    case Day => 86_400
    case Week => 604_800
  }

  /** Weeks start on Monday, four days after the epoch's Thursday. */
  function Offset(i: Interval): int {
    if i == Week then 345_600 else 0
  }

  /** Start of the bucket that holds `t`. */
  function Boundary(t: int, i: Interval): int {
    Floor(t, Seconds(i), Offset(i))
  }

  /** The level a rollup is built from. */
  function SourceOf(i: Interval): Interval {
    match i
    case Week => Day
    case FourHours => Hour
    case Day => Hour
    case _ => Minute
  }

  function Slots(i: Interval): nat {
    match i
    case Minute => 1
    case FiveMinutes => 5
    case FifteenMinutes => 15
    case Hour => 60
    case FourHours => 4
    case Day => 24
    case Week => 7
  }

  datatype Key = Key(pair: Id, interval: Interval, start: int)

  predicate Aligned(k: Key) {
    k.start == Boundary(k.start, k.interval)
  }

  function Bucket(pair: Id, interval: Interval, t: int): Key {
    Key(pair, interval, Boundary(t, interval))
  }

  /** The source bucket in slot `j` of a bucket, counted in steps of the source level. */
  function Slot(k: Key, j: nat): Key {
    Key(k.pair, SourceOf(k.interval), SlotStart(k.start, Seconds(SourceOf(k.interval)), j))
  }

  function SlotStart(start: int, step: int, j: nat): int {
    if j == 0 then start else SlotStart(start, step, j - 1) + step
  }

  datatype Candle = Candle(open: Option<int>, high: Option<int>, low: Option<int>, close: Option<int>,
                           stats: Stats, tvl: Option<int>, missing: set<Id>,
                           firstBlock: int, lastBlock: int, firstHash: Id, lastHash: Id,
                           revision: nat, source: Option<PriceSource>, quoteToken: Id)

  type CandleMap = map<Key, Candle>

  function Find(c: CandleMap, k: Key): Option<Candle> {
    if k in c then Some(c[k]) else None
  }

  function NewCandle(block: int, blockHash: Id, quoteToken: Id): Candle {
    Candle(None, None, None, None, ZERO, None, {}, block, block, blockHash, blockHash, 0, None, quoteToken)
  }

  function MergePriceSource(current: Option<PriceSource>, next: PriceSource): PriceSource {
    if current.None? || current.value == next then next else Mixed
  }

  function Higher(a: Option<int>, b: int): Option<int> {
    if a.None? || b > a.value then Some(b) else a
  }

  function Lower(a: Option<int>, b: int): Option<int> {
    if a.None? || b < a.value then Some(b) else a
  }

  /** A minute candle after a market event published `pair`. */
  function Touched(c: Candle, pair: PairState): Candle {
    var marked := c.(tvl := pair.tvlUsd, lastBlock := pair.block, lastHash := pair.blockHash,
                     revision := c.revision + 1, source := Some(MergePriceSource(c.source, pair.priceSource)),
                     missing := c.missing + pair.missing);
    if pair.priceUsd.None? then marked
    else
      var price := pair.priceUsd.value;
      marked.(open := c.open.Or(Some(price)), high := Higher(c.high, price), low := Lower(c.low, price),
              close := Some(price))
  }

  /** A minute candle after a swap with the given flow row. */
  function WithSwap(c: Candle, row: FlowRow): Candle {
    c.(stats := Plus(c.stats, RowStats(row)), revision := c.revision + 1, missing := c.missing + row.missing)
  }

  function Created(source: Candle): Candle {
    Candle(None, None, None, None, ZERO, None, {}, source.firstBlock, source.lastBlock,
           source.firstHash, source.lastHash, 0, None, source.quoteToken)
  }

  function Merged(rollup: Candle, source: Candle): Candle {
    Candle(rollup.open.Or(source.open),
           if source.high.Some? then Higher(rollup.high, source.high.value) else rollup.high,
           if source.low.Some? then Lower(rollup.low, source.low.value) else rollup.low,
           source.close.Or(rollup.close),
           Plus(rollup.stats, source.stats), source.tvl, rollup.missing + source.missing,
           rollup.firstBlock, source.lastBlock, rollup.firstHash, source.lastHash,
           rollup.revision + source.revision,
           Some(MergePriceSource(rollup.source, source.source.GetOr(TrustedToken))), rollup.quoteToken)
  }

  function Absorb(rollup: Option<Candle>, source: Option<Candle>): Option<Candle> {
    if source.None? then rollup
    else if rollup.None? then Some(Merged(Created(source.value), source.value))
    else Some(Merged(rollup.value, source.value))
  }

  /** The rollup of the first `n` slots of a bucket. */
  function Rolled(c: CandleMap, k: Key, n: nat): Option<Candle> {
    if n == 0 then None else Absorb(Rolled(c, k, n - 1), Find(c, Slot(k, n - 1)))
  }

  /** A bucket holds exactly the rollup of all its slots. */
  ghost predicate BucketRight(c: CandleMap, k: Key) {
    Find(c, k) == if Aligned(k) then Rolled(c, k, Slots(k.interval)) else None
  }

  ghost predicate MinutesAligned(c: CandleMap) {
    forall k :: k in c && k.interval == Minute ==> Aligned(k)
  }

  /** Every level above the minutes is the rollup of the level below it. */
  ghost predicate IsRolledUp(c: CandleMap) {
    && MinutesAligned(c)
    && forall k: Key :: k.interval != Minute ==> BucketRight(c, k)
  }

  /** All buckets are right except possibly the listed (pair, interval) buckets that hold `t`. */
  ghost predicate RightExcept(c: CandleMap, stale: set<(Id, Interval)>, t: int) {
    && MinutesAligned(c)
    && forall k: Key :: k.interval != Minute && !((k.pair, k.interval) in stale && k.start == Boundary(t, k.interval))
                        ==> BucketRight(c, k)
  }

  function MinutesOf(c: CandleMap): CandleMap {
    map k | k in c && k.interval == Minute :: c[k]
  }

  // Boundaries

  lemma BoundaryHolds(t: int, i: Interval)
    ensures Boundary(t, i) <= t < Boundary(t, i) + Seconds(i)
    ensures Boundary(Boundary(t, i), i) == Boundary(t, i)
  {
    FloorHolds(t, Seconds(i), Offset(i));
  }

  /** Buckets of one level tile the time line. */
  lemma BoundaryTiles(t: int, s: int, i: Interval)
    requires s == Boundary(s, i)
    ensures s <= t < s + Seconds(i) <==> Boundary(t, i) == s
  {
    FloorTiles(t, s, Seconds(i), Offset(i));
  }

  function Shift(i: Interval): int {
    if i == Week then 4 else 0
  }

  lemma LevelRatio(i: Interval)
    requires i != Minute
    ensures Seconds(i) == Slots(i) * Seconds(SourceOf(i))
    ensures Offset(i) == Shift(i) * Seconds(SourceOf(i)) && Offset(SourceOf(i)) == 0
  {
  }

  /** Levels nest: the bucket of a time is the bucket of its source bucket, for the minute, hour, day and
      Monday-week grids alike. */
  lemma BoundaryNests(t: int, i: Interval)
    requires i != Minute
    ensures Boundary(Boundary(t, SourceOf(i)), i) == Boundary(t, i)
  {
    LevelRatio(i);
    FloorNests(t, Seconds(SourceOf(i)), Slots(i), Shift(i));
  }

  lemma {:induction false} SlotStartAt(start: int, step: int, j: nat)
    ensures SlotStart(start, step, j) == start + j * step
  {
    if j > 0 {
      SlotStartAt(start, step, j - 1);
      assert j * step == (j - 1) * step + step;
    }
  }

  lemma {:induction false} SlotStartsGrow(start: int, step: int, i: nat, j: nat)
    requires step > 0 && i < j
    ensures SlotStart(start, step, i) < SlotStart(start, step, j)
  {
    if i < j - 1 {
      SlotStartsGrow(start, step, i, j - 1);
    }
  }

  lemma SlotsGrow(k: Key, i: nat, j: nat)
    requires i < j
    ensures Slot(k, i).start < Slot(k, j).start
  {
    SlotStartsGrow(k.start, Seconds(SourceOf(k.interval)), i, j);
  }

  /** The slots before the last are exactly those that start inside the bucket. */
  lemma SlotInside(k: Key, j: nat)
    requires k.interval != Minute
    ensures Slot(k, j).start < k.start + Seconds(k.interval) <==> j < Slots(k.interval)
    ensures Slot(k, Slots(k.interval)).start == k.start + Seconds(k.interval)
  {
    var step := Seconds(SourceOf(k.interval));
    LevelRatio(k.interval);
    SlotStartAt(k.start, step, Slots(k.interval));
    if j < Slots(k.interval) {
      SlotsGrow(k, j, Slots(k.interval));
    } else if Slots(k.interval) < j {
      SlotsGrow(k, Slots(k.interval), j);
    }
  }

  /** A slot of an aligned bucket is an aligned source bucket inside it. */
  lemma SlotAligned(k: Key, j: nat)
    requires Aligned(k) && k.interval != Minute && j < Slots(k.interval)
    ensures Aligned(Slot(k, j))
    ensures Boundary(Slot(k, j).start, k.interval) == k.start
  {
    LevelRatio(k.interval);
    SlotStartAt(k.start, Seconds(SourceOf(k.interval)), j);
    SlotInCell(k.start, j, Seconds(SourceOf(k.interval)), Slots(k.interval), Shift(k.interval));
  }

  /** An aligned source bucket occupies a slot of the bucket that holds its start. */
  lemma SlotOf(k: Key, s: Key) returns (j: nat)
    requires Aligned(k) && Aligned(s) && s.pair == k.pair
    requires k.interval != Minute && s.interval == SourceOf(k.interval)
    requires Boundary(s.start, k.interval) == k.start
    ensures j < Slots(k.interval) && Slot(k, j) == s
  {
    LevelRatio(k.interval);
    BoundaryTiles(s.start, k.start, k.interval);
    j := CellSlot(k.start, s.start, Seconds(SourceOf(k.interval)), Slots(k.interval), Shift(k.interval));
    SlotStartAt(k.start, Seconds(SourceOf(k.interval)), j);
  }

  // Rollups

  /** A rollup depends only on the candles in its slots. */
  lemma {:induction false} RolledFrame(a: CandleMap, b: CandleMap, k: Key, n: nat)
    requires forall j: nat :: j < n ==> Find(a, Slot(k, j)) == Find(b, Slot(k, j))
    ensures Rolled(a, k, n) == Rolled(b, k, n)
  {
    if n > 0 {
      RolledFrame(a, b, k, n - 1);
    }
  }

  /** A source candle later than everything seen so far is absorbed last. */
  lemma {:induction false} RolledAppend(seen: CandleMap, s: Key, candle: Candle, k: Key, n: nat, at: nat)
    requires at < n && Slot(k, at) == s && s !in seen
    requires forall j: nat :: at < j < n ==> Slot(k, j) !in seen
    ensures Rolled(seen[s := candle], k, n) == Absorb(Rolled(seen, k, n), Some(candle))
  {
    var after := seen[s := candle];
    if n - 1 == at {
      forall j: nat | j < n - 1
        ensures Find(seen, Slot(k, j)) == Find(after, Slot(k, j))
      {
        SlotsGrow(k, j, at);
      }
      RolledFrame(seen, after, k, n - 1);
      assert Find(seen, Slot(k, n - 1)) == None;
    } else {
      RolledAppend(seen, s, candle, k, n - 1, at);
      SlotsGrow(k, at, n - 1);
      assert Find(seen, Slot(k, n - 1)) == None && Find(after, Slot(k, n - 1)) == None;
    }
  }

  /** The rolled-up levels are determined by the minutes. */
  lemma LevelUnique(a: CandleMap, b: CandleMap, k: Key)
    requires IsRolledUp(a) && IsRolledUp(b)
    requires forall m: Key :: m.interval == Minute ==> Find(a, m) == Find(b, m)
    ensures Find(a, k) == Find(b, k)
    decreases Seconds(k.interval)
  {
    if k.interval != Minute {
      assert BucketRight(a, k) && BucketRight(b, k);
      if Aligned(k) {
        var n := Slots(k.interval);
        forall j: nat | j < n
          ensures Find(a, Slot(k, j)) == Find(b, Slot(k, j))
        {
          LevelUnique(a, b, Slot(k, j));
        }
        RolledFrame(a, b, k, n);
      }
    }
  }

  lemma RolledUpUnique(a: CandleMap, b: CandleMap)
    requires IsRolledUp(a) && IsRolledUp(b) && MinutesOf(a) == MinutesOf(b)
    ensures a == b
  {
    forall m: Key | m.interval == Minute
      ensures Find(a, m) == Find(b, m)
    {
      assert m in a <==> m in MinutesOf(a);
      assert m in b <==> m in MinutesOf(b);
    }
    forall k
      ensures k in a <==> k in b
      ensures k in a && k in b ==> a[k] == b[k]
    {
      LevelUnique(a, b, k);
    }
  }
}
