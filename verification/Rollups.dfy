/** Keeping the rolled-up candle levels right: one bucket at a time after an append, or all at once.
    After an append only the buckets of the block's time, for the pairs it mentions, can be wrong; they are
    rebuilt from the finest level up, so each one reads sources that are right already. The full build walks
    the sorted keys of a level and merges each candle into its parent. Both end in the one map that is rolled
    up from the same minutes. */
module Rollups {
  import opened Domain
  import opened Candles

  // One bucket

  function AbsorbAll(sources: seq<Candle>): Option<Candle> {
    if sources == [] then None else Absorb(AbsorbAll(sources[..|sources| - 1]), Some(sources[|sources| - 1]))
  }

  /** Replaces one bucket by the rollup of its slots. */
  method RebuildRollupBucket(c: CandleMap, pair: Id, interval: Interval, t: int) returns (r: CandleMap)
    requires interval != Minute
    ensures var k := Bucket(pair, interval, t);
            && Find(r, k) == Rolled(c, k, Slots(interval))
            && forall x: Key :: x != k ==> Find(r, x) == Find(c, x)
  {
    hide Boundary, Seconds, SourceOf, Slots, Created, Merged;
    var key := Bucket(pair, interval, t);
    var sourceInterval := SourceOf(interval);
    var step := Seconds(sourceInterval);
    var sources: seq<Candle> := [];
    var sourceTimestamp := key.start;
    ghost var n: nat := 0;
    while sourceTimestamp < key.start + Seconds(interval)
      invariant n <= Slots(interval) && sourceTimestamp == Slot(key, n).start
      invariant AbsorbAll(sources) == Rolled(c, key, n)
      decreases Slots(interval) - n
    {
      var slot := Key(pair, sourceInterval, sourceTimestamp);
      assert slot == Slot(key, n);
      SlotInside(key, n);
      if slot in c {
        assert (sources + [c[slot]])[..|sources|] == sources;
        sources := sources + [c[slot]];
      }
      sourceTimestamp := sourceTimestamp + step;
      n := n + 1;
    }
    SlotInside(key, n);
    assert n == Slots(interval);
    r := c - {key};
    if sources == [] {
      return;
    }
    var rollup := Created(sources[0]);
    var i := 0;
    while i < |sources|
      invariant i <= |sources|
      invariant i == 0 ==> rollup == Created(sources[0])
      invariant i > 0 ==> AbsorbAll(sources[..i]) == Some(rollup)
    {
      assert sources[..i + 1][..i] == sources[..i];
      rollup := Merged(rollup, sources[i]);
      i := i + 1;
    }
    assert sources[..i] == sources;
    r := r[key := rollup];
  }

  /** Rebuilding a bucket whose sources are right makes it right; only buckets built from it can turn
      stale, and those are the buckets of the same time. */
  lemma RebuildCleans(c: CandleMap, r: CandleMap, pair: Id, interval: Interval, t: int,
                      stale: set<(Id, Interval)>)
    requires interval != Minute && RightExcept(c, stale, t)
    requires forall i: Interval :: i != Minute && SourceOf(i) == interval ==> (pair, i) in stale
    requires var k := Bucket(pair, interval, t);
             && Find(r, k) == Rolled(c, k, Slots(interval))
             && forall x: Key :: x != k ==> Find(r, x) == Find(c, x)
    ensures RightExcept(r, stale - {(pair, interval)}, t)
  {
    var k := Bucket(pair, interval, t);
    BoundaryHolds(t, interval);
    assert Aligned(k);
    assert forall x :: x in r && x.interval == Minute ==> Find(c, x) == Find(r, x) && x in c;
    forall x: Key | x.interval != Minute
                    && !((x.pair, x.interval) in stale - {(pair, interval)} && x.start == Boundary(t, x.interval))
      ensures BucketRight(r, x)
    {
      if x == k {
        SourcesUntouched(c, r, k, k);
      } else if Aligned(x) {
        if x.pair == pair && SourceOf(x.interval) == interval && x.start == Boundary(t, x.interval) {
          assert false;
        } else {
          OtherSourcesUntouched(c, r, k, x, t);
          assert BucketRight(c, x);
        }
      } else {
        assert BucketRight(c, x);
      }
    }
  }

  lemma SourcesUntouched(c: CandleMap, r: CandleMap, k: Key, x: Key)
    requires x.interval != Minute && SourceOf(x.interval) != k.interval
    requires forall y: Key :: y != k ==> Find(r, y) == Find(c, y)
    ensures Rolled(r, x, Slots(x.interval)) == Rolled(c, x, Slots(x.interval))
  {
    RolledFrame(r, c, x, Slots(x.interval));
  }

  /** A bucket of another time does not read the changed candle. */
  lemma OtherSourcesUntouched(c: CandleMap, r: CandleMap, k: Key, x: Key, t: int)
    requires Aligned(x) && x.interval != Minute && k.start == Boundary(t, k.interval)
    requires !(x.pair == k.pair && SourceOf(x.interval) == k.interval && x.start == Boundary(t, x.interval))
    requires forall y: Key :: y != k ==> Find(r, y) == Find(c, y)
    ensures Rolled(r, x, Slots(x.interval)) == Rolled(c, x, Slots(x.interval))
  {
    forall j: nat | j < Slots(x.interval)
      ensures Find(r, Slot(x, j)) == Find(c, Slot(x, j))
    {
      if Slot(x, j) == k {
        SlotAligned(x, j);
        BoundaryNests(t, x.interval);
        assert false;
      }
    }
    RolledFrame(r, c, x, Slots(x.interval));
  }

  // After an append

  /** The six levels of a pair, as stale buckets. */
  function Levels(pair: Id): set<(Id, Interval)> {
    {(pair, FiveMinutes), (pair, FifteenMinutes), (pair, Hour), (pair, FourHours), (pair, Day), (pair, Week)}
  }

  ghost function AllLevels(pairs: set<Id>): set<(Id, Interval)> {
    set p, l | p in pairs && l in Levels(p) :: l
  }

  /** Only minute candles of the listed pairs in the minute of `t` differ. */
  ghost predicate LocalChange(c: CandleMap, r: CandleMap, pairs: set<Id>, t: int) {
    forall x: Key :: !(x.interval == Minute && x.pair in pairs && x.start == Boundary(t, Minute)) ==>
      Find(r, x) == Find(c, x)
  }

  /** Such a change leaves every bucket right but those that hold `t`. */
  lemma MinuteChangeIsLocal(c: CandleMap, r: CandleMap, pairs: set<Id>, t: int)
    requires IsRolledUp(c) && LocalChange(c, r, pairs, t)
    ensures RightExcept(r, AllLevels(pairs), t)
  {
    BoundaryHolds(t, Minute);
    forall x | x in r && x.interval == Minute
      ensures Aligned(x)
    {
      if !(x.pair in pairs && x.start == Boundary(t, Minute)) {
        assert Find(r, x) == Find(c, x);
      }
    }
    forall x: Key | x.interval != Minute
                    && !((x.pair, x.interval) in AllLevels(pairs) && x.start == Boundary(t, x.interval))
      ensures BucketRight(r, x)
    {
      assert BucketRight(c, x);
      if Aligned(x) {
        assert (x.pair, x.interval) in Levels(x.pair);
        forall j: nat | j < Slots(x.interval)
          ensures Find(r, Slot(x, j)) == Find(c, Slot(x, j))
        {
          if Slot(x, j) == Bucket(x.pair, Minute, t) && x.pair in pairs {
            SlotAligned(x, j);
            BoundaryNests(t, x.interval);
            assert false;
          }
        }
        RolledFrame(r, c, x, Slots(x.interval));
      }
    }
  }

  method RebuildLevel(c: CandleMap, pair: Id, interval: Interval, t: int, ghost stale: set<(Id, Interval)>)
    returns (r: CandleMap)
    requires interval != Minute && RightExcept(c, stale, t)
    requires forall i: Interval :: i != Minute && SourceOf(i) == interval ==> (pair, i) in stale
    ensures RightExcept(r, stale - {(pair, interval)}, t)
    ensures MinutesOf(r) == MinutesOf(c)
  {
    r := RebuildRollupBucket(c, pair, interval, t);
    RebuildCleans(c, r, pair, interval, t, stale);
    SameMinutes(c, r, Bucket(pair, interval, t));
  }

  /** Rebuilds the six levels of one changed pair, lower levels first. */
  method RebuildPairLevels(c: CandleMap, pair: Id, t: int, ghost stale: set<(Id, Interval)>) returns (r: CandleMap)
    requires Levels(pair) <= stale && RightExcept(c, stale, t)
    ensures RightExcept(r, stale - Levels(pair), t)
    ensures MinutesOf(r) == MinutesOf(c)
  {
    ghost var s := stale;
    r := RebuildLevel(c, pair, FiveMinutes, t, s);
    s := s - {(pair, FiveMinutes)};
    r := RebuildLevel(r, pair, FifteenMinutes, t, s);
    s := s - {(pair, FifteenMinutes)};
    r := RebuildLevel(r, pair, Hour, t, s);
    s := s - {(pair, Hour)};
    r := RebuildLevel(r, pair, FourHours, t, s);
    s := s - {(pair, FourHours)};
    r := RebuildLevel(r, pair, Day, t, s);
    s := s - {(pair, Day)};
    r := RebuildLevel(r, pair, Week, t, s);
    s := s - {(pair, Week)};
    assert s == stale - Levels(pair);
  }

  lemma SameMinutes(c: CandleMap, r: CandleMap, k: Key)
    requires k.interval != Minute
    requires forall x: Key :: x != k ==> Find(r, x) == Find(c, x)
    ensures MinutesOf(r) == MinutesOf(c)
  {
    forall x: Key | x.interval == Minute
      ensures Find(r, x) == Find(c, x)
    {
    }
    MinutesEqual(c, r);
  }

  lemma MinutesEqual(c: CandleMap, r: CandleMap)
    requires forall x: Key :: x.interval == Minute ==> Find(r, x) == Find(c, x)
    ensures MinutesOf(r) == MinutesOf(c)
  {
    forall x: Key
      ensures x in MinutesOf(r) <==> x in MinutesOf(c)
      ensures x in MinutesOf(r) && x in MinutesOf(c) ==> MinutesOf(r)[x] == MinutesOf(c)[x]
    {
      if x.interval == Minute {
        assert Find(r, x) == Find(c, x);
      }
    }
  }

  /** The incremental path: after an append changed minute candles of `pairs` in the minute of `t`,
      rebuilding the buckets of `t` for those pairs restores every level. */
  method RebuildChangedPairs(c: CandleMap, pairs: set<Id>, t: int) returns (r: CandleMap)
    requires RightExcept(c, AllLevels(pairs), t)
    ensures IsRolledUp(r) && MinutesOf(r) == MinutesOf(c)
  {
    r := c;
    var rest := pairs;
    while rest != {}
      invariant rest <= pairs
      invariant RightExcept(r, AllLevels(rest), t)
      invariant MinutesOf(r) == MinutesOf(c)
      decreases |rest|
    {
      var p :| p in rest;
      assert Levels(p) <= AllLevels(rest);
      r := RebuildPairLevels(r, p, t, AllLevels(rest));
      assert AllLevels(rest) - Levels(p) <= AllLevels(rest - {p});
      RightExceptMore(r, AllLevels(rest) - Levels(p), AllLevels(rest - {p}), t);
      rest := rest - {p};
    }
    assert AllLevels({}) == {};
  }

  lemma RightExceptMore(c: CandleMap, a: set<(Id, Interval)>, b: set<(Id, Interval)>, t: int)
    requires RightExcept(c, a, t) && a <= b
    ensures RightExcept(c, b, t)
  {
  }

  // From scratch

  /** The keys of a set in order of start, each once; the order of equal starts is left open. */
  ghost predicate IsSortedListing(s: seq<Key>, keys: set<Key>) {
    && (forall i, j :: 0 <= i < j < |s| ==> s[i].start <= s[j].start && s[i] != s[j])
    && (forall k :: k in s <==> k in keys)
  }

  method SortByStart(keys: set<Key>) returns (s: seq<Key>)
    ensures IsSortedListing(s, keys)
  {
    s := [];
    var rest := keys;
    while rest != {}
      invariant rest <= keys && IsSortedListing(s, keys - rest)
      decreases |rest|
    {
      var k :| k in rest;
      s := InsertByStart(s, k, keys - rest);
      rest := rest - {k};
      assert keys - rest == keys - (rest + {k}) + {k};
    }
    assert keys - rest == keys;
  }

  method InsertByStart(s: seq<Key>, k: Key, ghost keys: set<Key>) returns (r: seq<Key>)
    requires IsSortedListing(s, keys) && k !in keys
    ensures IsSortedListing(r, keys + {k})
  {
    var at: nat := |s|;
    while at > 0 && s[at - 1].start > k.start
      invariant 0 <= at <= |s|
      invariant forall i :: at <= i < |s| ==> s[i].start > k.start
    {
      at := at - 1;
    }
    InsertListed(s, keys, k, at);
    r := s[..at] + [k] + s[at..];
  }

  lemma InsertListed(s: seq<Key>, keys: set<Key>, k: Key, at: nat)
    requires IsSortedListing(s, keys) && k !in keys && at <= |s|
    requires at > 0 ==> s[at - 1].start <= k.start
    requires forall i :: at <= i < |s| ==> s[i].start > k.start
    ensures IsSortedListing(s[..at] + [k] + s[at..], keys + {k})
  {
    var r := s[..at] + [k] + s[at..];
    assert s == s[..at] + s[at..];
    assert forall x :: x in r <==> x in s || x == k;
    InsertOrdered(s, k, at);
  }

  lemma InsertOrdered(s: seq<Key>, k: Key, at: nat)
    requires forall i, j :: 0 <= i < j < |s| ==> s[i].start <= s[j].start && s[i] != s[j]
    requires k !in s && at <= |s|
    requires at > 0 ==> s[at - 1].start <= k.start
    requires forall i :: at <= i < |s| ==> s[i].start > k.start
    ensures var r := s[..at] + [k] + s[at..];
            forall i, j :: 0 <= i < j < |r| ==> r[i].start <= r[j].start && r[i] != r[j]
  {
    var r := s[..at] + [k] + s[at..];
    assert forall i :: 0 <= i < at ==> s[i].start <= s[at - 1].start;
    forall i, j | 0 <= i < j < |r|
      ensures r[i].start <= r[j].start && r[i] != r[j]
    {
      assert r[i] == if i < at then s[i] else if i == at then k else s[i - 1];
      assert r[j] == if j < at then s[j] else if j == at then k else s[j - 1];
    }
  }

  function KeysAt(c: CandleMap, interval: Interval): set<Key> {
    set k | k in c && k.interval == interval
  }

  /** What a level holds while the source candles in `seen` have been merged. */
  ghost predicate LevelOf(r: CandleMap, seen: CandleMap, interval: Interval) {
    forall k: Key :: k.interval == interval ==>
      Find(r, k) == if Aligned(k) then Rolled(seen, k, Slots(interval)) else None
  }

  /** Merging the next source candle, in order of start, into its bucket. */
  lemma MergeNext(r: CandleMap, seen: CandleMap, interval: Interval, s: Key, candle: Candle)
    requires interval != Minute && s.interval == SourceOf(interval) && Aligned(s) && s !in seen
    requires forall x :: x in seen ==> x.start <= s.start
    requires LevelOf(r, seen, interval)
    ensures var k := Bucket(s.pair, interval, s.start);
            var after := Absorb(Find(r, k), Some(candle));
            LevelOf(r[k := after.value], seen[s := candle], interval)
  {
    var k := Bucket(s.pair, interval, s.start);
    BoundaryHolds(s.start, interval);
    var after := Absorb(Find(r, k), Some(candle));
    var r', seen' := r[k := after.value], seen[s := candle];
    forall x: Key | x.interval == interval
      ensures Find(r', x) == if Aligned(x) then Rolled(seen', x, Slots(interval)) else None
    {
      if x == k {
        var at := SlotOf(k, s);
        forall j: nat | at < j < Slots(interval)
          ensures Slot(k, j) !in seen
        {
          SlotsGrow(k, at, j);
        }
        RolledAppend(seen, s, candle, k, Slots(interval), at);
      } else if Aligned(x) {
        forall j: nat | j < Slots(interval)
          ensures Find(seen, Slot(x, j)) == Find(seen', Slot(x, j))
        {
          SlotAligned(x, j);
        }
        RolledFrame(seen, seen', x, Slots(interval));
      }
    }
  }

  /** Builds one level from the level below it. */
  method RollUp(c: CandleMap, interval: Interval) returns (r: CandleMap)
    requires interval != Minute && KeysAt(c, interval) == {}
    requires forall k :: k in c && k.interval == SourceOf(interval) ==> Aligned(k)
    ensures forall k: Key :: k.interval != interval ==> Find(r, k) == Find(c, k)
    ensures forall k: Key :: k.interval == interval ==> BucketRight(r, k)
  {
    hide Aligned, Rolled, Created, Merged, Slots, SourceOf, Boundary;
    var sources := SortByStart(KeysAt(c, SourceOf(interval)));
    r := c;
    ghost var seen: CandleMap := map[];
    forall k: Key | k.interval == interval
      ensures Find(r, k) == if Aligned(k) then Rolled(seen, k, Slots(interval)) else None
    {
      assert k !in KeysAt(c, interval);
      RolledEmpty(k, Slots(interval));
    }
    var i := 0;
    while i < |sources|
      invariant i <= |sources|
      invariant forall k: Key :: k.interval != interval ==> Find(r, k) == Find(c, k)
      invariant forall k :: k in seen <==> k in sources[..i]
      invariant forall k :: k in seen ==> k in c && seen[k] == c[k]
      invariant LevelOf(r, seen, interval)
    {
      var source := sources[i];
      assert source in KeysAt(c, SourceOf(interval));
      var key := Bucket(source.pair, interval, source.start);
      var rollup := if key in r then r[key] else Created(c[source]);
      MergeNext(r, seen, interval, source, c[source]);
      r := r[key := Merged(rollup, c[source])];
      seen := seen[source := c[source]];
      assert sources[..i + 1] == sources[..i] + [source];
      i := i + 1;
    }
    assert sources[..i] == sources;
    forall k: Key | k.interval == interval
      ensures BucketRight(r, k)
    {
      forall j: nat | j < Slots(interval)
        ensures Find(seen, Slot(k, j)) == Find(r, Slot(k, j))
      {
        assert Slot(k, j) in c <==> Slot(k, j) in KeysAt(c, SourceOf(interval));
        assert Find(r, Slot(k, j)) == Find(c, Slot(k, j));
      }
      RolledFrame(seen, r, k, Slots(interval));
    }
  }

  lemma {:induction false} RolledEmpty(k: Key, n: nat)
    ensures Rolled(map[], k, n) == None
  {
    if n > 0 {
      RolledEmpty(k, n - 1);
    }
  }

  /** A level that reads none of the changed interval stays right. */
  lemma LevelKept(c: CandleMap, r: CandleMap, interval: Interval, level: Interval)
    requires level != Minute && level != interval && SourceOf(level) != interval
    requires forall k: Key :: k.interval != interval ==> Find(r, k) == Find(c, k)
    requires forall k: Key :: k.interval == level ==> BucketRight(c, k)
    ensures forall k: Key :: k.interval == level ==> BucketRight(r, k)
  {
    forall k: Key | k.interval == level
      ensures BucketRight(r, k)
    {
      assert BucketRight(c, k) && Find(r, k) == Find(c, k);
      RolledFrame(r, c, k, Slots(level));
    }
  }

  ghost predicate LevelRight(c: CandleMap, level: Interval) {
    forall k: Key :: k.interval == level ==> BucketRight(c, k)
  }

  lemma LevelAligned(c: CandleMap, level: Interval)
    requires LevelRight(c, level)
    ensures forall k :: k in c && k.interval == level ==> Aligned(k)
  {
    forall k | k in c && k.interval == level
      ensures Aligned(k)
    {
      assert BucketRight(c, k);
    }
  }

  /** The order in which the levels are built. */
  function Rank(i: Interval): int {
    match i
    case Minute => -1
    case FiveMinutes => 0
    case FifteenMinutes => 1
    case Hour => 2
    case FourHours => 3
    case Day => 4
    case Week => 5
  }

  /** The first `n` levels are built on the minutes of `base`; the others are empty. */
  ghost predicate Built(r: CandleMap, base: CandleMap, n: nat) {
    && MinutesAligned(r)
    && (forall k: Key :: k.interval == Minute ==> Find(r, k) == Find(base, k))
    && (forall level: Interval :: 0 <= Rank(level) < n ==> LevelRight(r, level))
    && (forall level: Interval :: n <= Rank(level) ==> KeysAt(r, level) == {})
  }

  method RollUpNext(c: CandleMap, interval: Interval, ghost base: CandleMap) returns (r: CandleMap)
    requires interval != Minute && Built(c, base, Rank(interval))
    ensures Built(r, base, Rank(interval) + 1)
  {
    if SourceOf(interval) != Minute {
      LevelAligned(c, SourceOf(interval));
    }
    r := RollUp(c, interval);
    forall level: Interval | 0 <= Rank(level) < Rank(interval)
      ensures LevelRight(r, level)
    {
      assert LevelRight(c, level);
      LevelKept(c, r, interval, level);
    }
    SameKeys(c, r, interval);
  }

  lemma SameKeys(c: CandleMap, r: CandleMap, interval: Interval)
    requires interval != Minute && MinutesAligned(c)
    requires forall k: Key :: k.interval != interval ==> Find(r, k) == Find(c, k)
    ensures MinutesAligned(r)
    ensures forall i: Interval :: i != interval ==> KeysAt(r, i) == KeysAt(c, i)
  {
    forall k: Key | k.interval != interval
      ensures k in r <==> k in c
    {
      assert Find(r, k) == Find(c, k);
    }
  }

  /** The full path: drops every rolled-up candle and rebuilds all levels from the minutes. */
  method BuildCandleRollups(c: CandleMap) returns (r: CandleMap)
    requires MinutesAligned(c)
    ensures IsRolledUp(r) && MinutesOf(r) == MinutesOf(c)
  {
    r := MinutesOf(c);
    ghost var base := r;
    NothingBuilt(c);
    r := RollUpNext(r, FiveMinutes, base);
    r := RollUpNext(r, FifteenMinutes, base);
    r := RollUpNext(r, Hour, base);
    r := RollUpNext(r, FourHours, base);
    r := RollUpNext(r, Day, base);
    r := RollUpNext(r, Week, base);
    BuiltAll(r, c);
  }

  lemma NothingBuilt(c: CandleMap)
    requires MinutesAligned(c)
    ensures Built(MinutesOf(c), MinutesOf(c), 0)
  {
    forall level: Interval | level != Minute
      ensures KeysAt(MinutesOf(c), level) == {}
    {
    }
  }

  lemma BuiltAll(r: CandleMap, c: CandleMap)
    requires Built(r, MinutesOf(c), 6)
    ensures IsRolledUp(r) && MinutesOf(r) == MinutesOf(c)
  {
    forall k: Key | k.interval != Minute
      ensures BucketRight(r, k)
    {
      assert LevelRight(r, k.interval);
    }
    MinutesEqual(MinutesOf(c), r);
    assert MinutesOf(MinutesOf(c)) == MinutesOf(c);
  }

  /** Both paths agree: after an append, rebuilding the changed buckets ends in the same candles, at every level, as
      dropping every rolled-up candle and building all levels from the minutes. */
  method IncrementalEqualsFull(c: CandleMap, pairs: set<Id>, t: int) returns (incremental: CandleMap, full: CandleMap)
    requires RightExcept(c, AllLevels(pairs), t)
    ensures incremental == full
  {
    hide IsRolledUp, MinutesOf, MinutesAligned;
    incremental := RebuildChangedPairs(c, pairs, t);
    full := BuildCandleRollups(c);
    RolledUpUnique(incremental, full);
  }
}
