/** Which minute candles a candle of any interval takes its fields from: the open and everything first from the earliest
    minute that has it, the close and everything last from the latest, high and low from all of them. */
module CandlePrices {
  import opened Domain
  import opened Candles
  import opened ChainTime
  import opened BlockRanges

  /** A candle of the given level inside the window of `k`. */
  ghost predicate PartOf(c: CandleMap, s: Key, k: Key, level: Interval): (r: bool)
    ensures r ==> s in c
  {
    s in c && s.interval == level && s.pair == k.pair && Boundary(s.start, k.interval) == k.start
  }

  /** The part with a value that starts first, or last. */
  ghost predicate EdgeAt<T>(c: CandleMap, k: Key, level: Interval, f: Candle -> Option<T>, late: bool, a: Key) {
    && PartOf(c, a, k, level) && f(c[a]).Some?
    && forall s :: PartOf(c, s, k, level) && f(c[s]).Some? ==> if late then s.start <= a.start else a.start <= s.start
  }

  /** The candle has the value of the first, or last, part that has one, and none if no part does. */
  ghost predicate FromEdge<T>(c: CandleMap, k: Key, level: Interval, f: Candle -> Option<T>, late: bool)
    requires k in c
  {
    if f(c[k]).Some? then exists a :: EdgeAt(c, k, level, f, late, a) && f(c[k]) == f(c[a])
    else forall s :: PartOf(c, s, k, level) ==> f(c[s]).None?
  }

  /** The candle has the greatest value of the parts, and none if no part has one. */
  ghost predicate FromTop(c: CandleMap, k: Key, level: Interval, f: Candle -> Option<int>)
    requires k in c
  {
    if f(c[k]).Some? then
      && (exists a :: PartOf(c, a, k, level) && f(c[k]) == f(c[a]))
      && forall s :: PartOf(c, s, k, level) && f(c[s]).Some? ==> f(c[s]).value <= f(c[k]).value
    else forall s :: PartOf(c, s, k, level) ==> f(c[s]).None?
  }

  /** The candle misses exactly the tokens that some part misses. */
  ghost predicate FromUnion(c: CandleMap, k: Key, level: Interval)
    requires k in c
  {
    forall t :: t in c[k].missing <==> exists s :: PartOf(c, s, k, level) && t in c[s].missing
  }

  /** A field that merging takes from the earlier, or from the later, candle that has it. */
  ghost predicate EdgeField<T>(f: Candle -> Option<T>, late: bool) {
    && (forall s :: f(Merged(Created(s), s)) == f(s))
    && forall r, s :: f(Merged(r, s)) == if late then f(s).Or(f(r)) else f(r).Or(f(s))
  }

  function Greater(a: Option<int>, b: Option<int>): Option<int> {
    if a.None? then b else if b.None? then a else Some(if b.value > a.value then b.value else a.value)
  }

  ghost predicate TopField(f: Candle -> Option<int>) {
    && (forall s :: f(Merged(Created(s), s)) == f(s))
    && forall r, s :: f(Merged(r, s)) == Greater(f(r), f(s))
  }

  // One rollup step, slot by slot

  ghost predicate SlotEdge<T>(c: CandleMap, k: Key, n: nat, f: Candle -> Option<T>, late: bool, i: nat) {
    && i < n && Slot(k, i) in c && f(c[Slot(k, i)]).Some?
    && forall j: nat :: j < n && Slot(k, j) in c && f(c[Slot(k, j)]).Some? ==> if late then j <= i else i <= j
  }

  function FieldOf<T>(c: Option<Candle>, f: Candle -> Option<T>): Option<T> {
    if c.None? then None else f(c.value)
  }

  lemma AbsorbedEdge<T>(f: Candle -> Option<T>, late: bool, r: Option<Candle>, s: Option<Candle>)
    requires EdgeField(f, late)
    ensures FieldOf(Absorb(r, s), f)
            == if late then FieldOf(s, f).Or(FieldOf(r, f)) else FieldOf(r, f).Or(FieldOf(s, f))
  {
    hide Merged, Created;
  }

  lemma AbsorbedTop(f: Candle -> Option<int>, r: Option<Candle>, s: Option<Candle>)
    requires TopField(f)
    ensures FieldOf(Absorb(r, s), f) == Greater(FieldOf(r, f), FieldOf(s, f))
  {
    hide Merged, Created;
  }

  lemma {:induction false} RolledEdge<T>(c: CandleMap, k: Key, n: nat, f: Candle -> Option<T>, late: bool)
    returns (i: nat)
    requires EdgeField(f, late)
    ensures if FieldOf(Rolled(c, k, n), f).Some?
            then SlotEdge(c, k, n, f, late, i) && FieldOf(Rolled(c, k, n), f) == f(c[Slot(k, i)])
            else forall j: nat :: j < n && Slot(k, j) in c ==> f(c[Slot(k, j)]).None?
  {
    hide Absorb, EdgeField, Slot;
    i := 0;
    if n > 0 {
      i := RolledEdge(c, k, n - 1, f, late);
      var last := Find(c, Slot(k, n - 1));
      AbsorbedEdge(f, late, Rolled(c, k, n - 1), last);
      if FieldOf(last, f).Some? && (late || FieldOf(Rolled(c, k, n - 1), f).None?) {
        i := n - 1;
      }
    }
  }

  lemma {:induction false} RolledTop(c: CandleMap, k: Key, n: nat, f: Candle -> Option<int>) returns (i: nat)
    requires TopField(f)
    ensures var top := FieldOf(Rolled(c, k, n), f);
            if top.Some?
            then && i < n && Slot(k, i) in c && top == f(c[Slot(k, i)])
                 && forall j: nat :: j < n && Slot(k, j) in c && f(c[Slot(k, j)]).Some? ==>
                      f(c[Slot(k, j)]).value <= top.value
            else forall j: nat :: j < n && Slot(k, j) in c ==> f(c[Slot(k, j)]).None?
  {
    hide Absorb, TopField, Slot;
    i := 0;
    if n > 0 {
      i := RolledTop(c, k, n - 1, f);
      var last := Find(c, Slot(k, n - 1));
      AbsorbedTop(f, Rolled(c, k, n - 1), last);
      if FieldOf(Rolled(c, k, n), f) != FieldOf(Rolled(c, k, n - 1), f) {
        i := n - 1;
      }
    }
  }

  lemma {:induction false} RolledMissing(c: CandleMap, k: Key, n: nat, t: Id)
    requires Rolled(c, k, n).Some?
    ensures t in Rolled(c, k, n).value.missing
            <==> exists j: nat :: j < n && Slot(k, j) in c && t in c[Slot(k, j)].missing
  {
    hide Flows.Plus, MergePriceSource, Higher, Lower;
    if Rolled(c, k, n - 1).Some? {
      RolledMissing(c, k, n - 1, t);
    } else {
      RolledNothing(c, k, n - 1);
    }
  }

  // Slots are the parts

  lemma SlotIsPart(c: CandleMap, k: Key, j: nat)
    requires Aligned(k) && k.interval != Minute && j < Slots(k.interval) && Slot(k, j) in c
    ensures PartOf(c, Slot(k, j), k, SourceOf(k.interval))
  {
    SlotAligned(k, j);
  }

  lemma PartIsSlot(c: CandleMap, k: Key, s: Key) returns (j: nat)
    requires IsRolledUp(c) && Aligned(k) && k.interval != Minute && PartOf(c, s, k, SourceOf(k.interval))
    ensures j < Slots(k.interval) && Slot(k, j) == s
  {
    hide IsRolledUp;
    CandleAligned(c, s);
    j := SlotOf(k, s);
  }

  lemma SlotOrder(k: Key, i: nat, j: nat)
    ensures i <= j <==> Slot(k, i).start <= Slot(k, j).start
  {
    if i < j {
      SlotsGrow(k, i, j);
    } else if j < i {
      SlotsGrow(k, j, i);
    }
  }

  lemma StepEdge<T>(c: CandleMap, k: Key, f: Candle -> Option<T>, late: bool)
    requires IsRolledUp(c) && k in c && k.interval != Minute && EdgeField(f, late)
    ensures FromEdge(c, k, SourceOf(k.interval), f, late)
  {
    hide Rolled, EdgeField, Aligned, Slot;
    RolledHere(c, k);
    var i := RolledEdge(c, k, Slots(k.interval), f, late);
    hide IsRolledUp;
    var level := SourceOf(k.interval);
    forall s | PartOf(c, s, k, level) && f(c[s]).Some?
      ensures f(c[k]).Some? && if late then s.start <= Slot(k, i).start else Slot(k, i).start <= s.start
    {
      var j := PartIsSlot(c, k, s);
      SlotOrder(k, i, j);
      SlotOrder(k, j, i);
    }
    if f(c[k]).Some? {
      SlotIsPart(c, k, i);
      assert EdgeAt(c, k, level, f, late, Slot(k, i));
    }
  }

  lemma RolledHere(c: CandleMap, k: Key)
    requires IsRolledUp(c) && k in c && k.interval != Minute
    ensures Aligned(k) && Rolled(c, k, Slots(k.interval)) == Some(c[k])
  {
    hide Rolled;
    assert BucketRight(c, k);
  }

  lemma StepTop(c: CandleMap, k: Key, f: Candle -> Option<int>)
    requires IsRolledUp(c) && k in c && k.interval != Minute && TopField(f)
    ensures FromTop(c, k, SourceOf(k.interval), f)
  {
    hide Rolled, TopField, Aligned, Slot;
    RolledHere(c, k);
    var i := RolledTop(c, k, Slots(k.interval), f);
    hide IsRolledUp;
    var level := SourceOf(k.interval);
    forall s | PartOf(c, s, k, level) && f(c[s]).Some?
      ensures f(c[k]).Some? && f(c[s]).value <= f(c[k]).value
    {
      var j := PartIsSlot(c, k, s);
    }
    if f(c[k]).Some? {
      SlotIsPart(c, k, i);
      assert PartOf(c, Slot(k, i), k, level);
    }
  }

  lemma StepUnion(c: CandleMap, k: Key)
    requires IsRolledUp(c) && k in c && k.interval != Minute
    ensures FromUnion(c, k, SourceOf(k.interval))
  {
    hide Rolled, Aligned, Slot;
    RolledHere(c, k);
    hide IsRolledUp;
    forall t
      ensures t in c[k].missing <==> exists s :: PartOf(c, s, k, SourceOf(k.interval)) && t in c[s].missing
    {
      RolledMissing(c, k, Slots(k.interval), t);
      if t in c[k].missing {
        var j: nat :| j < Slots(k.interval) && Slot(k, j) in c && t in c[Slot(k, j)].missing;
        SlotIsPart(c, k, j);
      }
      if exists s :: PartOf(c, s, k, SourceOf(k.interval)) && t in c[s].missing {
        var s :| PartOf(c, s, k, SourceOf(k.interval)) && t in c[s].missing;
        var j := PartIsSlot(c, k, s);
      }
    }
  }

  // Down to the minutes

  lemma MinuteHasSource(c: CandleMap, k: Key, m: Key) returns (s: Key)
    requires IsRolledUp(c) && k.interval != Minute && PartOf(c, m, k, Minute)
    ensures PartOf(c, s, k, SourceOf(k.interval)) && PartOf(c, m, s, Minute)
  {
    hide IsRolledUp;
    s := SourceBucket(c, m, k);
    MinuteShows(c, m, s);
  }

  lemma MinuteInside(c: CandleMap, k: Key, s: Key, m: Key)
    requires k.interval != Minute && PartOf(c, s, k, SourceOf(k.interval)) && PartOf(c, m, s, Minute)
    ensures PartOf(c, m, k, Minute)
  {
    InsideUp(c, m, s, k);
  }

  lemma PartsApart(c: CandleMap, k: Key, r: Key, s: Key, a: Key, b: Key)
    requires IsRolledUp(c) && PartOf(c, r, k, SourceOf(k.interval)) && PartOf(c, s, k, SourceOf(k.interval))
    requires PartOf(c, a, r, Minute) && PartOf(c, b, s, Minute) && r.start < s.start
    ensures a.start < b.start
  {
    hide IsRolledUp, Boundary;
    var level := SourceOf(k.interval);
    CandleAligned(c, r);
    CandleAligned(c, s);
    BoundaryTiles(a.start, r.start, level);
    BoundaryTiles(b.start, s.start, level);
    BoundaryTiles(s.start, r.start, level);
  }

  lemma OnlyItself(c: CandleMap, k: Key, s: Key)
    requires IsRolledUp(c) && k.interval == Minute && PartOf(c, s, k, Minute)
    ensures s == k
  {
    CandleAligned(c, s);
  }

  lemma ItselfPart(c: CandleMap, k: Key)
    requires IsRolledUp(c) && k in c && k.interval == Minute
    ensures PartOf(c, k, k, Minute)
  {
    CandleAligned(c, k);
  }

  lemma ComposeEdge<T>(c: CandleMap, k: Key, f: Candle -> Option<T>, late: bool)
    requires IsRolledUp(c) && k in c && k.interval != Minute && FromEdge(c, k, SourceOf(k.interval), f, late)
    requires forall s :: PartOf(c, s, k, SourceOf(k.interval)) ==> FromEdge(c, s, Minute, f, late)
    ensures FromEdge(c, k, Minute, f, late)
  {
    hide IsRolledUp, PartOf;
    var level := SourceOf(k.interval);
    if f(c[k]).Some? {
      var s :| EdgeAt(c, k, level, f, late, s) && f(c[k]) == f(c[s]);
      var a :| EdgeAt(c, s, Minute, f, late, a) && f(c[s]) == f(c[a]);
      MinuteInside(c, k, s, a);
      forall m | PartOf(c, m, k, Minute) && f(c[m]).Some?
        ensures if late then m.start <= a.start else a.start <= m.start
      {
        var r := MinuteHasSource(c, k, m);
        assert f(c[r]).Some?;
        if r.start < s.start {
          PartsApart(c, k, r, s, m, a);
        } else if s.start < r.start {
          PartsApart(c, k, s, r, a, m);
        } else {
          SamePart(c, k, r, s, level);
        }
      }
      assert EdgeAt(c, k, Minute, f, late, a);
    } else {
      forall m | PartOf(c, m, k, Minute)
        ensures f(c[m]).None?
      {
        var r := MinuteHasSource(c, k, m);
      }
    }
  }

  lemma SamePart(c: CandleMap, k: Key, r: Key, s: Key, level: Interval)
    requires PartOf(c, r, k, level) && PartOf(c, s, k, level) && r.start == s.start
    ensures r == s
  {
  }

  /** At every interval the field comes from the first, or last, minute that has it. */
  lemma {:induction false} MinutesEdge<T>(c: CandleMap, k: Key, f: Candle -> Option<T>, late: bool)
    requires IsRolledUp(c) && k in c && EdgeField(f, late)
    ensures FromEdge(c, k, Minute, f, late)
    decreases Seconds(k.interval)
  {
    hide IsRolledUp, EdgeField, PartOf;
    if k.interval == Minute {
      ItselfPart(c, k);
      forall s | PartOf(c, s, k, Minute)
        ensures s == k
      {
        OnlyItself(c, k, s);
      }
      assert f(c[k]).Some? ==> EdgeAt(c, k, Minute, f, late, k);
    } else {
      StepEdge(c, k, f, late);
      forall s | PartOf(c, s, k, SourceOf(k.interval))
        ensures FromEdge(c, s, Minute, f, late)
      {
        PartLevel(c, k, s);
        MinutesEdge(c, s, f, late);
      }
      ComposeEdge(c, k, f, late);
    }
  }

  lemma PartLevel(c: CandleMap, k: Key, s: Key)
    requires PartOf(c, s, k, SourceOf(k.interval))
    ensures s.interval == SourceOf(k.interval)
  {
  }

  lemma ComposeTop(c: CandleMap, k: Key, f: Candle -> Option<int>)
    requires IsRolledUp(c) && k in c && k.interval != Minute && FromTop(c, k, SourceOf(k.interval), f)
    requires forall s :: PartOf(c, s, k, SourceOf(k.interval)) ==> FromTop(c, s, Minute, f)
    ensures FromTop(c, k, Minute, f)
  {
    hide IsRolledUp, PartOf;
    forall m | PartOf(c, m, k, Minute) && f(c[m]).Some?
      ensures f(c[k]).Some? && f(c[m]).value <= f(c[k]).value
    {
      var r := MinuteHasSource(c, k, m);
      assert f(c[r]).Some? && f(c[m]).value <= f(c[r]).value;
    }
    if f(c[k]).Some? {
      var s :| PartOf(c, s, k, SourceOf(k.interval)) && f(c[k]) == f(c[s]);
      var a :| PartOf(c, a, s, Minute) && f(c[s]) == f(c[a]);
      MinuteInside(c, k, s, a);
    }
  }

  lemma {:induction false} MinutesTop(c: CandleMap, k: Key, f: Candle -> Option<int>)
    requires IsRolledUp(c) && k in c && TopField(f)
    ensures FromTop(c, k, Minute, f)
    decreases Seconds(k.interval)
  {
    hide IsRolledUp, TopField, PartOf;
    if k.interval == Minute {
      ItselfPart(c, k);
      forall s | PartOf(c, s, k, Minute)
        ensures s == k
      {
        OnlyItself(c, k, s);
      }
    } else {
      StepTop(c, k, f);
      forall s | PartOf(c, s, k, SourceOf(k.interval))
        ensures FromTop(c, s, Minute, f)
      {
        PartLevel(c, k, s);
        MinutesTop(c, s, f);
      }
      ComposeTop(c, k, f);
    }
  }

  lemma {:induction false} MinutesUnion(c: CandleMap, k: Key)
    requires IsRolledUp(c) && k in c
    ensures FromUnion(c, k, Minute)
    decreases Seconds(k.interval)
  {
    hide IsRolledUp, PartOf;
    if k.interval == Minute {
      ItselfPart(c, k);
      forall s | PartOf(c, s, k, Minute)
        ensures s == k
      {
        OnlyItself(c, k, s);
      }
    } else {
      var level := SourceOf(k.interval);
      StepUnion(c, k);
      forall s | PartOf(c, s, k, level)
        ensures FromUnion(c, s, Minute)
      {
        PartLevel(c, k, s);
        MinutesUnion(c, s);
      }
      forall t
        ensures t in c[k].missing <==> exists m :: PartOf(c, m, k, Minute) && t in c[m].missing
      {
        if t in c[k].missing {
          var s :| PartOf(c, s, k, level) && t in c[s].missing;
          var m :| PartOf(c, m, s, Minute) && t in c[m].missing;
          MinuteInside(c, k, s, m);
        }
        if exists m :: PartOf(c, m, k, Minute) && t in c[m].missing {
          var m :| PartOf(c, m, k, Minute) && t in c[m].missing;
          var s := MinuteHasSource(c, k, m);
          assert t in c[s].missing;
        }
      }
    }
  }

  // The fields

  function Lowest(c: Candle): Option<int> {
    if c.low.None? then None else Some(-c.low.value)
  }

  /** What a candle is at its end, whether or not it has a price. */
  datatype Last = Last(tvl: Option<int>, block: int, blockHash: Id)

  function LastOf(c: Candle): Option<Last> {
    Some(Last(c.tvl, c.lastBlock, c.lastHash))
  }

  datatype First = First(block: int, blockHash: Id, quoteToken: Id)

  function FirstOf(c: Candle): Option<First> {
    Some(First(c.firstBlock, c.firstHash, c.quoteToken))
  }

  function OpenOf(c: Candle): Option<int> {
    c.open
  }

  function CloseOf(c: Candle): Option<int> {
    c.close
  }

  function HighOf(c: Candle): Option<int> {
    c.high
  }

  lemma MergedFields(r: Candle, s: Candle)
    ensures var m := Merged(r, s);
            && m.open == r.open.Or(s.open) && m.close == s.close.Or(r.close)
            && m.high == Greater(r.high, s.high) && Lowest(m) == Greater(Lowest(r), Lowest(s))
            && FirstOf(m) == FirstOf(r) && LastOf(m) == LastOf(s)
  {
    hide Flows.Plus, MergePriceSource;
  }

  lemma CreatedFields(s: Candle)
    ensures var r := Created(s);
            r.open.None? && r.close.None? && r.high.None? && Lowest(r).None? && FirstOf(r) == FirstOf(s)
  {
  }

  lemma OpenMerges()
    ensures EdgeField(OpenOf, false)
  {
    hide Merged, Created;
    forall s
      ensures OpenOf(Merged(Created(s), s)) == OpenOf(s)
    {
      MergedFields(Created(s), s);
      CreatedFields(s);
    }
    forall r, s
      ensures OpenOf(Merged(r, s)) == OpenOf(r).Or(OpenOf(s))
    {
      MergedFields(r, s);
    }
  }

  lemma CloseMerges()
    ensures EdgeField(CloseOf, true)
  {
    hide Merged, Created;
    forall s
      ensures CloseOf(Merged(Created(s), s)) == CloseOf(s)
    {
      MergedFields(Created(s), s);
      CreatedFields(s);
    }
    forall r, s
      ensures CloseOf(Merged(r, s)) == CloseOf(s).Or(CloseOf(r))
    {
      MergedFields(r, s);
    }
  }

  lemma FirstMerges()
    ensures EdgeField(FirstOf, false)
  {
    hide Merged, Created, FirstOf, LastOf;
    forall s
      ensures FirstOf(Merged(Created(s), s)) == FirstOf(s)
    {
      MergedFields(Created(s), s);
      CreatedFields(s);
    }
    forall r, s
      ensures FirstOf(Merged(r, s)) == FirstOf(r).Or(FirstOf(s))
    {
      MergedFields(r, s);
      KnownEdges(r, s);
    }
  }

  lemma LastMerges()
    ensures EdgeField(LastOf, true)
  {
    hide Merged, Created, FirstOf, LastOf;
    forall s
      ensures LastOf(Merged(Created(s), s)) == LastOf(s)
    {
      MergedFields(Created(s), s);
      CreatedFields(s);
    }
    forall r, s
      ensures LastOf(Merged(r, s)) == LastOf(s).Or(LastOf(r))
    {
      MergedFields(r, s);
      KnownEdges(r, s);
    }
  }

  lemma HighMerges()
    ensures TopField(HighOf)
  {
    hide Merged, Created, Lowest;
    forall s
      ensures HighOf(Merged(Created(s), s)) == HighOf(s)
    {
      MergedFields(Created(s), s);
      CreatedFields(s);
    }
    forall r, s
      ensures HighOf(Merged(r, s)) == Greater(HighOf(r), HighOf(s))
    {
      MergedFields(r, s);
    }
  }

  lemma LowMerges()
    ensures TopField(Lowest)
  {
    hide Merged, Created, Lowest;
    forall s
      ensures Lowest(Merged(Created(s), s)) == Lowest(s)
    {
      MergedFields(Created(s), s);
      CreatedFields(s);
    }
    forall r, s
      ensures Lowest(Merged(r, s)) == Greater(Lowest(r), Lowest(s))
    {
      MergedFields(r, s);
    }
  }

  lemma KnownEdges(r: Candle, s: Candle)
    ensures FirstOf(r).Some? && FirstOf(s).Some? && LastOf(r).Some? && LastOf(s).Some?
  {
  }

  /** Main result on candle prices: at every interval the open is that of the earliest minute candle in the window with
      a price and the close that of the latest; the high is the greatest and the low the least of those minutes; value
      locked and last block are the latest minute's, first block and quote token the earliest's; and the missing tokens
      are those of all minutes. */
  lemma CandlePricesOfMinutes(c: CandleMap, k: Key)
    requires IsRolledUp(c) && k in c
    ensures FromEdge(c, k, Minute, OpenOf, false) && FromEdge(c, k, Minute, CloseOf, true)
    ensures FromTop(c, k, Minute, HighOf) && FromTop(c, k, Minute, Lowest)
    ensures FromEdge(c, k, Minute, FirstOf, false) && FromEdge(c, k, Minute, LastOf, true)
    ensures FromUnion(c, k, Minute)
  {
    hide IsRolledUp, EdgeField, TopField, FromEdge, FromTop, FromUnion;
    OpenMerges();
    CloseMerges();
    HighMerges();
    LowMerges();
    FirstMerges();
    LastMerges();
    MinutesEdge(c, k, OpenOf, false);
    MinutesEdge(c, k, CloseOf, true);
    MinutesTop(c, k, HighOf);
    MinutesTop(c, k, Lowest);
    MinutesEdge(c, k, FirstOf, false);
    MinutesEdge(c, k, LastOf, true);
    MinutesUnion(c, k);
  }
}
