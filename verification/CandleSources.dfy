/** Where a candle's prices come from and how often it was revised, told from the candles below it. */
module CandleSources {
  import opened Domain
  import opened PairIndex
  import opened Candles
  import opened BlockRanges
  import opened CandlePrices

  /** The candle has a price from elsewhere than the given source, where a candle without any counts as the token's. */
  predicate FromElsewhere(c: Candle, p: PriceSource) {
    if c.source.Some? then c.source.value != p else p != TrustedToken
  }

  /** The candle has one source exactly when every part has that source, and otherwise mixed ones. */
  ghost predicate OneSource(c: CandleMap, k: Key, level: Interval)
    requires k in c
  {
    forall p :: p != Mixed ==>
      (FromElsewhere(c[k], p) <==> exists s :: PartOf(c, s, k, level) && FromElsewhere(c[s], p))
  }

  lemma MergedSource(r: Candle, s: Candle, p: PriceSource)
    requires p != Mixed
    ensures Merged(r, s).source.Some?
    ensures FromElsewhere(Merged(r, s), p) <==> (r.source.Some? && r.source != Some(p)) || FromElsewhere(s, p)
  {
    hide Flows.Plus, Higher, Lower;
  }

  lemma {:induction false} RolledSource(c: CandleMap, k: Key, n: nat, p: PriceSource)
    requires Rolled(c, k, n).Some? && p != Mixed
    ensures Rolled(c, k, n).value.source.Some?
    ensures FromElsewhere(Rolled(c, k, n).value, p)
            <==> exists j: nat :: j < n && Slot(k, j) in c && FromElsewhere(c[Slot(k, j)], p)
  {
    hide Merged, FromElsewhere, Slot;
    var before, last := Rolled(c, k, n - 1), Find(c, Slot(k, n - 1));
    if before.Some? {
      RolledSource(c, k, n - 1, p);
      KnownSource(before.value, p);
      if last.Some? {
        MergedSource(before.value, last.value, p);
      }
    } else {
      RolledNothing(c, k, n - 1);
      MergedSource(Created(last.value), last.value, p);
    }
  }

  lemma KnownSource(c: Candle, p: PriceSource)
    requires c.source.Some?
    ensures FromElsewhere(c, p) <==> c.source != Some(p)
  {
  }

  lemma StepSource(c: CandleMap, k: Key)
    requires IsRolledUp(c) && k in c && k.interval != Minute
    ensures OneSource(c, k, SourceOf(k.interval)) && c[k].source.Some?
  {
    hide Rolled, Aligned, Slot, FromElsewhere;
    RolledHere(c, k);
    RolledSource(c, k, Slots(k.interval), TrustedToken);
    hide IsRolledUp;
    var level := SourceOf(k.interval);
    forall p | p != Mixed
      ensures FromElsewhere(c[k], p) <==> exists s :: PartOf(c, s, k, level) && FromElsewhere(c[s], p)
    {
      RolledSource(c, k, Slots(k.interval), p);
      if FromElsewhere(c[k], p) {
        var j: nat :| j < Slots(k.interval) && Slot(k, j) in c && FromElsewhere(c[Slot(k, j)], p);
        SlotIsPart(c, k, j);
      }
      if s :| PartOf(c, s, k, level) && FromElsewhere(c[s], p) {
        var j := PartIsSlot(c, k, s);
      }
    }
  }

  /** Main result on price sources: at every interval a candle names one source exactly when all minute candles of its
      window do, and calls its prices mixed otherwise. */
  lemma {:induction false} SourceOfMinutes(c: CandleMap, k: Key)
    requires IsRolledUp(c) && k in c
    ensures OneSource(c, k, Minute)
    decreases Seconds(k.interval)
  {
    hide IsRolledUp, PartOf, FromElsewhere;
    if k.interval == Minute {
      ItselfPart(c, k);
      forall s | PartOf(c, s, k, Minute)
        ensures s == k
      {
        OnlyItself(c, k, s);
      }
    } else {
      var level := SourceOf(k.interval);
      StepSource(c, k);
      forall s | PartOf(c, s, k, level)
        ensures OneSource(c, s, Minute)
      {
        PartLevel(c, k, s);
        SourceOfMinutes(c, s);
      }
      ComposeSource(c, k);
    }
  }

  lemma ComposeSource(c: CandleMap, k: Key)
    requires IsRolledUp(c) && k in c && k.interval != Minute && OneSource(c, k, SourceOf(k.interval))
    requires forall s :: PartOf(c, s, k, SourceOf(k.interval)) ==> OneSource(c, s, Minute)
    ensures OneSource(c, k, Minute)
  {
    hide IsRolledUp, PartOf, FromElsewhere;
    var level := SourceOf(k.interval);
    forall p | p != Mixed
      ensures FromElsewhere(c[k], p) <==> exists m :: PartOf(c, m, k, Minute) && FromElsewhere(c[m], p)
    {
      if FromElsewhere(c[k], p) {
        var s :| PartOf(c, s, k, level) && FromElsewhere(c[s], p);
        var m :| PartOf(c, m, s, Minute) && FromElsewhere(c[m], p);
        MinuteInside(c, k, s, m);
      }
      if m :| PartOf(c, m, k, Minute) && FromElsewhere(c[m], p) {
        var s := MinuteHasSource(c, k, m);
        assert FromElsewhere(c[s], p);
      }
    }
  }

  // Revisions

  /** The revisions of the first `n` source slots together. */
  function Revisions(c: CandleMap, k: Key, n: nat): int {
    if n == 0 then 0
    else Revisions(c, k, n - 1) + if Slot(k, n - 1) in c then c[Slot(k, n - 1)].revision else 0
  }

  lemma {:induction false} RolledRevisions(c: CandleMap, k: Key, n: nat)
    ensures Revisions(c, k, n) == if Rolled(c, k, n).Some? then Rolled(c, k, n).value.revision else 0
  {
    hide Flows.Plus, Higher, Lower, MergePriceSource, Slot;
    if n > 0 {
      RolledRevisions(c, k, n - 1);
    }
  }

  /** A rolled-up candle was revised as often as the candles of the level below it together. */
  lemma RevisionIs(c: CandleMap, k: Key)
    requires IsRolledUp(c) && k in c && k.interval != Minute
    ensures c[k].revision == Revisions(c, k, Slots(k.interval))
  {
    hide Rolled;
    RolledHere(c, k);
    RolledRevisions(c, k, Slots(k.interval));
  }
}
