/** What a pool observation stores and sends, bin by bin and field by field, told from the observation itself. */
module PoolContents {
  import opened Domain
  import opened PairIndex
  import opened SortedIds
  import opened PoolState
  import opened Replica
  import opened Chain
  import opened Projection
  import opened PublishedStates

  predicate SameContent(b: PoolBin, s: BinSnapshot) {
    b.reserveX == s.reserveX && b.reserveY == s.reserveY && b.totalSupply == s.totalSupply
  }

  /** A listed bin after the observation: it shows the listed content, and it stays as it was exactly when that was its
      content already. */
  predicate BinIs(was: Option<PoolBin>, now: PoolBin, s: BinSnapshot, at: At) {
    && now.bin == s.bin && SameContent(now, s)
    && if was.Some? && SameContent(was.value, s) then now == was.value
       else && now.chainId == at.chainId && now.pair == at.pair && now.updatedAtBlock == at.block
            && now.updatedAtHash == at.blockHash && now.updatedAtTimestamp == at.timestamp
            && now.revision == (if was.Some? then was.value.revision else 0) + 1
  }

  ghost predicate DistinctBins(updates: seq<BinSnapshot>) {
    forall i, j :: 0 <= i < j < |updates| ==> updates[i].bin != updates[j].bin
  }

  ghost predicate Lists(updates: seq<BinSnapshot>, key: BinKey) {
    exists s :: s in updates && s.bin == key
  }

  /** Bins are filed under their own keys. */
  ghost predicate Filed(bins: BinMap) {
    forall key :: key in bins ==> bins[key].bin == key
  }

  /** The listed bins are as listed; without a replacement every other bin stays, with one there is no other bin. */
  ghost predicate BinsAre(was: BinMap, now: BinMap, updates: seq<BinSnapshot>, replace: bool, at: At) {
    && (forall s :: s in updates ==> s.bin in now && BinIs(FindBin(was, s.bin), now[s.bin], s, at))
    && (forall key :: !Lists(updates, key) ==> FindBin(now, key) == if replace then None else FindBin(was, key))
  }

  ghost predicate SentFor(was: BinMap, now: BinMap, s: BinSnapshot, replace: bool, b: PoolBin) {
    && s.bin in now && b == now[s.bin]
    && (replace || FindBin(was, s.bin).None? || !SameContent(was[s.bin], s))
  }

  /** What is sent are the listed bins that changed, or all listed ones of a replacement. */
  ghost predicate SentAre(was: BinMap, now: BinMap, updates: seq<BinSnapshot>, replace: bool, sent: seq<PoolBin>) {
    forall b :: b in sent <==> exists s :: s in updates && SentFor(was, now, s, replace, b)
  }

  // Applying the listed bins

  lemma LastIsNew(init: seq<BinSnapshot>, s: BinSnapshot)
    requires DistinctBins(init + [s])
    ensures DistinctBins(init) && !Lists(init, s.bin)
  {
    var all := init + [s];
    assert all[|init|] == s && forall i :: 0 <= i < |init| ==> all[i] == init[i];
    forall x | x in init
      ensures x.bin != s.bin
    {
      var i :| 0 <= i < |init| && init[i] == x;
      assert all[i].bin != all[|init|].bin;
    }
  }

  lemma ListsMore(init: seq<BinSnapshot>, s: BinSnapshot)
    ensures forall key :: Lists(init + [s], key) <==> Lists(init, key) || key == s.bin
  {
    forall key
      ensures Lists(init + [s], key) <==> Lists(init, key) || key == s.bin
    {
      if Lists(init, key) {
        var x :| x in init && x.bin == key;
        assert x in init + [s];
      }
      if key == s.bin {
        assert s in init + [s];
      }
    }
  }

  /** One listed bin: what it becomes, and whether it is sent. */
  lemma OneBin(was: BinMap, a: Applying, s: BinSnapshot, replace: bool, at: At)
    requires Filed(was) && FindBin(a.bins, s.bin) == if replace then None else FindBin(was, s.bin)
    ensures var r := ApplyBin(was, a, s, replace, at);
            && s.bin in r.bins && BinIs(FindBin(was, s.bin), r.bins[s.bin], s, at)
            && (forall key :: key != s.bin ==> FindBin(r.bins, key) == FindBin(a.bins, key))
            && r.replaced == if replace || FindBin(was, s.bin).None? || !SameContent(was[s.bin], s)
                             then a.replaced + [r.bins[s.bin]] else a.replaced
  {
    hide IndexBin;
  }

  lemma {:induction false} ApplyBinsAre(was: BinMap, start: Applying, updates: seq<BinSnapshot>, replace: bool, at: At)
    requires Filed(was) && DistinctBins(updates) && start.replaced == []
    requires forall key :: FindBin(start.bins, key) == if replace then None else FindBin(was, key)
    ensures var a := ApplyBins(was, start, updates, replace, at);
            && BinsAre(was, a.bins, updates, replace, at) && SentAre(was, a.bins, updates, replace, a.replaced)
            && DistinctKeys(a.replaced)
  {
    hide ApplyBin, BinIs, DistinctBins, Lists, Filed, SameContent;
    if updates == [] {
      NothingListed();
    } else {
      var init, s := updates[..|updates| - 1], updates[|updates| - 1];
      assert updates == init + [s];
      LastIsNew(init, s);
      ListsMore(init, s);
      ApplyBinsAre(was, start, init, replace, at);
      var a := ApplyBins(was, start, init, replace, at);
      OneBin(was, a, s, replace, at);
      var r := ApplyBin(was, a, s, replace, at);
      StillListed(init, s);
      BinFiled(FindBin(was, s.bin), r.bins[s.bin], s, at);
      MoreBins(was, a, r, init, s, replace, at);
      MoreSent(was, a, r, init, s, replace, at);
    }
  }

  lemma BinFiled(was: Option<PoolBin>, now: PoolBin, s: BinSnapshot, at: At)
    requires BinIs(was, now, s, at)
    ensures now.bin == s.bin
  {
  }

  lemma NothingListed()
    ensures forall key :: !Lists([], key)
  {
  }

  lemma StillListed(init: seq<BinSnapshot>, s: BinSnapshot)
    requires !Lists(init, s.bin)
    ensures forall x :: x in init ==> x.bin != s.bin
  {
  }

  lemma MoreBins(was: BinMap, a: Applying, r: Applying, init: seq<BinSnapshot>, s: BinSnapshot, replace: bool, at: At)
    requires BinsAre(was, a.bins, init, replace, at) && forall x :: x in init ==> x.bin != s.bin
    requires s.bin in r.bins && BinIs(FindBin(was, s.bin), r.bins[s.bin], s, at)
    requires forall key :: key != s.bin ==> FindBin(r.bins, key) == FindBin(a.bins, key)
    ensures BinsAre(was, r.bins, init + [s], replace, at)
  {
    hide BinIs, Lists;
    ListsMore(init, s);
    forall x | x in init + [s]
      ensures x.bin in r.bins && BinIs(FindBin(was, x.bin), r.bins[x.bin], x, at)
    {
      if x in init {
        assert FindBin(r.bins, x.bin) == FindBin(a.bins, x.bin);
      }
    }
  }

  lemma MoreSent(was: BinMap, a: Applying, r: Applying, init: seq<BinSnapshot>, s: BinSnapshot, replace: bool, at: At)
    requires SentAre(was, a.bins, init, replace, a.replaced) && DistinctKeys(a.replaced)
    requires BinsAre(was, a.bins, init, replace, at) && forall x :: x in init ==> x.bin != s.bin
    requires s.bin in r.bins && r.bins[s.bin].bin == s.bin
    requires forall key :: key != s.bin ==> FindBin(r.bins, key) == FindBin(a.bins, key)
    requires r.replaced == if replace || FindBin(was, s.bin).None? || !SameContent(was[s.bin], s)
                           then a.replaced + [r.bins[s.bin]] else a.replaced
    ensures SentAre(was, r.bins, init + [s], replace, r.replaced) && DistinctKeys(r.replaced)
  {
    hide Lists, SameContent;
    forall b, x | x in init
      ensures SentFor(was, r.bins, x, replace, b) <==> SentFor(was, a.bins, x, replace, b)
    {
      assert FindBin(r.bins, x.bin) == FindBin(a.bins, x.bin);
    }
    forall b
      ensures b in r.replaced <==> exists x :: x in init + [s] && SentFor(was, r.bins, x, replace, b)
    {
      if b in a.replaced {
        var x :| x in init && SentFor(was, a.bins, x, replace, b);
        assert x in init + [s] && SentFor(was, r.bins, x, replace, b);
      }
      if SentFor(was, r.bins, s, replace, b) {
        assert s in init + [s] && b in r.replaced;
      }
    }
    forall i | 0 <= i < |a.replaced|
      ensures a.replaced[i].bin != s.bin
    {
      assert a.replaced[i] in a.replaced;
      var x :| x in init && SentFor(was, a.bins, x, replace, a.replaced[i]);
    }
  }

  /** The scalar state shows the published state, the observation's fees and the block, under the next revision. */
  predicate StateIs(was: Option<State>, now: State, s: PairState, o: Observation, at: At)
    requires s.activeId.Some? && s.binStep.Some? && s.marketPriceQuote.Some?
  {
    && now.chainId == at.chainId && now.ident == s.ident
    && now.reserveX == s.reserveX && now.reserveY == s.reserveY
    && now.activeId == s.activeId.value && now.binStep == s.binStep.value
    && now.marketPriceQuote == s.marketPriceQuote.value
    && now.priceUsd == s.priceUsd && now.tvlUsd == s.tvlUsd && now.missing == s.missing && now.fees == o.fees
    && now.asOfBlock == at.block && now.asOfHash == at.blockHash && now.asOfTimestamp == at.timestamp
    && now.revision == (if was.Some? then was.value.revision else 0) + 1
  }

  /** Main result on observations of distinct bins: every listed bin is stored with the listed content, the others stay
      or, with a replacement, go, and the update carries exactly what changed, in order of numeric id, each once. */
  lemma ObservedIs(pool: Pool, s: PairState, o: Observation, at: At)
    requires Filed(pool.bins) && DistinctBins(o.binUpdates)
    requires s.activeId.Some? && s.binStep.Some? && s.marketPriceQuote.Some?
    ensures var (after, u) := Observed(pool, s, o, at);
            && BinsAre(pool.bins, after.bins, o.binUpdates, o.replaceBinWindow, at)
            && SentAre(pool.bins, after.bins, o.binUpdates, o.replaceBinWindow, u.binReplacements)
            && SortedById(u.binReplacements) && DistinctKeys(u.binReplacements)
            && u.replaceBinWindow == o.replaceBinWindow
            && after.state == Some(u.state) && StateIs(pool.state, u.state, s, o, at)
            && u.eventId.chainId == at.chainId && u.eventId.blockHash == at.blockHash && u.eventId.pair == at.pair
            && StrictlySorted(u.eventId.sources)
            && forall x :: x in u.eventId.sources <==> x in o.sourceEventIds
  {
    hide ApplyBins, SortBins, SortIds, BinsAre, StrictlySorted, SortedById, DistinctKeys;
    var start := StartBins(pool, o.replaceBinWindow);
    var a := ApplyBins(pool.bins, start, o.binUpdates, o.replaceBinWindow, at);
    ApplyBinsAre(pool.bins, start, o.binUpdates, o.replaceBinWindow, at);
    SortBinsKeeps(a.replaced);
    SortIdsKeeps(o.sourceEventIds);
  }

  lemma ValidDistinct(o: Observation)
    requires ValidObservation(o)
    ensures DistinctBins(o.binUpdates)
  {
  }

  /** Main result through the engine: a valid observation event that is applied stores and sends its own bins, its own
      market fields and its own fees, at its block, for its pair only. */
  lemma ObservationIs(policies: Policies, v: View, e: Event, b: Block)
    requires IsObservation(e) && ValidEvent(e, b.chainId) && AfterMarket(policies, v, e, b).ok
    requires Filed(PoolOr(v.pools, e.ident.pair).bins)
    ensures var r, o := AfterMarket(policies, v, e, b), e.poolState.value;
            var pool, after := PoolOr(v.pools, e.ident.pair), PoolOr(r.view.pools, e.ident.pair);
            var at := At(b.chainId.GetOr(0), e.ident.pair, b.number, b.hash, b.timestamp);
            && |r.updates| == 1 && (forall p :: p != e.ident.pair ==> PoolOr(r.view.pools, p) == PoolOr(v.pools, p))
            && BinsAre(pool.bins, after.bins, o.binUpdates, o.replaceBinWindow, at)
            && SentAre(pool.bins, after.bins, o.binUpdates, o.replaceBinWindow, r.updates[0].binReplacements)
            && after.state == Some(r.updates[0].state) && r.updates[0].replaceBinWindow == o.replaceBinWindow
            && var now := r.updates[0].state;
               && now.ident == e.ident && now.reserveX == e.reserveX && now.reserveY == e.reserveY
               && Some(now.activeId) == e.market.activeId && Some(now.binStep) == e.market.binStep
               && Some(now.marketPriceQuote) == e.market.priceQuote && now.fees == o.fees
               && now.asOfBlock == b.number && now.asOfHash == b.hash && now.asOfTimestamp == b.timestamp
               && now.revision == (if pool.state.Some? then pool.state.value.revision else 0) + 1
  {
    hide Published, Observed, BinsAre, SentAre, QuotesAt, SamePairIdentity, TouchedAt, Projection.Listed, PriceIs,
         LockedIs, MissingIs, ValidObservation;
    var current := CurrentPair(v.listing, e.ident.pair);
    var q := QuotesAt(policies, v.book, e.ident, b.timestamp);
    var s := Published(current, e, b, q);
    PublishedIs(current, e, b, q);
    ValidDistinct(e.poolState.value);
    var at := At(b.chainId.GetOr(0), e.ident.pair, b.number, b.hash, b.timestamp);
    ObservedIs(PoolOr(v.pools, e.ident.pair), s, e.poolState.value, at);
  }
}
