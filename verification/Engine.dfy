/** The analytics engine: it ingests blocks, keeps derived state up to date as they are appended, and rebuilds
    it after reorganisations. */
module Engine {
  import opened Domain
  import opened PriceBook
  import opened PairIndex
  import opened Flows
  import opened Candles
  import opened Rollups
  import Ledger
  import opened SortedIds
  import opened PoolState
  import opened Chain
  import opened Ingest
  import opened Projection
  import opened Admission
  import opened ViewInvariants
  import opened EngineSpec

  class AnalyticsEngine {
    const policies: Policies
    var priceBook: TrustedPriceBook
    var pairs: map<Id, PairState>
    var sortedPairKeys: seq<Id>
    var minimumPairTimestamps: map<Id, int>
    var maximumPairTimestamp: Option<int>
    var pairSnapshotsByPair: map<Id, seq<Entry>>
    ghost var histories: map<Id, seq<Stamp>>
    var nextPairSnapshotOrdinal: nat
    var flowsByPair: map<Id, seq<FlowRow>>
    var candles: CandleMap
    var positions: Ledger.Positions
    var positionPairsByOwner: OwnerIndex
    var poolActivityByPair: map<Id, seq<Activity>>
    var pools: map<Id, Pool>
    var lastChangedPoolUpdates: seq<Update>
    var partialEventCount: nat
    var eventIsPartial: bool
    var missingPriceTokens: set<Id>
    var blocks: seq<Block>
    var canonical: Context
    var lastChangedCandleKeys: set<Key>
    var reorgCount: int
    var backfill: Backfill

    ghost function PairListing(): Listing
      reads this
    {
      Listing(pairs, sortedPairKeys, minimumPairTimestamps, maximumPairTimestamp, histories, nextPairSnapshotOrdinal)
    }

    /** The derived state as a value. */
    ghost function Abs(): View
      reads this, priceBook
    {
      View(priceBook.Contents(), PairListing(), flowsByPair, MinutesOf(candles),
           Holdings(positions, positionPairsByOwner), poolActivityByPair, pools, partialEventCount, missingPriceTokens)
    }

    ghost predicate Working()
      reads this, priceBook
    {
      priceBook.policies == policies && IndexesBuilt(pairSnapshotsByPair, histories) && ViewOk(policies, Abs())
    }

    ghost predicate ChainOk()
      reads this
    {
      CanonicalChain(blocks) && ContextOf(blocks) == Some(canonical)
    }

    ghost predicate Derived()
      reads this, priceBook
    {
      && Working()
      && Replay(policies, blocks).ok && Abs() == Replay(policies, blocks).view
      && IsRolledUp(candles)
    }

    /** The class invariant: the chain is canonical, its identity index is the one recomputed from the blocks,
        and the derived state is what replaying the blocks yields, with every candle level rolled up. */
    ghost predicate Valid()
      reads this, priceBook
    {
      ChainOk() && Derived()
    }

    /** The state that a throw leaves behind: the head is retained although it does not replay, everything below it
        does, and the identity index may lack the head's identities. */
    ghost predicate Thrown()
      reads this, priceBook
    {
      && CanonicalChain(blocks) && Abs() == Replay(policies, blocks).view
      && blocks != [] && Replay(policies, blocks[..|blocks| - 1]).ok && !Replay(policies, blocks).ok
    }

    ghost predicate Recoverable()
      reads this, priceBook
    {
      Valid() || Thrown()
    }

    lemma Retains()
      requires Recoverable()
      ensures CanonicalChain(blocks) && Abs() == Replay(policies, blocks).view
    {
      hide CanonicalChain, Replay, Abs, Working, ContextOf, IsRolledUp;
    }

    lemma HeadThrew(kept: seq<Block>, b: Block)
      requires blocks == kept + [b] && CanonicalChain(blocks) && Abs() == Replay(policies, blocks).view
      requires Replay(policies, kept).ok && !Replay(policies, blocks).ok
      ensures Thrown()
    {
      hide CanonicalChain, Replay, Abs;
      assert blocks[..|blocks| - 1] == kept;
    }

    /** Below the head everything replays, whether or not the head threw. */
    lemma Recovers(n: nat)
      requires Recoverable() && n < |blocks|
      ensures Replay(policies, blocks[..n]).ok && CanonicalChain(blocks[..n])
    {
      hide CanonicalChain, Replay, Abs, Working, ContextOf, IsRolledUp;
      PrefixCanonical(blocks, n);
      var init := blocks[..|blocks| - 1];
      ReplayPrefixOk(policies, if Valid() then blocks else init, n);
      assert init[..n] == blocks[..n];
    }

    /** Empty fields stand for the empty state. */
    lemma NothingShown()
      requires priceBook.policies == policies && priceBook.Contents() == EMPTY_BOOK
      requires PairListing() == EMPTY_LISTING && pairSnapshotsByPair == map[]
      requires flowsByPair == map[] && candles == map[] && Held() == Holdings(map[], map[])
      requires poolActivityByPair == map[] && pools == map[] && partialEventCount == 0 && missingPriceTokens == {}
      ensures Abs() == EMPTY_VIEW && Working()
    {
      hide ViewOk, IndexesBuilt, MinutesOf, TrustedPriceBook.Contents;
      EmptyViewOk(policies);
      NothingKept();
    }

    /** An engine that shows the empty state is valid for the empty chain. */
    lemma NothingRetained()
      requires Abs() == EMPTY_VIEW && Working() && candles == map[] && blocks == [] && canonical == EMPTY_CONTEXT
      ensures Valid()
    {
      hide ViewOk, IndexesBuilt, MinutesOf, IsRolledUp, Abs, Working;
      NothingRolledUp();
    }

    constructor (policies: Policies, assumeCompleteHistory: bool)
      ensures this.policies == policies && fresh(priceBook)
      ensures blocks == [] && reorgCount == 0 && Valid()
    {
      this.policies := policies;
      priceBook := new TrustedPriceBook(policies);
      pairs, sortedPairKeys, minimumPairTimestamps, maximumPairTimestamp := map[], [], map[], None;
      pairSnapshotsByPair, histories, nextPairSnapshotOrdinal := map[], map[], 0;
      flowsByPair, candles := map[], map[];
      positions, positionPairsByOwner, poolActivityByPair, pools := map[], map[], map[], map[];
      lastChangedPoolUpdates := [];
      partialEventCount, eventIsPartial, missingPriceTokens := 0, false, {};
      blocks, canonical, lastChangedCandleKeys, reorgCount := [], EMPTY_CONTEXT, {}, 0;
      backfill := if assumeCompleteHistory then Backfill(Complete, None, None, Some(FULL_HISTORY_START), None)
                  else Backfill(Unavailable, None, None, None, None);
      new;
      hide Valid, Working, Abs;
      NothingShown();
      NothingRetained();
    }

    // One event

    method RecordPartial(tokens: set<Id>, force: bool)
      modifies `eventIsPartial, `missingPriceTokens
      ensures eventIsPartial == (old(eventIsPartial) || tokens != {} || force)
      ensures missingPriceTokens == old(missingPriceTokens) + tokens
    {
      if tokens == {} && !force {
        return;
      }
      eventIsPartial := true;
      missingPriceTokens := missingPriceTokens + tokens;
    }

    method ClearPartial()
      modifies `eventIsPartial
      ensures !eventIsPartial && Abs() == old(Abs())
    {
      eventIsPartial := false;
    }

    method CountPartial(partial: bool)
      modifies `partialEventCount
      ensures Abs() == Counted(old(Abs()), partial)
    {
      hide MinutesOf;
      if partial {
        partialEventCount := partialEventCount + 1;
      }
    }

    method GetQuotes(ident: PairIdentity, t: int) returns (q: Quotes)
      requires priceBook.policies == policies && priceBook.Valid()
      ensures q == QuotesAt(policies, priceBook.Contents(), ident, t)
    {
      var x := priceBook.Get(ident.tokenX, t);
      var y := priceBook.Get(ident.tokenY, t);
      q := Quotes(x.price, y.price);
    }

    method IndexPoolActivity(e: Event, b: Block, eventIndex: nat)
      modifies `poolActivityByPair
      ensures Abs() == Logged(old(Abs()), e, b, eventIndex)
    {
      hide ActivityRow;
      if e.PairSnapshot? || e.PositionSnapshot? {
        return;
      }
      var pair := e.ident.pair;
      var rows := if pair in poolActivityByPair then poolActivityByPair[pair] else [];
      poolActivityByPair := poolActivityByPair[pair := rows + [ActivityRow(e, b, eventIndex)]];
    }

    /** Files a published state in the as-of index of its pair. */
    method IndexState(state: PairState)
      requires IndexesBuilt(pairSnapshotsByPair, histories)
      modifies `pairSnapshotsByPair, `histories, `nextPairSnapshotOrdinal, `maximumPairTimestamp
      ensures IndexesBuilt(pairSnapshotsByPair, histories)
      ensures histories == old(histories)[state.ident.pair := HistoryOf(old(PairListing()), state.ident.pair)
                                                              + [Stamp(state, old(nextPairSnapshotOrdinal))]]
      ensures nextPairSnapshotOrdinal == old(nextPairSnapshotOrdinal) + 1
      ensures maximumPairTimestamp == Some(Latest(old(maximumPairTimestamp), state.timestamp))
    {
      hide IndexValid, BuildIndex, Holds;
      var pair := state.ident.pair;
      var snapshots := if pair in pairSnapshotsByPair then pairSnapshotsByPair[pair] else [];
      ghost var history := HistoryOf(PairListing(), pair);
      NothingIndexed();
      assert snapshots == BuildIndex(history);
      BuildIndexValid(history);
      var canonicalOrdinal := nextPairSnapshotOrdinal;
      nextPairSnapshotOrdinal := nextPairSnapshotOrdinal + 1;
      var indexed := IndexPairState(snapshots, state, canonicalOrdinal);
      BuildIndexStep(history, Stamp(state, canonicalOrdinal));
      pairSnapshotsByPair := pairSnapshotsByPair[pair := indexed];
      histories := histories[pair := history + [Stamp(state, canonicalOrdinal)]];
      maximumPairTimestamp := Some(if maximumPairTimestamp.Some? && maximumPairTimestamp.value > state.timestamp
                                   then maximumPairTimestamp.value else state.timestamp);
    }

    method RecordPair(state: PairState)
      requires ListingOk(PairListing()) && IndexesBuilt(pairSnapshotsByPair, histories)
      modifies `pairs, `sortedPairKeys, `minimumPairTimestamps, `maximumPairTimestamp, `pairSnapshotsByPair,
               `histories, `nextPairSnapshotOrdinal
      ensures PairListing() == Listed(old(PairListing()), state)
      ensures IndexesBuilt(pairSnapshotsByPair, histories)
    {
      hide IndexesBuilt, InsertUnique, StrictlySorted, HistoryOk, SeenBy;
      var pair := state.ident.pair;
      if pair !in pairs {
        sortedPairKeys := InsertSortedUnique(sortedPairKeys, pair);
      }
      var minimum := if pair in minimumPairTimestamps && minimumPairTimestamps[pair] < state.timestamp
                     then minimumPairTimestamps[pair] else state.timestamp;
      minimumPairTimestamps := minimumPairTimestamps[pair := minimum];
      pairs := pairs[pair := state];
      IndexState(state);
    }

    /** Publishes a market event's pair state; `None` where the pair's identity changed. */
    method UpdatePair(e: Event, b: Block, q: Quotes) returns (r: Option<PairState>)
      requires e.IsMarket() && ListingOk(PairListing()) && IndexesBuilt(pairSnapshotsByPair, histories)
      modifies `pairs, `sortedPairKeys, `minimumPairTimestamps, `maximumPairTimestamp, `pairSnapshotsByPair,
               `histories, `nextPairSnapshotOrdinal, `eventIsPartial, `missingPriceTokens
      ensures var current := CurrentPair(old(PairListing()), e.ident.pair);
              r == if current.Some? && !SamePairIdentity(current.value.ident, e.ident) then None
                   else Some(Published(current, e, b, q))
      ensures PairListing() == if r.None? then old(PairListing()) else Listed(old(PairListing()), r.value)
      ensures var tokens := if r.None? then {} else r.value.missing;
              && missingPriceTokens == old(missingPriceTokens) + tokens
              && eventIsPartial == (old(eventIsPartial) || tokens != {})
      ensures Held() == old(Held())
      ensures IndexesBuilt(pairSnapshotsByPair, histories)
    {
      hide ListingOk, IndexesBuilt, SamePairIdentity, Published, Listed;
      var pair := e.ident.pair;
      var current := if pair in pairs then Some(pairs[pair]) else None;
      if current.Some? && !SamePairIdentity(current.value.ident, e.ident) {
        return None;
      }
      var state := Published(current, e, b, q);
      RecordPair(state);
      RecordPartial(state.missing, false);
      r := Some(state);
    }

    /** Moves the pair's minute candle to a published state. */
    method UpdateCandlesForSnapshot(state: PairState)
      modifies `candles
      ensures MinutesOf(candles) == TouchedAt(MinutesOf(old(candles)), state)
      ensures PairListing() == old(PairListing()) && Held() == old(Held())
      ensures LocalChange(old(candles), candles, {state.ident.pair}, state.timestamp)
    {
      hide Touched, MinutesOf, CandleOr, Boundary;
      var candle := GetCandle(state);
      PutMinute(candles, MinuteKey(state), Touched(candle, state));
      candles := candles[MinuteKey(state) := Touched(candle, state)];
    }

    method GetCandle(state: PairState) returns (c: Candle)
      ensures c == CandleOr(MinutesOf(candles), state)
    {
      var key := Key(state.ident.pair, Minute, Boundary(state.timestamp, Minute));
      if key in candles {
        assert key in MinutesOf(candles);
        c := candles[key];
      } else {
        c := NewCandle(state.block, state.blockHash, state.quoteToken);
      }
    }

    method ApplySwap(e: Event, state: PairState, q: Quotes)
      requires e.Swap? && FlowsOk(flowsByPair)
      modifies `flowsByPair, `candles, `eventIsPartial, `missingPriceTokens
      ensures var row := SwapRow(e, state, q);
              && flowsByPair == WithRow(old(flowsByPair), state, row)
              && MinutesOf(candles) == WithSwapAt(MinutesOf(old(candles)), state, row)
              && missingPriceTokens == old(missingPriceTokens) + row.missing
              && eventIsPartial == (old(eventIsPartial) || row.missing != {} || e.protocolFeeX.None?
                                    || e.protocolFeeY.None?)
      ensures LocalChange(old(candles), candles, {state.ident.pair}, state.timestamp)
    {
      hide SwapRow, WithSwap, InsertFlow, Flows.SortedByTime, AllSplitWell, MinutesOf, CandleOr, Boundary;
      var row := SwapRow(e, state, q);
      var pair := state.ident.pair;
      var flows := if pair in flowsByPair then flowsByPair[pair] else [];
      RowsOk(flowsByPair, pair);
      flows := InsertFlowRow(flows, row);
      flowsByPair := flowsByPair[pair := flows];
      RecordPartial(row.missing, e.protocolFeeX.None? || e.protocolFeeY.None?);
      var candle := GetCandle(state);
      PutMinute(candles, MinuteKey(state), WithSwap(candle, row));
      candles := candles[MinuteKey(state) := WithSwap(candle, row)];
    }

    method IndexPosition(owner: Id, pair: Id)
      requires forall o: Id :: StrictlySorted(PairsOf(positionPairsByOwner, o))
      modifies `positionPairsByOwner
      ensures positionPairsByOwner == WithHolder(old(positionPairsByOwner), Ledger.Holder(owner, pair))
      ensures forall o: Id :: StrictlySorted(PairsOf(positionPairsByOwner, o))
    {
      hide StrictlySorted, InsertUnique;
      WithHolderOk(positionPairsByOwner, Ledger.Holder(owner, pair));
      var listed := if owner in positionPairsByOwner then positionPairsByOwner[owner] else [];
      assert StrictlySorted(PairsOf(positionPairsByOwner, owner));
      listed := InsertSortedUnique(listed, pair);
      positionPairsByOwner := positionPairsByOwner[owner := listed];
    }

    ghost function Held(): Holdings
      reads this
    {
      Holdings(positions, positionPairsByOwner)
    }

    method ApplyLiquidity(e: Event, q: Quotes) returns (ok: bool)
      requires e.Liquidity? && OwnersOk(Held())
      modifies `positions, `positionPairsByOwner, `eventIsPartial, `missingPriceTokens
      ensures var r := AfterLiquidity(old(Held()), e, q);
              && ok == r.ok && Held() == r.holdings
              && missingPriceTokens == old(missingPriceTokens) + r.tokens
              && eventIsPartial == (old(eventIsPartial) || r.tokens != {} || r.forced)
    {
      hide Ledger.PerformAll, Ledger.LiquidityOps, WithHolder, StrictlySorted, PairsOf;
      var h := Ledger.Holder(e.owner, e.ident.pair);
      if h !in positions {
        IndexPosition(e.owner, e.ident.pair);
      }
      var m := Ledger.ApplyLiquidity(positions, h, e.ident, e.deposit, e.changes, q.x, q.y);
      positions := m.positions;
      RecordPartial(m.tokens, m.forced);
      ok := m.ok;
    }

    method ApplyPositionSnapshot(e: Event, b: Block, q: Quotes)
      requires e.PositionSnapshot? && OwnersOk(Held())
      modifies `positions, `positionPairsByOwner, `eventIsPartial, `missingPriceTokens
      ensures var r := AfterSnapshot(old(Held()), e, b, q);
              && r.ok && Held() == r.holdings
              && missingPriceTokens == old(missingPriceTokens) + r.tokens
              && eventIsPartial == (old(eventIsPartial) || r.tokens != {} || r.forced)
    {
      hide Ledger.Swept, Ledger.SnapAll, WithHolder, StrictlySorted, PairsOf;
      var h := Ledger.Holder(e.owner, e.ident.pair);
      var existed := h in positions;
      var m := Ledger.ApplySnapshot(positions, h, e.ident, e.valuations, q.x, q.y, b.number, b.timestamp);
      positions := m.positions;
      RecordPartial(m.tokens, m.forced);
      if !existed {
        IndexPosition(e.owner, e.ident.pair);
      }
    }

    method ApplyPositionTransfer(e: Event) returns (ok: bool)
      requires e.PositionTransfer? && OwnersOk(Held())
      modifies `positions, `positionPairsByOwner, `eventIsPartial, `missingPriceTokens
      ensures var r := AfterTransfer(old(Held()), e);
              && ok == r.ok && Held() == r.holdings
              && missingPriceTokens == old(missingPriceTokens) + r.tokens
              && eventIsPartial == (old(eventIsPartial) || r.tokens != {} || r.forced)
    {
      hide Ledger.PerformAll, Ledger.TransferOps, WithHolder, StrictlySorted, PairsOf;
      var pair := e.ident.pair;
      var m := Ledger.ApplyTransfer(positions, Ledger.Holder(e.from, pair), Ledger.Holder(e.to, pair), e.ident,
                                    e.transfers);
      positions := m.positions;
      RecordPartial(m.tokens, m.forced);
      if m.ok {
        IndexPosition(e.from, pair);
        IndexPosition(e.to, pair);
      }
      ok := m.ok;
    }

    method ApplyPoolStateObservation(state: PairState, o: Observation, b: Block) returns (ok: bool)
      modifies `pools, `lastChangedPoolUpdates
      ensures var r := AfterObservation(old(pools), state, o, b);
              && ok == r.Some? && pools == (if ok then r.value.0 else old(pools))
              && lastChangedPoolUpdates == old(lastChangedPoolUpdates) + (if ok then [r.value.1] else [])
    {
      hide ApplyBins;
      var pair := state.ident.pair;
      var pool := if pair in pools then pools[pair] else EMPTY_POOL;
      var chainId := b.chainId.GetOr(0);
      if pool.state.Some? && pool.state.value.chainId != chainId {
        return false;
      }
      if state.activeId.None? || state.binStep.None? || state.marketPriceQuote.None? {
        return false;
      }
      var at := At(chainId, pair, b.number, b.hash, b.timestamp);
      var next := StateOf(pool, state, o, at);
      var a := ApplyBinUpdates(pool, o.binUpdates, o.replaceBinWindow, at);
      pools := pools[pair := Pool(Some(next), a.bins, a.numeric)];
      lastChangedPoolUpdates := lastChangedPoolUpdates
        + [Update(EventId(chainId, b.hash, pair, SortIds(o.sourceEventIds)), next, SortBins(a.replaced),
                  o.replaceBinWindow)];
      ok := true;
    }

    /** What `Abs` shows of the fields. */
    lemma AbsShows()
      ensures var v := Abs();
              && v.book == priceBook.Contents() && v.listing == PairListing() && v.flows == flowsByPair
              && v.minutes == MinutesOf(candles) && v.holdings == Held() && v.activity == poolActivityByPair
              && v.pools == pools && v.partialCount == partialEventCount && v.missing == missingPriceTokens
    {
    }

    /** Publishes a market event's pair state and moves its minute candle. */
    method Publish(e: Event, b: Block, q: Quotes) returns (r: Option<PairState>)
      requires e.IsMarket() && ListingOk(PairListing()) && IndexesBuilt(pairSnapshotsByPair, histories)
      modifies `pairs, `sortedPairKeys, `minimumPairTimestamps, `maximumPairTimestamp, `pairSnapshotsByPair,
               `histories, `nextPairSnapshotOrdinal, `candles, `eventIsPartial, `missingPriceTokens
      ensures var current := CurrentPair(old(Abs()).listing, e.ident.pair);
              r == if current.Some? && !SamePairIdentity(current.value.ident, e.ident) then None
                   else Some(Published(current, e, b, q))
      ensures Abs() == AfterPublishing(old(Abs()), r)
      ensures eventIsPartial == (old(eventIsPartial) || (r.Some? && r.value.missing != {}))
      ensures IndexesBuilt(pairSnapshotsByPair, histories)
      ensures LocalChange(old(candles), candles, {e.ident.pair}, b.timestamp)
    {
      hide ListingOk, IndexesBuilt, SamePairIdentity, Published, Listed, MinutesOf, TouchedAt, Abs, PairListing, Held,
           AfterPublishing, CurrentPair, LocalChange, TrustedPriceBook.Contents;
      AbsShows();
      ghost var before := Abs();
      r := UpdatePair(e, b, q);
      if r.Some? {
        PublishedAt(CurrentPair(before.listing, e.ident.pair), e, b, q);
        UpdateCandlesForSnapshot(r.value);
      } else {
        LocalSelf(candles, {e.ident.pair}, b.timestamp);
      }
      AbsShows();
      Assemble(before, Abs(), r);
    }

    method ApplyPublishedSwap(e: Event, state: PairState, b: Block, q: Quotes)
      requires e.Swap? && FlowsOk(flowsByPair)
      modifies `candles, `eventIsPartial, `missingPriceTokens, `flowsByPair
      ensures var r := AfterPublished(old(Abs()), e, state, b, q);
              && r.ok && Abs() == Recorded(r)
              && eventIsPartial == (old(eventIsPartial) || r.tokens != {} || r.forced) && r.updates == []
      ensures LocalChange(old(candles), candles, {state.ident.pair}, state.timestamp)
    {
      hide FlowsOk, MinutesOf, SwapRow, WithRow, WithSwapAt;
      ApplySwap(e, state, q);
    }

    method ApplyPublishedLiquidity(e: Event, state: PairState, b: Block, q: Quotes) returns (ok: bool)
      requires e.Liquidity? && OwnersOk(Held())
      modifies `eventIsPartial, `missingPriceTokens, `positions, `positionPairsByOwner
      ensures var r := AfterPublished(old(Abs()), e, state, b, q);
              && ok == r.ok && Abs() == Recorded(r)
              && eventIsPartial == (old(eventIsPartial) || r.tokens != {} || r.forced) && r.updates == []
    {
      hide OwnersOk, MinutesOf, AfterLiquidity;
      ok := ApplyLiquidity(e, q);
    }

    method ApplyPublished(e: Event, state: PairState, b: Block, q: Quotes) returns (ok: bool)
      requires e.IsMarket() && FlowsOk(Abs().flows) && OwnersOk(Abs().holdings)
      modifies `candles, `eventIsPartial, `missingPriceTokens, `flowsByPair,
               `positions, `positionPairsByOwner, `pools, `lastChangedPoolUpdates
      ensures var r := AfterPublished(old(Abs()), e, state, b, q);
              && ok == r.ok && Abs() == Recorded(r)
              && eventIsPartial == (old(eventIsPartial) || r.tokens != {} || r.forced)
              && lastChangedPoolUpdates == old(lastChangedPoolUpdates) + r.updates
      ensures LocalChange(old(candles), candles, {state.ident.pair}, state.timestamp)
    {
      hide FlowsOk, OwnersOk, MinutesOf, SwapRow, WithFlow, AfterLiquidity, AfterObservation;
      if e.Swap? {
        ApplyPublishedSwap(e, state, b, q);
        ok := true;
      } else if e.Liquidity? {
        ok := ApplyPublishedLiquidity(e, state, b, q);
      } else if e.poolState.Some? {
        ok := ApplyPoolStateObservation(state, e.poolState.value, b);
      } else {
        ok := true;
      }
    }

    method ApplyMarketEvent(e: Event, b: Block) returns (ok: bool)
      requires e.IsMarket() && Working()
      modifies `pairs, `sortedPairKeys, `minimumPairTimestamps, `maximumPairTimestamp, `pairSnapshotsByPair,
               `histories, `nextPairSnapshotOrdinal, `candles, `eventIsPartial, `missingPriceTokens, `flowsByPair,
               `positions, `positionPairsByOwner, `pools, `lastChangedPoolUpdates
      ensures var r := AfterMarket(policies, old(Abs()), e, b);
              && ok == r.ok && Abs() == Recorded(r)
              && eventIsPartial == (old(eventIsPartial) || r.tokens != {} || r.forced)
              && lastChangedPoolUpdates == old(lastChangedPoolUpdates) + r.updates
      ensures IndexesBuilt(pairSnapshotsByPair, histories)
      ensures LocalChange(old(candles), candles, {e.ident.pair}, b.timestamp)
    {
      hide BookValid, ListingOk, FlowsOk, MinutesOk, OwnersOk, PoolsOk, IndexesBuilt, SamePairIdentity, Published,
           WithPair, WithTouch, MinutesOf, AfterPublished, QuotesAt, Abs;
      AbsShows();
      ghost var before := Abs();
      var q := GetQuotes(e.ident, b.timestamp);
      var published := Publish(e, b, q);
      if published.None? {
        NothingRecorded(before);
        return false;
      }
      var state := published.value;
      ghost var c := candles;
      TouchedKeeps(before, state);
      PublishedAt(CurrentPair(before.listing, e.ident.pair), e, b, q);
      MissingCommutes(WithTouch(WithPair(before, state), state), before.missing + state.missing, e, state, b, q);
      ok := ApplyPublished(e, state, b, q);
      LocalChangeTwice(old(candles), c, candles, {e.ident.pair}, b.timestamp);
    }

    method ApplyPositionEvent(e: Event, b: Block) returns (ok: bool)
      requires !e.IsMarket() && Working()
      modifies `eventIsPartial, `missingPriceTokens, `positions, `positionPairsByOwner
      ensures var r := AfterBody(policies, old(Abs()), e, b);
              && ok == r.ok && Abs() == Recorded(r) && r.updates == []
              && eventIsPartial == (old(eventIsPartial) || r.tokens != {} || r.forced)
    {
      hide BookValid, ListingOk, FlowsOk, MinutesOk, OwnersOk, PoolsOk, IndexesBuilt, MinutesOf, QuotesAt, AfterSnapshot,
           AfterTransfer;
      if e.PositionSnapshot? {
        var q := GetQuotes(e.ident, b.timestamp);
        ApplyPositionSnapshot(e, b, q);
        ok := true;
      } else {
        ok := ApplyPositionTransfer(e);
      }
    }

    method ApplyEventBody(e: Event, b: Block) returns (ok: bool)
      requires Working()
      modifies `pairs, `sortedPairKeys, `minimumPairTimestamps, `maximumPairTimestamp, `pairSnapshotsByPair,
               `histories, `nextPairSnapshotOrdinal, `candles, `eventIsPartial, `missingPriceTokens, `flowsByPair,
               `positions, `positionPairsByOwner, `pools, `lastChangedPoolUpdates
      ensures var r := AfterBody(policies, old(Abs()), e, b);
              && ok == r.ok && Abs() == Recorded(r)
              && eventIsPartial == (old(eventIsPartial) || r.tokens != {} || r.forced)
              && lastChangedPoolUpdates == old(lastChangedPoolUpdates) + r.updates
      ensures IndexesBuilt(pairSnapshotsByPair, histories)
      ensures LocalChange(old(candles), candles, if e.IsMarket() then {e.ident.pair} else {}, b.timestamp)
    {
      hide ViewOk, IndexesBuilt, Abs, AfterMarket;
      if e.IsMarket() {
        ok := ApplyMarketEvent(e, b);
      } else {
        ok := ApplyPositionEvent(e, b);
      }
    }

    /** Applies one event of a block; a partial event is counted unless it throws. */
    method ApplyEvent(e: Event, b: Block, eventIndex: nat) returns (ok: bool)
      requires Working() && ValidEvent(e, b.chainId)
      modifies `pairs, `sortedPairKeys, `minimumPairTimestamps, `maximumPairTimestamp, `pairSnapshotsByPair,
               `histories, `nextPairSnapshotOrdinal, `candles, `eventIsPartial, `missingPriceTokens, `flowsByPair,
               `positions, `positionPairsByOwner, `pools, `lastChangedPoolUpdates, `poolActivityByPair,
               `partialEventCount
      ensures var r := AfterEvent(policies, old(Abs()), e, b, eventIndex);
              && ok == r.ok && Abs() == r.view
              && lastChangedPoolUpdates == old(lastChangedPoolUpdates) + r.updates
      ensures ok ==> Working()
      ensures LocalChange(old(candles), candles, if e.IsMarket() then {e.ident.pair} else {}, b.timestamp)
    {
      hide ViewOk, IndexesBuilt, Abs, AfterBody, Logged, ValidEvent, Recorded;
      ghost var before := Abs();
      IndexPoolActivity(e, b, eventIndex);
      LoggedOk(policies, before, e, b, eventIndex);
      ClearPartial();
      ok := ApplyEventBody(e, b);
      if ok {
        AfterEventOk(policies, before, e, b, eventIndex);
      }
      CountPartial(ok && eventIsPartial);
    }

    // One block

    method ApplyPrices(b: Block)
      requires Working()
      modifies priceBook
      ensures Abs() == WithPrices(policies, old(Abs()), b)
      ensures Working()
    {
      hide ViewOk, IndexesBuilt, MinutesOf, Applied, AppliedAll, Abs, PairListing, Held;
      AbsShows();
      ghost var before := Abs();
      BookOk(policies, before);
      var i := 0;
      NothingOffered(policies, before.book, b.prices, b.timestamp);
      while i < |b.prices|
        invariant i <= |b.prices|
        invariant priceBook.Valid()
        invariant priceBook.Contents() == AppliedAll(policies, before.book, Offers(b.prices[..i], b.timestamp))
      {
        OffersStep(policies, before.book, b.prices, b.timestamp, i);
        priceBook.Apply(b.prices[i], b.timestamp);
        i := i + 1;
      }
      assert b.prices[..i] == b.prices;
      AbsShows();
      PricesOnly(policies, before, Abs(), b);
      WithPricesOk(policies, before, b);
    }

    /** Applies a block's prices and events, stopping where an event throws. */
    method ApplyCanonicalBlock(b: Block) returns (ok: bool)
      requires Working() && ValidBlock(b)
      modifies `pairs, `sortedPairKeys, `minimumPairTimestamps, `maximumPairTimestamp, `pairSnapshotsByPair,
               `histories, `nextPairSnapshotOrdinal, `candles, `eventIsPartial, `missingPriceTokens, `flowsByPair,
               `positions, `positionPairsByOwner, `pools, `lastChangedPoolUpdates, `poolActivityByPair,
               `partialEventCount, priceBook
      ensures var r := AfterBlock(policies, old(Abs()), b);
              && ok == r.ok && Abs() == r.view && lastChangedPoolUpdates == r.updates
      ensures ok ==> Working()
      ensures LocalChange(old(candles), candles, MarketPairs(b.events), b.timestamp)
    {
      hide ViewOk, IndexesBuilt, Abs, WithPrices, AfterEvent, AfterEvents, ValidEvent;
      ClearUpdates();
      ApplyPrices(b);
      ghost var start := Abs();
      NoEvents(policies, start, b);
      var i := 0;
      while i < |b.events|
        invariant i <= |b.events|
        invariant AfterEvents(policies, start, b.events[..i], b).ok
        invariant Abs() == AfterEvents(policies, start, b.events[..i], b).view
        invariant lastChangedPoolUpdates == AfterEvents(policies, start, b.events[..i], b).updates
        invariant Working()
        invariant LocalChange(old(candles), candles, MarketPairs(b.events), b.timestamp)
      {
        AfterEventsStep(policies, start, b, i);
        ghost var c := candles;
        var fine := ApplyEvent(b.events[i], b, i);
        LocalChangeIn(old(candles), c, candles, b.events, i, b.timestamp);
        i := i + 1;
        if !fine {
          AfterEventsStuck(policies, start, b, i);
          return false;
        }
      }
      assert b.events[..i] == b.events;
      ok := true;
    }

    method ClearUpdates()
      modifies `lastChangedPoolUpdates
      ensures lastChangedPoolUpdates == [] && Abs() == old(Abs())
      ensures old(Working()) ==> Working()
      ensures (old(Valid()) ==> Valid()) && (old(Thrown()) ==> Thrown())
    {
      hide ViewOk, MinutesOf, IsRolledUp, Replay, CanonicalChain, ContextOf, IndexesBuilt;
      lastChangedPoolUpdates := [];
    }

    method NewlyFinalizedCandleKeys(previous: Option<int>, next: int) returns (keys: set<Key>)
      ensures keys == NewlyFinalized(pairs.Keys, candles, previous, next)
    {
      keys := {};
      if previous.None? || next <= previous.value {
        return;
      }
      var rest := pairs.Keys;
      while rest != {}
        invariant rest <= pairs.Keys
        invariant keys == NewlyFinalized(pairs.Keys - rest, candles, previous, next)
        decreases |rest|
      {
        var pair :| pair in rest;
        var more := FinalizedOf(pair, previous.value, next);
        NewlyFinalizedGrows(pairs.Keys - rest, pair, candles, previous, next);
        keys := keys + more;
        assert pairs.Keys - (rest - {pair}) == pairs.Keys - rest + {pair};
        rest := rest - {pair};
      }
      assert pairs.Keys - rest == pairs.Keys;
    }

    method FinalizedOf(pair: Id, previous: int, next: int) returns (keys: set<Key>)
      requires next > previous
      ensures keys == NewlyFinalized({pair}, candles, Some(previous), next)
    {
      hide Boundary, Finalizes;
      keys := {};
      var i := 0;
      while i < |INTERVALS|
        invariant i <= |INTERVALS|
        invariant keys == set x | x in INTERVALS[..i] && Finalizes(candles, Bucket(pair, x, previous), previous, next)
                            :: Bucket(pair, x, previous)
      {
        var key := Bucket(pair, INTERVALS[i], previous);
        assert INTERVALS[..i + 1] == INTERVALS[..i] + [INTERVALS[i]];
        if Finalizes(candles, key, previous, next) {
          keys := keys + {key};
        }
        i := i + 1;
      }
      assert INTERVALS[..i] == INTERVALS;
    }

    /** The append path: applies the block once and rebuilds only the buckets that hold its timestamp. */
    method ApplyCanonicalAppend(b: Block, previousHeadTimestamp: Option<int>) returns (ok: bool, changedKeys: set<Key>)
      requires Working() && ValidBlock(b) && IsRolledUp(candles)
      modifies `pairs, `sortedPairKeys, `minimumPairTimestamps, `maximumPairTimestamp, `pairSnapshotsByPair,
               `histories, `nextPairSnapshotOrdinal, `candles, `eventIsPartial, `missingPriceTokens, `flowsByPair,
               `positions, `positionPairsByOwner, `pools, `lastChangedPoolUpdates, `poolActivityByPair,
               `partialEventCount, priceBook
      ensures var r := AfterBlock(policies, old(Abs()), b);
              && ok == r.ok && Abs() == r.view && lastChangedPoolUpdates == r.updates
      ensures ok ==> Working() && IsRolledUp(candles)
      ensures ok ==> changedKeys == NewlyFinalized(old(pairs).Keys, old(candles), previousHeadTimestamp, b.timestamp)
                                    + BucketsAt(MarketPairs(b.events), b.timestamp)
    {
      hide ViewOk, IndexesBuilt, IsRolledUp, AfterBlock, ValidBlock, RightExcept, NewlyFinalized, MinutesOf;
      changedKeys := NewlyFinalizedCandleKeys(previousHeadTimestamp, b.timestamp);
      ok := ApplyCanonicalBlock(b);
      if !ok {
        return;
      }
      var changedPairs := MarketPairs(b.events);
      MinuteChangeIsLocal(old(candles), candles, changedPairs, b.timestamp);
      var rolled := RebuildChangedPairs(candles, changedPairs, b.timestamp);
      PutCandles(rolled);
      changedKeys := changedKeys + BucketsAt(changedPairs, b.timestamp);
    }

    method PutCandles(c: CandleMap)
      requires MinutesOf(c) == MinutesOf(candles)
      modifies `candles
      ensures candles == c && Abs() == old(Abs())
    {
      hide MinutesOf;
      candles := c;
    }

    method ClearPairs()
      modifies `pairs, `sortedPairKeys, `minimumPairTimestamps, `maximumPairTimestamp, `pairSnapshotsByPair,
               `histories, `nextPairSnapshotOrdinal
      ensures PairListing() == EMPTY_LISTING && pairSnapshotsByPair == map[]
    {
      pairs, sortedPairKeys, minimumPairTimestamps, maximumPairTimestamp := map[], [], map[], None;
      pairSnapshotsByPair, histories, nextPairSnapshotOrdinal := map[], map[], 0;
    }

    method ClearRows()
      modifies `candles, `missingPriceTokens, `flowsByPair, `positions, `positionPairsByOwner, `pools,
               `lastChangedPoolUpdates, `poolActivityByPair, `partialEventCount
      ensures flowsByPair == map[] && candles == map[] && Held() == Holdings(map[], map[])
      ensures poolActivityByPair == map[] && pools == map[]
      ensures lastChangedPoolUpdates == [] && partialEventCount == 0 && missingPriceTokens == {}
    {
      flowsByPair, candles := map[], map[];
      positions, positionPairsByOwner, poolActivityByPair, pools := map[], map[], map[], map[];
      lastChangedPoolUpdates := [];
      partialEventCount, missingPriceTokens := 0, {};
    }

    /** Forgets the derived state. */
    method Clear()
      modifies `pairs, `sortedPairKeys, `minimumPairTimestamps, `maximumPairTimestamp, `pairSnapshotsByPair,
               `histories, `nextPairSnapshotOrdinal, `candles, `missingPriceTokens, `flowsByPair,
               `positions, `positionPairsByOwner, `pools, `lastChangedPoolUpdates, `poolActivityByPair,
               `partialEventCount, `priceBook
      ensures fresh(priceBook) && candles == map[] && lastChangedPoolUpdates == []
      ensures Abs() == EMPTY_VIEW && Working()
    {
      hide Working, Abs;
      priceBook := new TrustedPriceBook(policies);
      ClearPairs();
      ClearRows();
      NothingShown();
    }

    /** The full path: replays the retained blocks into empty state and builds every candle level. */
    method Rebuild() returns (ok: bool)
      requires CanonicalChain(blocks)
      modifies `pairs, `sortedPairKeys, `minimumPairTimestamps, `maximumPairTimestamp, `pairSnapshotsByPair,
               `histories, `nextPairSnapshotOrdinal, `candles, `eventIsPartial, `missingPriceTokens, `flowsByPair,
               `positions, `positionPairsByOwner, `pools, `lastChangedPoolUpdates, `poolActivityByPair,
               `partialEventCount, `priceBook
      ensures fresh(priceBook)
      ensures var r := Replay(policies, blocks);
              && ok == r.ok && Abs() == r.view && lastChangedPoolUpdates == r.updates
      ensures ok ==> Working() && IsRolledUp(candles)
    {
      hide ViewOk, IndexesBuilt, Abs, AfterBlock, ValidBlock, CanonicalChain, IsRolledUp, MinutesAligned;
      Clear();
      ReplayNothing(policies, blocks);
      var i := 0;
      while i < |blocks|
        invariant i <= |blocks| && fresh(priceBook)
        invariant Replay(policies, blocks[..i]).ok
        invariant Abs() == Replay(policies, blocks[..i]).view
        invariant lastChangedPoolUpdates == Replay(policies, blocks[..i]).updates
        invariant Working()
      {
        ReplayStep(policies, blocks, i);
        ChainValid(blocks, i);
        var fine := ApplyCanonicalBlock(blocks[i]);
        i := i + 1;
        if !fine {
          ReplayStuck(policies, blocks, i);
          return false;
        }
      }
      assert blocks[..i] == blocks;
      AbsShows();
      WorkingMinutes();
      var rolled := BuildCandleRollups(candles);
      PutCandles(rolled);
      ok := true;
    }

    lemma WorkingMinutes()
      requires Working()
      ensures MinutesAligned(candles)
    {
      forall k | k in candles && k.interval == Minute
        ensures Aligned(k)
      {
        assert k in MinutesOf(candles);
      }
    }

    // The chain

    /** Changes to the retained blocks and to bookkeeping leave derived state alone. */
    method SetBlocks(chain: seq<Block>)
      modifies `blocks
      ensures blocks == chain && Abs() == old(Abs())
      ensures old(Working()) ==> Working()
    {
      hide ViewOk, MinutesOf;
      blocks := chain;
    }

    method SetLastChanged(keys: set<Key>)
      modifies `lastChangedCandleKeys
      ensures lastChangedCandleKeys == keys && Abs() == old(Abs())
      ensures old(Working()) ==> Working()
      ensures (old(Valid()) ==> Valid()) && (old(Thrown()) ==> Thrown())
    {
      hide ViewOk, MinutesOf, IsRolledUp, Replay, CanonicalChain, ContextOf, IndexesBuilt;
      lastChangedCandleKeys := keys;
    }

    method SetCanonical(ctx: Context)
      modifies `canonical
      ensures canonical == ctx && Abs() == old(Abs())
      ensures old(Working()) ==> Working()
    {
      hide ViewOk, MinutesOf;
      canonical := ctx;
    }

    /** Records an appended block's identities; a canonical block cannot conflict with the index. */
    method RecordCanonicalEventIdentities(b: Block)
      requires ValidBlock(b) && Canonicalize(b, canonical) == Some(b)
      modifies `canonical
      ensures Some(canonical) == AddBlock(old(canonical), b)
      ensures Abs() == old(Abs()) && (old(Working()) ==> Working())
    {
      hide ViewOk, MinutesOf, Abs, Canonicalize, ValidEvent, Working;
      AddBlockKeys(canonical, b);
      SameChain(canonical, b);
      var ctx := RecordAppended(canonical, b);
      SetCanonical(ctx);
    }

    method ReplaceCanonicalEventIdentityIndex()
      requires CanonicalChain(blocks)
      modifies `canonical
      ensures ChainOk()
      ensures Abs() == old(Abs()) && (old(Working()) ==> Working())
    {
      hide ViewOk, MinutesOf, Abs, CanonicalChain, Working;
      ContextExists(blocks);
      var ctx := CanonicalEventContext(blocks);
      SetCanonical(ctx.value);
    }

    method AdvanceCoverage(timestamp: int)
      modifies `backfill
      ensures backfill == Advanced(old(backfill), timestamp)
      ensures Abs() == old(Abs()) && (old(Working()) ==> Working())
      ensures old(Valid()) ==> Valid()
    {
      hide ViewOk, MinutesOf, IsRolledUp, Replay, CanonicalChain, ContextOf, IndexesBuilt;
      if backfill.status == Complete {
        backfill := backfill.(coverageThrough := Some(timestamp));
      }
    }

    /** Retains a block and applies it incrementally. The block stays retained when applying it throws. */
    method AppendBlock(c: Block, previousHeadTimestamp: Option<int>) returns (ok: bool)
      requires Valid() && Extends(blocks, c)
      modifies this, priceBook
      ensures priceBook == old(priceBook)
      ensures blocks == old(blocks) + [c]
      ensures var r := Replay(policies, blocks);
              ok == r.ok && Abs() == r.view && lastChangedPoolUpdates == r.updates
      ensures reorgCount == old(reorgCount)
      ensures backfill == if ok then Advanced(old(backfill), c.timestamp) else old(backfill)
      ensures lastChangedCandleKeys
              == if ok then NewlyFinalized(old(pairs).Keys, old(candles), previousHeadTimestamp, c.timestamp)
                            + BucketsAt(MarketPairs(c.events), c.timestamp)
                 else old(lastChangedCandleKeys)
      ensures ok ==> Valid()
    {
      hide ViewOk, Working, MinutesOf, Abs, CanonicalChain, AfterBlock, IsRolledUp, NewlyFinalized, BucketsAt,
           MarketPairs, Canonicalize, ValidBlock, Replay, ContextOf, AddBlock, Advanced;
      ReplayAppend(policies, blocks, c);
      CanonicalAppend(blocks, c);
      ghost var kept := blocks;
      SetBlocks(blocks + [c]);
      var changedKeys;
      ok, changedKeys := ApplyCanonicalAppend(c, previousHeadTimestamp);
      if ok {
        RecordHead(c, changedKeys, kept);
      }
    }

    /** The bookkeeping of an append that did not throw. */
    method RecordHead(c: Block, changedKeys: set<Key>, ghost kept: seq<Block>)
      requires blocks == kept + [c] && CanonicalChain(blocks) && Extends(kept, c)
      requires ContextOf(kept) == Some(canonical) && Derived()
      modifies `lastChangedCandleKeys, `canonical, `backfill
      ensures lastChangedCandleKeys == changedKeys && backfill == Advanced(old(backfill), c.timestamp)
      ensures Valid()
    {
      hide Working, Abs, CanonicalChain, IsRolledUp, Canonicalize, ValidBlock, Replay, ContextOf, AddBlock, Advanced;
      ContextAppend(kept, c, canonical);
      SetLastChanged(changedKeys);
      RecordCanonicalEventIdentities(c);
      AdvanceCoverage(c.timestamp);
    }

    /** Replaces the retained chain and rebuilds everything from it. */
    method ReplaceChain(chain: seq<Block>) returns (ok: bool)
      requires CanonicalChain(chain)
      modifies this, priceBook
      ensures fresh(priceBook) && blocks == chain
      ensures var r := Replay(policies, blocks);
              ok == r.ok && Abs() == r.view && lastChangedPoolUpdates == r.updates
      ensures reorgCount == old(reorgCount) && backfill == old(backfill)
      ensures lastChangedCandleKeys == old(lastChangedCandleKeys)
      ensures ok ==> Valid()
    {
      hide ViewOk, Working, MinutesOf, Abs, CanonicalChain, Replay, IsRolledUp, ContextOf, IndexesBuilt;
      SetBlocks(chain);
      ReplaceCanonicalEventIdentityIndex();
      ok := Rebuild();
    }

    /** A block whose hash is retained is checked and otherwise ignored. */
    method IngestKnown(b: Block, existingIndex: nat) returns (r: IngestResult)
      requires existingIndex < |blocks| && CanonicalChain(blocks) && ValidBlock(b)
      modifies `lastChangedCandleKeys, `lastChangedPoolUpdates
      ensures r == Answer(PlanForKnown(blocks, b, existingIndex), true)
      ensures (old(Valid()) ==> Valid()) && (old(Thrown()) ==> Thrown())
      ensures r.Duplicate? ==> lastChangedCandleKeys == {} && lastChangedPoolUpdates == []
      ensures !r.Duplicate? ==> lastChangedCandleKeys == old(lastChangedCandleKeys)
                                && lastChangedPoolUpdates == old(lastChangedPoolUpdates)
    {
      hide Valid, Thrown, Abs, ContextOf, CanonicalChain, Canonicalize, ValidBlock, SamePayload, WithMissing;
      var existing := blocks[existingIndex];
      if existing.number != b.number {
        return Refused(NumberChanged);
      }
      PrefixCanonical(blocks, existingIndex);
      ContextExists(blocks[..existingIndex]);
      var ctx := CanonicalEventContext(blocks[..existingIndex]);
      var incoming := CanonicalizeBlock(b, ctx.value);
      if incoming.None? {
        return Refused(IdentityConflict);
      }
      if !SamePayload(existing, WithMissing(incoming.value, existing)) {
        return Refused(PayloadChanged);
      }
      SetLastChanged({});
      ClearUpdates();
      r := Duplicate;
    }

    /** Ingests a block. Its plan says what becomes of the chain; derived state follows by replay. */
    method IngestBlock(b: Block) returns (r: IngestResult)
      requires Valid() || (Thrown() && !Follows(blocks, b))
      modifies this, priceBook
      ensures priceBook == old(priceBook) || fresh(priceBook)
      ensures var plan := PlanFor(old(blocks), b);
              && blocks == Retained(old(blocks), plan)
              && r == Answer(plan, Replay(policies, blocks).ok)
              && (r.Failed? <==> (plan.Append? || plan.Fork?) && !Admitted(blocks))
              && reorgCount == old(reorgCount) + (if plan.Fork? then 1 else 0)
      ensures Abs() == Replay(policies, blocks).view
      ensures backfill == if r.Appended? || r.Reorganized? then Advanced(old(backfill), b.timestamp) else old(backfill)
      ensures lastChangedCandleKeys
              == if r.Appended? then NewlyFinalized(old(pairs).Keys, old(candles), HeadTimestamp(old(blocks)), b.timestamp)
                                     + BucketsAt(MarketPairs(blocks[|blocks| - 1].events), b.timestamp)
                 else if r.Reorganized? then candles.Keys
                 else if r.Duplicate? then {} else old(lastChangedCandleKeys)
      ensures r.Appended? || r.Reorganized? ==> lastChangedPoolUpdates == Replay(policies, blocks).updates
      ensures r.Duplicate? ==> lastChangedPoolUpdates == []
      ensures Recoverable()
      ensures r.Appended? || r.Reorganized? || (old(Valid()) && !r.Failed?) ==> Valid()
    {
      hide Valid, Thrown, Abs, CanonicalChain, Replay, NewlyFinalized, BucketsAt, MarketPairs, Canonicalize, ValidBlock,
           HashIndex, Admitted, PlanFor, PlanForKnown, CanonicalIn;
      PlanCases(blocks, b);
      Retains();
      FailedIff(policies, blocks, b);
      if !ValidBlock(b) {
        return Refused(Malformed);
      }
      var existingIndex := FindByHash(blocks, b.hash);
      if existingIndex.Some? {
        r := IngestKnown(b, existingIndex.value);
        Retains();
        return;
      }
      var head := |blocks| - 1;
      if blocks == [] || (b.number == blocks[head].number + 1 && b.parentHash == blocks[head].hash) {
        r := IngestChild(b);
        return;
      }
      var parentIndex := FindByHash(blocks, b.parentHash);
      if parentIndex.None? {
        return Refused(BeyondHistory);
      }
      if b.number != blocks[parentIndex.value].number + 1 {
        return Refused(NumberGap);
      }
      r := IngestFork(b, parentIndex.value);
    }

    /** Appends a block that follows the head, or the first block. */
    method IngestChild(b: Block) returns (r: IngestResult)
      requires Valid() && PlanFor(blocks, b) == PlanAppend(blocks, b)
      modifies this, priceBook
      ensures priceBook == old(priceBook)
      ensures var plan := PlanFor(old(blocks), b);
              && blocks == Retained(old(blocks), plan)
              && r == Answer(plan, Replay(policies, blocks).ok)
      ensures Abs() == Replay(policies, blocks).view && reorgCount == old(reorgCount)
      ensures backfill == if r.Appended? then Advanced(old(backfill), b.timestamp) else old(backfill)
      ensures lastChangedCandleKeys
              == if r.Appended? then NewlyFinalized(old(pairs).Keys, old(candles), HeadTimestamp(old(blocks)), b.timestamp)
                                     + BucketsAt(MarketPairs(blocks[|blocks| - 1].events), b.timestamp)
                 else old(lastChangedCandleKeys)
      ensures r.Appended? ==> lastChangedPoolUpdates == Replay(policies, blocks).updates
      ensures if r.Failed? then Thrown() else Valid()
    {
      hide Thrown, Working, Abs, CanonicalChain, Replay, IsRolledUp, NewlyFinalized, BucketsAt, MarketPairs, Canonicalize,
           PlanFor;
      var incoming := CanonicalizeBlock(b, canonical);
      if incoming.None? {
        return Refused(IdentityConflict);
      }
      AppendExtends(blocks, b);
      CanonicalizeKeepsTime(b, canonical);
      CanonicalAppend(blocks, incoming.value);
      ghost var kept := blocks;
      var ok := AppendBlock(incoming.value, HeadTimestamp(blocks));
      if !ok {
        HeadThrew(kept, incoming.value);
      }
      r := if ok then Appended else Failed;
    }

    /** Replaces everything above a retained parent by the incoming block. */
    method IngestFork(b: Block, parentIndex: nat) returns (r: IngestResult)
      requires Recoverable() && parentIndex < |blocks| - 1
      requires var incoming := CanonicalIn(blocks[..parentIndex + 1], b);
               PlanFor(blocks, b) == if incoming.None? then Refuse(IdentityConflict) else Fork(parentIndex, incoming.value)
      modifies this, priceBook
      ensures priceBook == old(priceBook) || fresh(priceBook)
      ensures var plan := PlanFor(old(blocks), b);
              && blocks == Retained(old(blocks), plan)
              && r == Answer(plan, Replay(policies, blocks).ok)
              && reorgCount == old(reorgCount) + (if plan.Fork? then 1 else 0)
      ensures Abs() == Replay(policies, blocks).view
      ensures backfill == if r.Reorganized? then Advanced(old(backfill), b.timestamp) else old(backfill)
      ensures lastChangedCandleKeys == if r.Reorganized? then candles.Keys else old(lastChangedCandleKeys)
      ensures r.Reorganized? ==> lastChangedPoolUpdates == Replay(policies, blocks).updates
      ensures Recoverable()
      ensures r.Reorganized? || (old(Valid()) && !r.Failed?) ==> Valid()
    {
      hide Valid, Thrown, Abs, CanonicalChain, Replay, Canonicalize, PlanFor;
      Retains();
      var kept := blocks[..parentIndex + 1];
      Recovers(parentIndex + 1);
      ContextExists(kept);
      var ctx := CanonicalEventContext(kept);
      var incoming := CanonicalizeBlock(b, ctx.value);
      if incoming.None? {
        return Refused(IdentityConflict);
      }
      PlanKeepsChain(blocks, b);
      CanonicalizeKeepsTime(b, ctx.value);
      CountReorg();
      var ok := ReplaceChain(kept + [incoming.value]);
      if !ok {
        HeadThrew(kept, incoming.value);
        return Failed;
      }
      SetLastChanged(candles.Keys);
      AdvanceCoverage(incoming.value.timestamp);
      r := Reorganized;
    }

    method CountReorg()
      modifies `reorgCount
      ensures reorgCount == old(reorgCount) + 1 && Abs() == old(Abs())
      ensures old(Working()) ==> Working()
    {
      hide ViewOk, MinutesOf;
      reorgCount := reorgCount + 1;
    }

    /** Moves the head back to a retained block. Replaying a prefix of a chain that replays cannot throw. */
    method RewindCanonicalHead(expected: Head) returns (r: RewindResult)
      requires Recoverable()
      modifies this, priceBook
      ensures priceBook == old(priceBook) || fresh(priceBook)
      ensures r == RewindAnswer(old(blocks), expected)
      ensures r.Rewound? ==> blocks == old(blocks)[..NumberIndex(old(blocks), expected.number).value + 1]
                             && lastChangedCandleKeys == candles.Keys && lastChangedPoolUpdates == []
      ensures !r.Rewound? ==> blocks == old(blocks)
      ensures r.AtHead? ==> lastChangedCandleKeys == {} && lastChangedPoolUpdates == []
      ensures reorgCount == old(reorgCount) + if r.Rewound? then 1 else 0
      ensures backfill == if r.Rewound? then Receded(old(backfill), expected.timestamp) else old(backfill)
      ensures Recoverable()
      ensures old(Valid()) || r.Rewound? ==> Valid()
    {
      hide Valid, Thrown, Abs, CanonicalChain, Replay, NumberIndex;
      Retains();
      if expected.number < 0 || expected.timestamp < 0 {
        return InvalidHead;
      }
      var index := FindByNumber(blocks, expected.number);
      if index.None? {
        return OutsideHistory;
      }
      var retained := blocks[index.value];
      if retained.hash != expected.hash || retained.timestamp != expected.timestamp {
        return HeadMoved;
      }
      if index.value == |blocks| - 1 {
        SetLastChanged({});
        ClearUpdates();
        return AtHead;
      }
      Recovers(index.value + 1);
      CountReorg();
      var ok := ReplaceChain(blocks[..index.value + 1]);
      SetLastChanged(candles.Keys);
      ClearUpdates();
      RecedeCoverage(retained.timestamp);
      r := Rewound;
    }

    method RecedeCoverage(timestamp: int)
      modifies `backfill
      ensures backfill == Receded(old(backfill), timestamp)
      ensures Abs() == old(Abs()) && (old(Working()) ==> Working())
      ensures old(Valid()) ==> Valid()
    {
      hide ViewOk, MinutesOf, IsRolledUp, Replay, CanonicalChain, ContextOf, IndexesBuilt;
      if backfill.coverageThrough.Some? && timestamp < backfill.coverageThrough.value {
        backfill := backfill.(coverageThrough := Some(timestamp));
      }
    }

    /** Replaces the head's position snapshots for the owners and pairs of the given ones, and rebuilds. */
    method AugmentHeadPositionSnapshots(number: int, hash: Id, snapshots: seq<Event>) returns (r: AugmentResult)
      requires Recoverable() && forall e :: e in snapshots ==> e.PositionSnapshot?
      modifies this, priceBook
      ensures priceBook == old(priceBook) || fresh(priceBook)
      ensures blocks == AugmentedChain(old(blocks), number, hash, snapshots)
      ensures r == AugmentAnswer(old(blocks), number, hash, snapshots, Replay(policies, blocks).ok)
      ensures Abs() == Replay(policies, blocks).view
      ensures r.Augmented? ==> lastChangedPoolUpdates == Replay(policies, blocks).updates
      ensures reorgCount == old(reorgCount) && backfill == old(backfill)
      ensures lastChangedCandleKeys == old(lastChangedCandleKeys)
      ensures Recoverable()
      ensures r.Augmented? || (old(Valid()) && !r.AugmentFailed?) ==> Valid()
    {
      hide ViewOk, Working, MinutesOf, Abs, CanonicalChain, Replay, IsRolledUp, ContextOf, Canonicalize, ValidBlock,
           Candidate;
      if blocks == [] {
        return NoHead;
      }
      var head, init := blocks[|blocks| - 1], blocks[..|blocks| - 1];
      if head.number != number || head.hash != hash {
        return OtherHead;
      }
      var candidate := Candidate(head, snapshots);
      if !ValidBlock(candidate) {
        return MalformedSnapshots;
      }
      Recovers(|blocks| - 1);
      ContextExists(init);
      var ctx := CanonicalEventContext(init);
      var canonicalized := CanonicalizeBlock(candidate, ctx.value);
      if canonicalized.None? {
        return SnapshotConflict;
      }
      CandidateShape(head, snapshots);
      ReplaceHead(blocks, candidate);
      assert (init + [canonicalized.value])[..|init|] == init;
      var ok := ReplaceChain(init + [canonicalized.value]);
      r := if ok then Augmented else AugmentFailed;
    }

    method UpdateBackfillState(update: Backfill)
      modifies `backfill
      ensures backfill == update
      ensures Abs() == old(Abs()) && (old(Working()) ==> Working())
    {
      hide ViewOk, MinutesOf;
      backfill := update;
    }

    method SetReorgCount(count: int)
      modifies `reorgCount
      ensures reorgCount == count && Abs() == old(Abs())
      ensures old(Working()) ==> Working()
    {
      hide ViewOk, MinutesOf;
      reorgCount := count;
    }

    function ExportCheckpoint(): Checkpoint
      reads this
    {
      Checkpoint(reorgCount, blocks, backfill)
    }

    /** Ingests a checkpoint's blocks into an empty engine and stops at the first throw, with the blocks retained so
        far and, if that throw came from applying a block, with this block too. */
    method RestoreCheckpoint(checkpoint: Checkpoint) returns (ok: bool)
      requires Valid()
      modifies this, priceBook
      ensures priceBook == old(priceBook) || fresh(priceBook)
      ensures old(blocks) != [] || checkpoint.reorgCount < 0 ==> !ok && Valid() && blocks == old(blocks)
      ensures old(blocks) == [] && checkpoint.reorgCount >= 0 ==>
                var r := RestoreAll(Restored([], old(reorgCount), old(backfill), true), checkpoint.blocks);
                && ok == r.ok && blocks == r.chain
                && (!ok ==> reorgCount == r.reorgs && backfill == r.backfill)
      ensures Abs() == Replay(policies, blocks).view
      ensures ok ==> reorgCount == checkpoint.reorgCount && backfill == checkpoint.backfill
      ensures old(blocks) == [] && checkpoint.reorgCount >= 0
              && CanonicalChain(checkpoint.blocks) && Admitted(checkpoint.blocks) ==>
                ok && blocks == checkpoint.blocks
      ensures Recoverable()
      ensures ok || Admitted(blocks) ==> Valid()
    {
      hide ViewOk, Working, MinutesOf, Abs, CanonicalChain, Replay, IsRolledUp, ContextOf, PlanFor, Admitted,
           RestoreAll;
      if blocks != [] || checkpoint.reorgCount < 0 {
        return false;
      }
      ghost var start := Restored([], reorgCount, backfill, true);
      RestoreNothing(start, checkpoint.blocks);
      ghost var faithful := CanonicalChain(checkpoint.blocks) && Admitted(checkpoint.blocks);
      var i := 0;
      while i < |checkpoint.blocks|
        invariant i <= |checkpoint.blocks|
        invariant priceBook == old(priceBook) || fresh(priceBook)
        invariant Valid()
        invariant RestoreAll(start, checkpoint.blocks[..i]) == Restored(blocks, reorgCount, backfill, true)
        invariant faithful ==> blocks == checkpoint.blocks[..i]
      {
        if faithful {
          CanonicalReplaysIff(policies, checkpoint.blocks);
          RestoresNext(policies, checkpoint.blocks, i);
        }
        RestoreNextBlock(start, checkpoint.blocks, i);
        var r := IngestBlock(checkpoint.blocks[i]);
        i := i + 1;
        if r.Refused? || r.Failed? {
          RestoreStuck(start, checkpoint.blocks, i);
          return false;
        }
      }
      SetReorgCount(checkpoint.reorgCount);
      UpdateBackfillState(checkpoint.backfill);
      assert checkpoint.blocks[..i] == checkpoint.blocks;
      ok := true;
    }
  }
}
