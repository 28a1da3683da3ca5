/** What the derived state keeps, whatever blocks are replayed: the maps, indexes and lists that describe the
    same thing agree with each other.
    Listings: the published state of a pair is the latest in its history, and seen times bound it.
    Flows and candles: rows stay sorted by time, and every minute candle sums the rows of its minute.
    Holdings: the owner index lists exactly the holders of positions. Pools: the numeric bin index
    agrees with the bin map. ReplayOk puts them together for every chain. */
module ViewInvariants {
  import opened Domain
  import opened PriceBook
  import opened PairIndex
  import opened Flows
  import opened Candles
  import opened CandleTheorems
  import Ledger
  import opened SortedIds
  import opened PoolState
  import opened Chain
  import opened Projection

  // Pairs

  ghost predicate HistoryOk(history: seq<Stamp>, current: PairState, first: int, next: nat, pair: Id) {
    && history != [] && history[|history| - 1].state == current
    && InChainOrder(history)
    && (forall s :: s in history ==> s.ordinal < next && s.state.ident.pair == pair && s.state.timestamp >= first)
    && (exists s :: s in history && s.state.timestamp == first)
  }

  ghost predicate SeenBy(history: seq<Stamp>, last: Option<int>) {
    forall s :: s in history ==> last.Some? && s.state.timestamp <= last.value
  }

  /** The sorted list names the known pairs; each pair's current state ends its chain-order history, and its
      first timestamp is the least of the history. */
  ghost predicate ListingOk(l: Listing) {
    && StrictlySorted(l.sortedPairs)
    && (forall p: Id :: p in l.sortedPairs <==> p in l.pairs)
    && l.histories.Keys == l.pairs.Keys && l.firstSeen.Keys == l.pairs.Keys
    && (forall p: Id {:trigger l.pairs[p]} :: p in l.pairs ==>
          HistoryOk(l.histories[p], l.pairs[p], l.firstSeen[p], l.nextOrdinal, p))
    && (forall p: Id {:trigger l.histories[p]} :: p in l.pairs ==> SeenBy(l.histories[p], l.lastSeen))
  }

  lemma StampedOk(history: seq<Stamp>, current: PairState, seen: map<Id, int>, next: nat, state: PairState)
    requires var pair := state.ident.pair;
             if pair in seen then HistoryOk(history, current, seen[pair], next, pair) else history == []
    ensures var pair := state.ident.pair;
            HistoryOk(history + [Stamp(state, next)], state, Earliest(seen, pair, state.timestamp), next + 1, pair)
  {
    var pair := state.ident.pair;
    var longer := history + [Stamp(state, next)];
    if pair in seen && seen[pair] < state.timestamp {
      var s :| s in history && s.state.timestamp == seen[pair];
      assert s in longer;
    } else {
      assert Stamp(state, next) in longer;
    }
    InChainOrderGrows(history, Stamp(state, next));
  }

  lemma InChainOrderGrows(history: seq<Stamp>, s: Stamp)
    requires InChainOrder(history) && forall x :: x in history ==> x.ordinal < s.ordinal
    ensures InChainOrder(history + [s])
  {
    forall i | 0 <= i < |history|
      ensures history[i].ordinal < s.ordinal
    {
      assert history[i] in history;
    }
  }

  lemma SeenByMore(history: seq<Stamp>, last: Option<int>, t: int)
    requires SeenBy(history, last)
    ensures SeenBy(history, Some(Latest(last, t)))
  {
  }

  lemma SeenByStamped(history: seq<Stamp>, last: Option<int>, s: Stamp)
    requires SeenBy(history, last)
    ensures SeenBy(history + [s], Some(Latest(last, s.state.timestamp)))
  {
    SeenByMore(history, last, s.state.timestamp);
  }

  lemma HistoryOkLater(history: seq<Stamp>, current: PairState, first: int, next: nat, pair: Id)
    requires HistoryOk(history, current, first, next, pair)
    ensures HistoryOk(history, current, first, next + 1, pair)
  {
  }

  lemma ListedKeys(l: Listing, state: PairState)
    requires ListingOk(l)
    ensures var r := Listed(l, state);
            && StrictlySorted(r.sortedPairs)
            && (forall p: Id :: p in r.sortedPairs <==> p in r.pairs)
            && r.histories.Keys == r.pairs.Keys && r.firstSeen.Keys == r.pairs.Keys
  {
    hide HistoryOk, SeenBy;
    InsertUniqueKeeps(l.sortedPairs, state.ident.pair);
  }

  lemma ListedHistories(l: Listing, state: PairState, p: Id)
    requires ListingOk(l) && p in Listed(l, state).pairs
    ensures var r := Listed(l, state);
            && p in r.histories && p in r.firstSeen
            && HistoryOk(r.histories[p], r.pairs[p], r.firstSeen[p], r.nextOrdinal, p)
            && SeenBy(r.histories[p], r.lastSeen)
  {
    hide HistoryOk, SeenBy, InsertUnique;
    var pair := state.ident.pair;
    if p != pair {
      assert l.pairs[p] == l.pairs[p] && l.histories[p] == l.histories[p];
      HistoryOkLater(l.histories[p], l.pairs[p], l.firstSeen[p], l.nextOrdinal, p);
      SeenByMore(l.histories[p], l.lastSeen, state.timestamp);
    } else {
      if p in l.pairs {
        assert l.pairs[p] == l.pairs[p] && l.histories[p] == l.histories[p];
      } else {
        SeenByNothing(l.lastSeen);
      }
      StampedOk(HistoryOf(l, pair), if pair in l.pairs then l.pairs[pair] else state, l.firstSeen,
                l.nextOrdinal, state);
      SeenByStamped(HistoryOf(l, pair), l.lastSeen, Stamp(state, l.nextOrdinal));
    }
  }

  lemma SeenByNothing(last: Option<int>)
    ensures SeenBy([], last)
  {
  }

  /** Publishing a state keeps the pair maps in agreement. */
  lemma ListedOk(l: Listing, state: PairState)
    requires ListingOk(l)
    ensures ListingOk(Listed(l, state))
  {
    hide HistoryOk, SeenBy, InsertUnique, StrictlySorted;
    var r := Listed(l, state);
    ListedKeys(l, state);
    forall p: Id | p in r.pairs
      ensures HistoryOk(r.histories[p], r.pairs[p], r.firstSeen[p], r.nextOrdinal, p)
      ensures SeenBy(r.histories[p], r.lastSeen)
    {
      ListedHistories(l, state, p);
    }
  }

  // Flows and minute candles

  ghost predicate FlowsOk(flows: FlowMap) {
    forall p: Id :: p in flows ==> Flows.SortedByTime(flows[p]) && AllSplitWell(flows[p])
  }

  ghost predicate MinuteOk(k: Key, c: Candle) {
    k.interval == Minute && Aligned(k) && PricesCoherent(c)
  }

  ghost predicate MinutesOk(minutes: CandleMap, flows: FlowMap) {
    && (forall k :: k in minutes ==> MinuteOk(k, minutes[k]))
    && MinuteSums(minutes, SwapSums(flows))
  }

  lemma MinuteKeyAligned(state: PairState)
    ensures Aligned(MinuteKey(state)) && MinuteKey(state).interval == Minute
  {
    BoundaryHolds(state.timestamp, Minute);
  }

  lemma CandleOrOk(minutes: CandleMap, flows: FlowMap, state: PairState)
    requires MinutesOk(minutes, flows)
    ensures PricesCoherent(CandleOr(minutes, state))
    ensures CandleOr(minutes, state).stats == StatsOf(Find(minutes, MinuteKey(state)))
  {
  }

  /** A touch changes no sum. */
  lemma WithTouchOk(v: View, state: PairState)
    requires MinutesOk(v.minutes, v.flows)
    ensures MinutesOk(WithTouch(v, state).minutes, v.flows)
  {
    hide SwapSums, Aligned, PricesCoherent, MinuteKey, CandleOr;
    var k, c := MinuteKey(state), CandleOr(v.minutes, state);
    MinuteKeyAligned(state);
    CandleOrOk(v.minutes, v.flows, state);
    TouchedCoherent(c, state);
    SumsKept(v.minutes, SwapSums(v.flows), k, Touched(c, state));
  }

  lemma SumsKept(minutes: CandleMap, f: WindowSum, k: Key, c: Candle)
    requires MinuteSums(minutes, f) && c.stats == StatsOf(Find(minutes, k))
    ensures MinuteSums(minutes[k := c], f)
  {
    hide Aligned;
    forall m: Key | m.interval == Minute && Aligned(m)
      ensures SumsRight(minutes[k := c], f, m)
    {
      assert SumsRight(minutes, f, m);
    }
  }

  /** A swap's row enters the flow index and its minute, and no other minute's window. */
  lemma WithFlowOk(v: View, state: PairState, row: FlowRow)
    requires MinutesOk(v.minutes, v.flows) && FlowsOk(v.flows)
    requires FeesSplitWell(row) && row.timestamp == state.timestamp
    ensures var r := WithFlow(v, state, row); MinutesOk(r.minutes, r.flows) && FlowsOk(r.flows)
  {
    hide SwapSums, Aligned, PricesCoherent, MinuteKey, CandleOr, AllSplitWell, Flows.SortedByTime, InsertFlow;
    var pair, k, c := state.ident.pair, MinuteKey(state), CandleOr(v.minutes, state);
    MinuteKeyAligned(state);
    CandleOrOk(v.minutes, v.flows, state);
    WithSwapCoherent(c, row);
    RowsOk(v.flows, pair);
    InsertFlowSorted(RowsOf(v.flows, pair), row);
    InsertFlowKeepsSplit(RowsOf(v.flows, pair), row);
    FlowSums(v, state, row);
  }

  lemma RowsOk(flows: FlowMap, pair: Id)
    requires FlowsOk(flows)
    ensures Flows.SortedByTime(RowsOf(flows, pair)) && AllSplitWell(RowsOf(flows, pair))
  {
  }

  lemma WithSwapCoherent(c: Candle, row: FlowRow)
    requires PricesCoherent(c)
    ensures PricesCoherent(WithSwap(c, row))
    ensures WithSwap(c, row).stats == Plus(c.stats, RowStats(row))
  {
  }

  lemma FlowSums(v: View, state: PairState, row: FlowRow)
    requires MinutesOk(v.minutes, v.flows) && row.timestamp == state.timestamp
    ensures var r := WithFlow(v, state, row); MinuteSums(r.minutes, SwapSums(r.flows))
  {
    hide SwapSums, Aligned, PricesCoherent, InsertFlow, Plus;
    var r := WithFlow(v, state, row);
    forall m: Key | m.interval == Minute && Aligned(m)
      ensures SumsRight(r.minutes, SwapSums(r.flows), m)
    {
      assert SumsRight(v.minutes, SwapSums(v.flows), m);
      FlowSumAt(v, state, row, m);
    }
  }

  lemma FlowSumAt(v: View, state: PairState, row: FlowRow, m: Key)
    requires MinutesOk(v.minutes, v.flows) && row.timestamp == state.timestamp
    requires m.interval == Minute && Aligned(m) && SumsRight(v.minutes, SwapSums(v.flows), m)
    ensures var r := WithFlow(v, state, row); SumsRight(r.minutes, SwapSums(r.flows), m)
  {
    hide MinutesOk, Boundary, InsertFlow, Plus, Total, CandleOr, WithSwap, Share, RowStats, RowsOf, Aligned;
    var r, to := WithFlow(v, state, row), m.start + Seconds(Minute);
    FlowRows(v, state, row, m.pair);
    if m.pair == state.ident.pair {
      FlowSumOfPair(v, state, row, m, to);
    }
  }

  lemma FlowRows(v: View, state: PairState, row: FlowRow, pair: Id)
    ensures RowsOf(WithFlow(v, state, row).flows, pair)
            == if pair == state.ident.pair then InsertFlow(RowsOf(v.flows, pair), row) else RowsOf(v.flows, pair)
  {
  }

  lemma FlowSumOfPair(v: View, state: PairState, row: FlowRow, m: Key, to: int)
    requires MinutesOk(v.minutes, v.flows) && row.timestamp == state.timestamp
    requires m.pair == state.ident.pair && m.interval == Minute && Aligned(m) && to == m.start + Seconds(Minute)
    requires StatsOf(Find(v.minutes, m)) == Total(RowsOf(v.flows, m.pair), m.start, to)
    ensures StatsOf(Find(WithFlow(v, state, row).minutes, m))
            == Total(InsertFlow(RowsOf(v.flows, m.pair), row), m.start, to)
  {
    hide MinutesOk, InsertFlow, Plus, Total, CandleOr, WithSwap, Share, RowStats, RowsOf, StatsOf;
    BoundaryTiles(state.timestamp, m.start, Minute);
    InsertFlowTotal(RowsOf(v.flows, m.pair), row, m.start, to);
    if m == MinuteKey(state) {
      ShareInside(row, m.start, to);
      CandleOrOk(v.minutes, v.flows, state);
      WithSwapSum(v, state, row);
    } else {
      ShareOutside(row, m.start, to);
      PlusZero(Total(RowsOf(v.flows, m.pair), m.start, to));
    }
  }

  lemma WithSwapSum(v: View, state: PairState, row: FlowRow)
    ensures StatsOf(Find(WithFlow(v, state, row).minutes, MinuteKey(state)))
            == Plus(CandleOr(v.minutes, state).stats, RowStats(row))
  {
  }

  /** The rounding bound of a swap row follows from the checks on incoming blocks and from positive prices. */
  lemma SwapRowOk(policies: Policies, book: Book, e: Event, chainId: Option<int>, state: PairState, t: int)
    requires e.Swap? && ValidEvent(e, chainId) && BookValid(policies, book)
    ensures FeesSplitWell(SwapRow(e, state, QuotesAt(policies, book, state.ident, t)))
  {
    hide PriceAt, BookValid, ValueAmounts;
    PricePositive(policies, book, state.ident.tokenX, t);
    PricePositive(policies, book, state.ident.tokenY, t);
    if e.protocolFeeX.Some? && e.protocolFeeY.Some? {
      var q := QuotesAt(policies, book, state.ident, t);
      SwapRowSplitsWell(state.ident, e.feeX, e.feeY, e.protocolFeeX.value, e.protocolFeeY.value, q.x, q.y);
    }
  }

  // Positions

  /** Each owner's list names exactly the pairs in which the owner has a position. */
  ghost predicate OwnersOk(held: Holdings) {
    && (forall o: Id :: StrictlySorted(PairsOf(held.owners, o)))
    && (forall h: Ledger.Holder :: h in held.positions <==> h.pair in PairsOf(held.owners, h.owner))
  }

  lemma WithHolderOk(owners: OwnerIndex, h: Ledger.Holder)
    requires forall o: Id :: StrictlySorted(PairsOf(owners, o))
    ensures forall o: Id :: StrictlySorted(PairsOf(WithHolder(owners, h), o))
    ensures forall x: Ledger.Holder :: x.pair in PairsOf(WithHolder(owners, h), x.owner) <==>
                                         x.pair in PairsOf(owners, x.owner) || x == h
  {
    hide StrictlySorted, InsertUnique;
    InsertUniqueKeeps(PairsOf(owners, h.owner), h.pair);
    forall o: Id
      ensures StrictlySorted(PairsOf(WithHolder(owners, h), o))
    {
      assert StrictlySorted(PairsOf(owners, o));
    }
  }

  lemma {:induction false} LiquidityKeys(positions: Ledger.Positions, h: Ledger.Holder, ident: PairIdentity,
                                         deposit: bool, changes: seq<BinChange>, x: Option<int>, y: Option<int>)
    requires h in positions
    ensures Ledger.PerformAll(positions, Ledger.LiquidityOps(h, ident, deposit, changes, x, y)).positions.Keys
            == positions.Keys
  {
    if changes != [] {
      LiquidityKeys(positions, h, ident, deposit, changes[..|changes| - 1], x, y);
      LiquidityKeysStep(positions, h, ident, deposit, changes, x, y);
    }
  }

  lemma LiquidityKeysStep(positions: Ledger.Positions, h: Ledger.Holder, ident: PairIdentity,
                          deposit: bool, changes: seq<BinChange>, x: Option<int>, y: Option<int>)
    requires changes != [] && h in positions
    requires Ledger.PerformAll(positions, Ledger.LiquidityOps(h, ident, deposit, changes[..|changes| - 1], x, y))
             .positions.Keys == positions.Keys
    ensures Ledger.PerformAll(positions, Ledger.LiquidityOps(h, ident, deposit, changes, x, y)).positions.Keys
            == positions.Keys
  {
    hide Ledger.Changed, Ledger.Transferred, ValueAmounts;
    var n := |changes| - 1;
    assert changes[..n + 1] == changes;
    Ledger.LiquidityOpsStep(h, ident, deposit, changes, x, y, n);
    var ops := Ledger.LiquidityOps(h, ident, deposit, changes[..n], x, y);
    var c := changes[n];
    var value := ValueAmounts(ident, c.amountX, c.amountY, x, y);
    Ledger.PerformAllStep(positions, ops, Ledger.Change(h, ident, deposit, c, value));
    ChangedKeys(Ledger.PerformAll(positions, ops).positions, h, deposit, c, value);
  }

  lemma ChangedKeys(positions: Ledger.Positions, h: Ledger.Holder, deposit: bool, change: BinChange, value: Valued)
    requires h in positions
    ensures Ledger.Changed(positions, h, deposit, change, value).positions.Keys == positions.Keys
  {
  }

  lemma {:induction false} TransferKeys(positions: Ledger.Positions, from: Ledger.Holder, to: Ledger.Holder,
                                        ident: PairIdentity, transfers: seq<BinTransfer>)
    requires from in positions && to in positions
    ensures Ledger.PerformAll(positions, Ledger.TransferOps(from, to, ident, transfers)).positions.Keys
            == positions.Keys
  {
    hide Ledger.Changed, Ledger.Transferred;
    if transfers != [] {
      var n := |transfers| - 1;
      TransferKeys(positions, from, to, ident, transfers[..n]);
      var ops := Ledger.TransferOps(from, to, ident, transfers[..n]);
      Ledger.PerformAllStep(positions, ops, Ledger.Transfer(from, to, ident, transfers[n]));
      TransferredKeys(Ledger.PerformAll(positions, ops).positions, from, to, transfers[n]);
    }
  }

  lemma TransferredKeys(positions: Ledger.Positions, from: Ledger.Holder, to: Ledger.Holder, transfer: BinTransfer)
    requires from in positions && to in positions
    ensures Ledger.Transferred(positions, from, to, transfer).positions.Keys == positions.Keys
  {
  }

  lemma AfterLiquidityOk(h: Holdings, e: Event, q: Quotes)
    requires e.Liquidity? && OwnersOk(h)
    ensures OwnersOk(AfterLiquidity(h, e, q).holdings)
  {
    hide Ledger.PerformAll, Ledger.LiquidityOps, StrictlySorted, InsertUnique, PairsOf, WithHolder;
    var holder := Ledger.Holder(e.owner, e.ident.pair);
    LiquidityKeys(Ledger.WithPosition(h.positions, holder, e.ident), holder, e.ident, e.deposit, e.changes, q.x, q.y);
    WithHolderOk(h.owners, holder);
  }

  lemma AfterSnapshotOk(h: Holdings, e: Event, b: Block, q: Quotes)
    requires e.PositionSnapshot? && OwnersOk(h)
    ensures OwnersOk(AfterSnapshot(h, e, b, q).holdings)
  {
    hide Ledger.Swept, Ledger.SnapAll, StrictlySorted, InsertUnique, PairsOf, WithHolder;
    WithHolderOk(h.owners, Ledger.Holder(e.owner, e.ident.pair));
  }

  lemma AfterTransferOk(h: Holdings, e: Event)
    requires e.PositionTransfer? && OwnersOk(h) && AfterTransfer(h, e).ok
    ensures OwnersOk(AfterTransfer(h, e).holdings)
  {
    hide Ledger.PerformAll, Ledger.TransferOps, StrictlySorted, InsertUnique, PairsOf, WithHolder;
    var from, to := Ledger.Holder(e.from, e.ident.pair), Ledger.Holder(e.to, e.ident.pair);
    TransferKeys(Ledger.WithPosition(Ledger.WithPosition(h.positions, from, e.ident), to, e.ident), from, to,
                 e.ident, e.transfers);
    WithHolderOk(h.owners, from);
    WithHolderOk(WithHolder(h.owners, from), to);
  }

  // Pools

  ghost predicate PoolsOk(pools: map<Id, Pool>) {
    forall p: Id :: p in pools ==> IndexAgrees(pools[p].bins, pools[p].numeric)
  }

  lemma AfterObservationOk(pools: map<Id, Pool>, state: PairState, o: Observation, b: Block)
    requires PoolsOk(pools)
    ensures var r := AfterObservation(pools, state, o, b); r.Some? ==> PoolsOk(r.value.0)
  {
    hide IndexAgrees, Observed;
    PoolOrOk(pools, state.ident.pair);
    ObservedAgrees(PoolOr(pools, state.ident.pair), state, o,
                   At(b.chainId.GetOr(0), state.ident.pair, b.number, b.hash, b.timestamp));
  }

  lemma PoolOrOk(pools: map<Id, Pool>, pair: Id)
    requires PoolsOk(pools)
    ensures IndexAgrees(PoolOr(pools, pair).bins, PoolOr(pools, pair).numeric)
  {
  }

  // The whole state

  ghost predicate ViewOk(policies: Policies, v: View) {
    && BookValid(policies, v.book)
    && ListingOk(v.listing)
    && FlowsOk(v.flows)
    && MinutesOk(v.minutes, v.flows)
    && OwnersOk(v.holdings)
    && PoolsOk(v.pools)
  }

  lemma PublishedTouchedOk(policies: Policies, v: View, state: PairState)
    requires ViewOk(policies, v)
    ensures ViewOk(policies, WithTouch(WithPair(v, state), state))
  {
    hide BookValid, ListingOk, FlowsOk, MinutesOk, OwnersOk, PoolsOk;
    ListedOk(v.listing, state);
    WithTouchOk(WithPair(v, state), state);
  }

  lemma SwapOk(policies: Policies, v: View, e: Event, b: Block, state: PairState, t: int)
    requires ViewOk(policies, v) && e.Swap? && ValidEvent(e, b.chainId) && state.timestamp == t
    ensures ViewOk(policies, WithFlow(v, state, SwapRow(e, state, QuotesAt(policies, v.book, state.ident, t))))
  {
    hide BookValid, ListingOk, FlowsOk, MinutesOk, OwnersOk, PoolsOk, ValidEvent, QuotesAt, FeesSplitWell;
    var q := QuotesAt(policies, v.book, state.ident, t);
    SwapRowOk(policies, v.book, e, b.chainId, state, t);
    SwapRowTime(e, state, q);
    WithFlowOk(v, state, SwapRow(e, state, q));
  }

  lemma SwapRowTime(e: Event, state: PairState, q: Quotes)
    requires e.Swap?
    ensures SwapRow(e, state, q).timestamp == state.timestamp
  {
  }

  lemma AfterMarketOk(policies: Policies, v: View, e: Event, b: Block)
    requires ViewOk(policies, v) && e.IsMarket() && ValidEvent(e, b.chainId) && AfterMarket(policies, v, e, b).ok
    ensures ViewOk(policies, AfterMarket(policies, v, e, b).view)
  {
    hide BookValid, ListingOk, FlowsOk, MinutesOk, OwnersOk, PoolsOk, ValidEvent, QuotesAt, SwapRow, Published,
         SamePairIdentity, WithPair, WithTouch;
    var q := QuotesAt(policies, v.book, e.ident, b.timestamp);
    var state := Published(CurrentPair(v.listing, e.ident.pair), e, b, q);
    PublishedAt(CurrentPair(v.listing, e.ident.pair), e, b, q);
    PublishedTouchedOk(policies, v, state);
    var touched := WithTouch(WithPair(v, state), state);
    TouchedKeeps(v, state);
    if e.Swap? {
      SwapOk(policies, touched, e, b, state, b.timestamp);
    } else if e.Liquidity? {
      LiquidityOk(policies, touched, e, q);
    } else if e.poolState.Some? {
      ObservationOk(policies, touched, state, e.poolState.value, b);
    }
  }

  lemma TouchedKeeps(v: View, state: PairState)
    ensures var r := WithTouch(WithPair(v, state), state);
            && r.book == v.book && r.flows == v.flows && r.holdings == v.holdings && r.pools == v.pools
            && r.missing == v.missing
  {
  }

  lemma LiquidityOk(policies: Policies, v: View, e: Event, q: Quotes)
    requires ViewOk(policies, v) && e.Liquidity?
    ensures ViewOk(policies, WithHeld(v, AfterLiquidity(v.holdings, e, q)).view)
  {
    hide BookValid, ListingOk, FlowsOk, MinutesOk, OwnersOk, PoolsOk, Ledger.PerformAll, Ledger.LiquidityOps, WithHolder;
    AfterLiquidityOk(v.holdings, e, q);
  }

  lemma ObservationOk(policies: Policies, v: View, state: PairState, o: Observation, b: Block)
    requires ViewOk(policies, v)
    ensures ViewOk(policies, WithPool(v, AfterObservation(v.pools, state, o, b)).view)
  {
    hide BookValid, ListingOk, FlowsOk, MinutesOk, OwnersOk, PoolsOk, Observed;
    AfterObservationOk(v.pools, state, o, b);
  }

  lemma AfterBodyOk(policies: Policies, v: View, e: Event, b: Block)
    requires ViewOk(policies, v) && ValidEvent(e, b.chainId) && AfterBody(policies, v, e, b).ok
    ensures ViewOk(policies, AfterBody(policies, v, e, b).view)
  {
    hide BookValid, ListingOk, FlowsOk, MinutesOk, OwnersOk, PoolsOk, ValidEvent, AfterMarket, QuotesAt,
         Ledger.Snapshotted, Ledger.PerformAll, Ledger.TransferOps, WithHolder;
    if e.IsMarket() {
      AfterMarketOk(policies, v, e, b);
    } else if e.PositionSnapshot? {
      AfterSnapshotOk(v.holdings, e, b, QuotesAt(policies, v.book, e.ident, b.timestamp));
    } else {
      AfterTransferOk(v.holdings, e);
    }
  }

  lemma LoggedOk(policies: Policies, v: View, e: Event, b: Block, index: nat)
    requires ViewOk(policies, v)
    ensures ViewOk(policies, Logged(v, e, b, index))
  {
    hide BookValid, ListingOk, FlowsOk, MinutesOk, OwnersOk, PoolsOk, ActivityRow;
  }

  lemma AfterEventOk(policies: Policies, v: View, e: Event, b: Block, index: nat)
    requires ViewOk(policies, v) && ValidEvent(e, b.chainId) && AfterEvent(policies, v, e, b, index).ok
    ensures ViewOk(policies, AfterEvent(policies, v, e, b, index).view)
  {
    hide BookValid, ListingOk, FlowsOk, MinutesOk, OwnersOk, PoolsOk, ValidEvent, AfterBody, Logged;
    var logged := Logged(v, e, b, index);
    LoggedOk(policies, v, e, b, index);
    AfterBodyOk(policies, logged, e, b);
  }

  lemma {:induction false} AfterEventsOk(policies: Policies, v: View, events: seq<Event>, b: Block)
    requires ViewOk(policies, v) && AfterEvents(policies, v, events, b).ok
    requires forall e :: e in events ==> ValidEvent(e, b.chainId)
    ensures ViewOk(policies, AfterEvents(policies, v, events, b).view)
  {
    hide ViewOk, ValidEvent, AfterEvent;
    if events != [] {
      var n := |events| - 1;
      AfterEventsOk(policies, v, events[..n], b);
      AfterEventOk(policies, AfterEvents(policies, v, events[..n], b).view, events[n], b, n);
    }
  }

  lemma WithPricesOk(policies: Policies, v: View, b: Block)
    requires ViewOk(policies, v)
    ensures ViewOk(policies, WithPrices(policies, v, b))
  {
    hide BookValid, ListingOk, FlowsOk, MinutesOk, OwnersOk, PoolsOk, AppliedAll;
    AppliedAllKeepsValid(policies, v.book, Offers(b.prices, b.timestamp));
  }

  lemma AfterBlockOk(policies: Policies, v: View, b: Block)
    requires ViewOk(policies, v) && ValidBlock(b) && AfterBlock(policies, v, b).ok
    ensures ViewOk(policies, AfterBlock(policies, v, b).view)
  {
    hide ViewOk, ValidEvent, AfterEvents, WithPrices;
    WithPricesOk(policies, v, b);
    AfterEventsOk(policies, WithPrices(policies, v, b), b.events, b);
  }

  lemma EmptyViewOk(policies: Policies)
    ensures ViewOk(policies, EMPTY_VIEW)
  {
  }

  /** Main result: every chain of valid blocks that replays leaves the derived state consistent. */
  lemma {:induction false} ReplayOk(policies: Policies, blocks: seq<Block>)
    requires Replay(policies, blocks).ok && forall b :: b in blocks ==> ValidBlock(b)
    ensures ViewOk(policies, Replay(policies, blocks).view)
  {
    hide ViewOk, ValidBlock, AfterBlock;
    if blocks == [] {
      EmptyViewOk(policies);
    } else {
      var init, b := blocks[..|blocks| - 1], blocks[|blocks| - 1];
      ReplayOk(policies, init);
      AfterBlockOk(policies, Replay(policies, init).view, b);
    }
  }
}
