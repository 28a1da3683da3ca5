/** The derived state of the engine as a function of the retained blocks: what replaying them yields,
    including what is left behind when an event throws. */
module Projection {
  import opened Domain
  import opened Fixed
  import opened PriceBook
  import opened PairIndex
  import opened Flows
  import opened Candles
  import opened CandleTheorems
  import Ledger
  import opened SortedIds
  import opened PoolState

  datatype ActivityKind = SwapActivity | DepositActivity | WithdrawActivity | TransferActivity

  /** The row's identity: the block hash with the source event id, or with the event's index. */
  datatype ActivityId = FromSource(blockHash: Id, eventId: Id) | FromIndex(blockHash: Id, index: nat)

  datatype Activity = Activity(id: ActivityId, pair: Id, kind: ActivityKind, owner: Option<Id>, from: Option<Id>,
                               to: Option<Id>, amountX: Option<int>, amountY: Option<int>, bins: seq<BinKey>,
                               block: int, blockHash: Id, transaction: Option<Id>, logIndex: Option<int>,
                               sequence: int, timestamp: int)

  /** What is known about pairs: current states, their sorted keys, the range of their timestamps, and the
      chain-order history of publications behind the as-of index. */
  datatype Listing = Listing(pairs: map<Id, PairState>, sortedPairs: seq<Id>, firstSeen: map<Id, int>,
                             lastSeen: Option<int>, histories: map<Id, seq<Stamp>>, nextOrdinal: nat)

  /** Positions and the index of each owner's pairs. */
  datatype Holdings = Holdings(positions: Ledger.Positions, owners: OwnerIndex)

  /** Derived state. Candles are kept at minute level here; the other levels follow from them, and the as-of
      index follows from the histories. */
  datatype View = View(book: Book, listing: Listing, flows: FlowMap, minutes: CandleMap, holdings: Holdings,
                       activity: map<Id, seq<Activity>>, pools: map<Id, Pool>, partialCount: nat, missing: set<Id>)

  const EMPTY_LISTING := Listing(map[], [], map[], None, map[], 0)
  const EMPTY_VIEW := View(EMPTY_BOOK, EMPTY_LISTING, map[], map[], Holdings(map[], map[]), map[], map[], 0, {})

  /** State after a step, the tokens and force with which it was recorded as partial, the pool updates it
      emitted, and whether it returned normally. */
  datatype Outcome = Outcome(view: View, tokens: set<Id>, forced: bool, updates: seq<Update>, ok: bool)

  // Activity

  function BinsOf(e: Event): seq<BinKey> {
    match e
    case Liquidity(_, _, _, _, _, _, _, changes) => seq(|changes|, i requires 0 <= i < |changes| => changes[i].bin)
    case PositionTransfer(_, _, _, _, transfers) => seq(|transfers|, i requires 0 <= i < |transfers| => transfers[i].bin)
    case _ => []
  }

  function SumX(changes: seq<BinChange>): int {
    if changes == [] then 0 else SumX(changes[..|changes| - 1]) + changes[|changes| - 1].amountX
  }

  function SumY(changes: seq<BinChange>): int {
    if changes == [] then 0 else SumY(changes[..|changes| - 1]) + changes[|changes| - 1].amountY
  }

  function ActivityRow(e: Event, b: Block, index: nat): Activity
    requires !e.PairSnapshot? && !e.PositionSnapshot?
  {
    var id := if e.source.Some? then FromSource(b.hash, e.source.value.eventId) else FromIndex(b.hash, index);
    var transaction := if e.source.Some? then e.source.value.transaction else None;
    var logIndex := if e.source.Some? then e.source.value.logIndex else None;
    var sequence := if e.source.Some? then e.source.value.sequence else index;
    var row := Activity(id, e.ident.pair, SwapActivity, None, None, None, None, None, BinsOf(e),
                        b.number, b.hash, transaction, logIndex, sequence, b.timestamp);
    match e
    case Swap(_, _, _, _, _, inX, inY, _, _, _, _) => row.(amountX := Some(inX), amountY := Some(inY))
    case Liquidity(_, _, _, _, _, deposit, owner, changes) =>
      row.(kind := if deposit then DepositActivity else WithdrawActivity, owner := Some(owner),
           amountX := Some(SumX(changes)), amountY := Some(SumY(changes)))
    case PositionTransfer(_, _, from, to, _) => row.(kind := TransferActivity, from := Some(from), to := Some(to))
  }

  function Logged(v: View, e: Event, b: Block, index: nat): View {
    if e.PairSnapshot? || e.PositionSnapshot? then v
    else
      var pair := e.ident.pair;
      var rows := if pair in v.activity then v.activity[pair] else [];
      v.(activity := v.activity[pair := rows + [ActivityRow(e, b, index)]])
  }

  // Market state

  predicate CompatibleOptional<T(==)>(a: Option<T>, b: Option<T>) {
    a.None? || b.None? || a == b
  }

  predicate SamePairIdentity(a: PairIdentity, b: PairIdentity) {
    && a.pair == b.pair && a.tokenX == b.tokenX && a.tokenY == b.tokenY
    && a.decimalsX == b.decimalsX && a.decimalsY == b.decimalsY
    && CompatibleOptional(a.provenance.factory, b.provenance.factory)
    && CompatibleOptional(a.provenance.createdAtBlock, b.provenance.createdAtBlock)
    && CompatibleOptional(a.provenance.createdAtBlockHash, b.provenance.createdAtBlockHash)
    && CompatibleOptional(a.provenance.creationTransaction, b.provenance.creationTransaction)
    && CompatibleOptional(a.provenance.creationLogIndex, b.provenance.creationLogIndex)
  }

  /** Prices of a pair's tokens at the block's time. */
  datatype Quotes = Quotes(x: Option<int>, y: Option<int>)

  function QuotesAt(policies: Policies, book: Book, ident: PairIdentity, t: int): Quotes {
    Quotes(PriceAt(policies, book, ident.tokenX, t), PriceAt(policies, book, ident.tokenY, t))
  }

  /** The state a market event publishes. */
  function Published(current: Option<PairState>, e: Event, b: Block, q: Quotes): PairState
    requires e.IsMarket()
  {
    var reserves := ValueAmounts(e.ident, e.reserveX, e.reserveY, q.x, q.y);
    var quote := if current.Some? then e.market.priceQuote.Or(current.value.marketPriceQuote) else e.market.priceQuote;
    var active := if quote.None? || q.y.None? then None else Some(TruncDiv(quote.value * q.y.value, USD_SCALE));
    var price := active.Or(q.x);
    var unpriced := if price.Some? then {} else {if quote.None? then e.ident.tokenX else e.ident.tokenY};
    PairState(e.ident, e.reserveX, e.reserveY, reserves.total, price,
              if active.None? then TrustedToken else ActiveBinQuote, e.ident.tokenY,
              if current.Some? then e.market.activeId.Or(current.value.activeId) else e.market.activeId,
              if current.Some? then e.market.binStep.Or(current.value.binStep) else e.market.binStep,
              quote, reserves.missing + unpriced, b.number, b.hash, b.timestamp)
  }

  lemma PublishedAt(current: Option<PairState>, e: Event, b: Block, q: Quotes)
    requires e.IsMarket()
    ensures var s := Published(current, e, b, q);
            s.ident == e.ident && s.block == b.number && s.blockHash == b.hash && s.timestamp == b.timestamp
  {
  }

  function CurrentPair(l: Listing, pair: Id): Option<PairState> {
    if pair in l.pairs then Some(l.pairs[pair]) else None
  }

  function HistoryOf(l: Listing, pair: Id): seq<Stamp> {
    if pair in l.histories then l.histories[pair] else []
  }

  function Earliest(seen: map<Id, int>, pair: Id, t: int): int {
    if pair in seen && seen[pair] < t then seen[pair] else t
  }

  function Latest(seen: Option<int>, t: int): int {
    if seen.Some? && seen.value > t then seen.value else t
  }

  /** Records a published state in the pair maps and the as-of history. */
  function Listed(l: Listing, state: PairState): Listing {
    var pair := state.ident.pair;
    Listing(l.pairs[pair := state],
            if pair in l.pairs then l.sortedPairs else InsertUnique(l.sortedPairs, pair),
            l.firstSeen[pair := Earliest(l.firstSeen, pair, state.timestamp)],
            Some(Latest(l.lastSeen, state.timestamp)),
            l.histories[pair := HistoryOf(l, pair) + [Stamp(state, l.nextOrdinal)]],
            l.nextOrdinal + 1)
  }

  function WithPair(v: View, state: PairState): View {
    v.(listing := Listed(v.listing, state))
  }

  function MinuteKey(state: PairState): Key {
    Bucket(state.ident.pair, Minute, state.timestamp)
  }

  function CandleOr(c: CandleMap, state: PairState): Candle {
    var k := MinuteKey(state);
    if k in c then c[k] else NewCandle(state.block, state.blockHash, state.quoteToken)
  }

  function TouchedAt(minutes: CandleMap, state: PairState): CandleMap {
    minutes[MinuteKey(state) := Touched(CandleOr(minutes, state), state)]
  }

  function WithTouch(v: View, state: PairState): View {
    v.(minutes := TouchedAt(v.minutes, state))
  }

  function SwapRow(e: Event, state: PairState, q: Quotes): FlowRow
    requires e.Swap?
  {
    var volume := ValueAmounts(state.ident, e.amountInX, e.amountInY, q.x, q.y);
    var total := ValueAmounts(state.ident, e.feeX, e.feeY, q.x, q.y);
    if e.protocolFeeX.Some? && e.protocolFeeY.Some? then
      var protocol := ValueAmounts(state.ident, e.protocolFeeX.value, e.protocolFeeY.value, q.x, q.y);
      var lp := ValueAmounts(state.ident, e.feeX - e.protocolFeeX.value, e.feeY - e.protocolFeeY.value, q.x, q.y);
      FlowRow(state.timestamp, volume.total, total.total, protocol.total, lp.total,
              volume.missing + total.missing + protocol.missing + lp.missing + state.missing)
    else
      FlowRow(state.timestamp, volume.total, total.total, None, None, volume.missing + total.missing + state.missing)
  }

  function WithRow(flows: FlowMap, state: PairState, row: FlowRow): FlowMap {
    flows[state.ident.pair := InsertFlow(RowsOf(flows, state.ident.pair), row)]
  }

  function WithSwapAt(minutes: CandleMap, state: PairState, row: FlowRow): CandleMap {
    minutes[MinuteKey(state) := WithSwap(CandleOr(minutes, state), row)]
  }

  function WithFlow(v: View, state: PairState, row: FlowRow): View {
    v.(flows := WithRow(v.flows, state, row), minutes := WithSwapAt(v.minutes, state, row))
  }

  // Positions

  function WithHolder(owners: OwnerIndex, h: Ledger.Holder): OwnerIndex {
    owners[h.owner := InsertUnique(PairsOf(owners, h.owner), h.pair)]
  }

  /** Holdings after a step, what it recorded as partial, and whether it returned normally. */
  datatype Held = Held(holdings: Holdings, tokens: set<Id>, forced: bool, ok: bool)

  function AfterLiquidity(h: Holdings, e: Event, q: Quotes): Held
    requires e.Liquidity?
  {
    var holder := Ledger.Holder(e.owner, e.ident.pair);
    var m := Ledger.PerformAll(Ledger.WithPosition(h.positions, holder, e.ident),
                               Ledger.LiquidityOps(holder, e.ident, e.deposit, e.changes, q.x, q.y));
    Held(Holdings(m.positions, if holder in h.positions then h.owners else WithHolder(h.owners, holder)),
         m.tokens, m.forced, m.ok)
  }

  ghost function AfterSnapshot(h: Holdings, e: Event, b: Block, q: Quotes): Held
    requires e.PositionSnapshot?
  {
    var holder := Ledger.Holder(e.owner, e.ident.pair);
    var m := Ledger.Snapshotted(h.positions, holder, e.ident, e.valuations, q.x, q.y, b.number, b.timestamp);
    Held(Holdings(m.positions, if holder in h.positions then h.owners else WithHolder(h.owners, holder)),
         m.tokens, m.forced, m.ok)
  }

  function AfterTransfer(h: Holdings, e: Event): Held
    requires e.PositionTransfer?
  {
    var from, to := Ledger.Holder(e.from, e.ident.pair), Ledger.Holder(e.to, e.ident.pair);
    var m := Ledger.PerformAll(Ledger.WithPosition(Ledger.WithPosition(h.positions, from, e.ident), to, e.ident),
                               Ledger.TransferOps(from, to, e.ident, e.transfers));
    Held(Holdings(m.positions, if m.ok then WithHolder(WithHolder(h.owners, from), to) else h.owners),
         m.tokens, m.forced, m.ok)
  }

  function WithHeld(v: View, h: Held): Outcome {
    Outcome(v.(holdings := h.holdings), h.tokens, h.forced, [], h.ok)
  }

  // Pools

  function PoolOr(pools: map<Id, Pool>, pair: Id): Pool {
    if pair in pools then pools[pair] else EMPTY_POOL
  }

  /** Pools after an observation and the update it emits, or `None` where the code throws. */
  function AfterObservation(pools: map<Id, Pool>, state: PairState, o: Observation, b: Block)
    : Option<(map<Id, Pool>, Update)>
  {
    var pair := state.ident.pair;
    var pool := PoolOr(pools, pair);
    var chainId := b.chainId.GetOr(0);
    if pool.state.Some? && pool.state.value.chainId != chainId then None
    else if state.activeId.None? || state.binStep.None? || state.marketPriceQuote.None? then None
    else
      var (after, update) := Observed(pool, state, o, At(chainId, pair, b.number, b.hash, b.timestamp));
      Some((pools[pair := after], update))
  }

  function WithPool(v: View, r: Option<(map<Id, Pool>, Update)>): Outcome {
    if r.None? then Outcome(v, {}, false, [], false) else Outcome(v.(pools := r.value.0), {}, false, [r.value.1], true)
  }

  // Events and blocks

  /** What a market event does once its state is published and its candle touched. */
  function AfterPublished(v: View, e: Event, state: PairState, b: Block, q: Quotes): Outcome
    requires e.IsMarket()
  {
    match e
    case Swap(_, _, _, _, _, _, _, _, _, shareX, shareY) =>
      var row := SwapRow(e, state, q);
      Outcome(WithFlow(v, state, row), row.missing, shareX.None? || shareY.None?, [], true)
    case Liquidity(_, _, _, _, _, _, _, _) => WithHeld(v, AfterLiquidity(v.holdings, e, q))
    case PairSnapshot(_, _, _, _, _, observation) =>
      if observation.None? then Outcome(v, {}, false, [], true)
      else WithPool(v, AfterObservation(v.pools, state, observation.value, b))
  }

  ghost function AfterMarket(policies: Policies, v: View, e: Event, b: Block): Outcome
    requires e.IsMarket()
  {
    var current := CurrentPair(v.listing, e.ident.pair);
    if current.Some? && !SamePairIdentity(current.value.ident, e.ident) then Outcome(v, {}, false, [], false)
    else
      var q := QuotesAt(policies, v.book, e.ident, b.timestamp);
      var state := Published(current, e, b, q);
      var r := AfterPublished(WithTouch(WithPair(v, state), state), e, state, b, q);
      r.(tokens := state.missing + r.tokens)
  }

  /** The event proper, before the partial count. */
  ghost function AfterBody(policies: Policies, v: View, e: Event, b: Block): Outcome {
    if e.IsMarket() then AfterMarket(policies, v, e, b)
    else if e.PositionSnapshot? then
      WithHeld(v, AfterSnapshot(v.holdings, e, b, QuotesAt(policies, v.book, e.ident, b.timestamp)))
    else WithHeld(v, AfterTransfer(v.holdings, e))
  }

  /** The state with the tokens of a step recorded as missing. */
  function Recorded(r: Outcome): View {
    r.view.(missing := r.view.missing + r.tokens)
  }

  function Counted(v: View, partial: bool): View {
    if partial then v.(partialCount := v.partialCount + 1) else v
  }

  /** One event: its activity row, its body, and the count of partial events if it did not throw. */
  ghost function AfterEvent(policies: Policies, v: View, e: Event, b: Block, index: nat): Outcome {
    var r := AfterBody(policies, Logged(v, e, b, index), e, b);
    r.(view := Counted(Recorded(r), r.ok && (r.tokens != {} || r.forced)))
  }

  ghost function AfterEvents(policies: Policies, v: View, events: seq<Event>, b: Block): Outcome {
    if events == [] then Outcome(v, {}, false, [], true)
    else
      var n := |events| - 1;
      var before := AfterEvents(policies, v, events[..n], b);
      if !before.ok then before
      else
        var r := AfterEvent(policies, before.view, events[n], b, n);
        r.(updates := before.updates + r.updates)
  }

  function Offers(prices: seq<Sample>, t: int): seq<Offer> {
    if prices == [] then [] else Offers(prices[..|prices| - 1], t) + [Offer(prices[|prices| - 1], t)]
  }

  function WithPrices(policies: Policies, v: View, b: Block): View {
    v.(book := AppliedAll(policies, v.book, Offers(b.prices, b.timestamp)))
  }

  ghost function AfterBlock(policies: Policies, v: View, b: Block): Outcome {
    AfterEvents(policies, WithPrices(policies, v, b), b.events, b)
  }

  /** Replaying blocks into a fresh engine; it stops at the first block that throws. */
  ghost function Replay(policies: Policies, blocks: seq<Block>): Outcome {
    if blocks == [] then Outcome(EMPTY_VIEW, {}, false, [], true)
    else
      var before := Replay(policies, blocks[..|blocks| - 1]);
      if !before.ok then before else AfterBlock(policies, before.view, blocks[|blocks| - 1])
  }

  lemma {:induction false} ReplayPrefixOk(policies: Policies, blocks: seq<Block>, n: nat)
    requires n <= |blocks| && Replay(policies, blocks).ok
    ensures Replay(policies, blocks[..n]).ok
    decreases |blocks|
  {
    if n < |blocks| {
      ReplayPrefixOk(policies, blocks[..|blocks| - 1], n);
      assert blocks[..|blocks| - 1][..n] == blocks[..n];
    } else {
      assert blocks[..n] == blocks;
    }
  }

  lemma ReplayAppend(policies: Policies, blocks: seq<Block>, b: Block)
    ensures Replay(policies, blocks + [b])
            == if !Replay(policies, blocks).ok then Replay(policies, blocks)
               else AfterBlock(policies, Replay(policies, blocks).view, b)
  {
    assert (blocks + [b])[..|blocks|] == blocks;
  }
}
