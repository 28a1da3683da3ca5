/** What candles and 24-hour metrics sum, told from the retained blocks alone: their swap events, valued at the
    prices that the blocks up to the swap have offered. */
module ChainSwaps {
  import opened Domain
  import opened PriceBook
  import opened PairIndex
  import opened Flows
  import opened Candles
  import opened CandleTheorems
  import opened Chain
  import opened Projection
  import opened ViewInvariants
  import opened EngineSpec
  import opened Engine
  import opened EngineTheorems

  /** The price book after a chain. */
  function BookAfter(policies: Policies, blocks: seq<Block>): Book {
    if blocks == [] then EMPTY_BOOK
    else
      var last := blocks[|blocks| - 1];
      AppliedAll(policies, BookAfter(policies, blocks[..|blocks| - 1]), Offers(last.prices, last.timestamp))
  }

  /** What one swap event adds to a window that holds it. */
  function SwapStats(e: Event, q: Quotes): Stats
    requires e.Swap?
  {
    var volume := ValueAmounts(e.ident, e.amountInX, e.amountInY, q.x, q.y).total;
    var fees := ValueAmounts(e.ident, e.feeX, e.feeY, q.x, q.y).total;
    var split := e.protocolFeeX.Some? && e.protocolFeeY.Some?;
    var protocol := if !split then None
                    else ValueAmounts(e.ident, e.protocolFeeX.value, e.protocolFeeY.value, q.x, q.y).total;
    var lp := if !split then None
              else ValueAmounts(e.ident, e.feeX - e.protocolFeeX.value, e.feeY - e.protocolFeeY.value, q.x, q.y).total;
    Stats(1, volume.GetOr(0), fees.GetOr(0), protocol.GetOr(0), lp.GetOr(0),
          volume.None?, fees.None?, protocol.None?, lp.None?)
  }

  /** The swaps of a pair among the events of a block. */
  function EventStats(policies: Policies, book: Book, events: seq<Event>, t: int, pair: Id): Stats {
    if events == [] then ZERO
    else
      var rest, e := EventStats(policies, book, events[..|events| - 1], t, pair), events[|events| - 1];
      if e.Swap? && e.ident.pair == pair then Plus(rest, SwapStats(e, QuotesAt(policies, book, e.ident, t))) else rest
  }

  /** The swaps of a pair in the retained blocks whose time lies in the half-open window. */
  function ChainStats(policies: Policies, blocks: seq<Block>, pair: Id, from: int, to: int): Stats {
    if blocks == [] then ZERO
    else
      var rest, b := ChainStats(policies, blocks[..|blocks| - 1], pair, from, to), blocks[|blocks| - 1];
      if from <= b.timestamp < to
      then Plus(rest, EventStats(policies, BookAfter(policies, blocks), b.events, b.timestamp, pair)) else rest
  }

  /** The flow index holds for every window what the given sums say. */
  ghost predicate FlowsAdd(before: FlowMap, after: FlowMap, pair: Id, from: int, to: int, share: Stats) {
    Total(RowsOf(after, pair), from, to) == Plus(Total(RowsOf(before, pair), from, to), share)
  }

  lemma RowIsSwap(e: Event, state: PairState, q: Quotes)
    requires e.Swap? && state.ident == e.ident
    ensures RowStats(SwapRow(e, state, q)) == SwapStats(e, q) && SwapRow(e, state, q).timestamp == state.timestamp
  {
    hide ValueAmounts;
  }

  lemma NothingAdded(flows: FlowMap, pair: Id, from: int, to: int)
    ensures FlowsAdd(flows, flows, pair, from, to, ZERO)
  {
    PlusZero(Total(RowsOf(flows, pair), from, to));
  }

  /** What an event adds to a window of a pair. */
  function EventShare(policies: Policies, book: Book, e: Event, t: int, pair: Id, from: int, to: int): Stats {
    if e.Swap? && e.ident.pair == pair && from <= t < to then SwapStats(e, QuotesAt(policies, book, e.ident, t)) else ZERO
  }

  lemma MarketAdds(policies: Policies, v: View, e: Event, b: Block, pair: Id, from: int, to: int)
    requires e.IsMarket() && AfterMarket(policies, v, e, b).ok
    ensures var r := AfterMarket(policies, v, e, b).view;
            && r.book == v.book
            && FlowsAdd(v.flows, r.flows, pair, from, to,
                        EventShare(policies, v.book, e, b.timestamp, pair, from, to))
  {
    hide Published, SwapRow, QuotesAt, SamePairIdentity, AfterLiquidity, AfterObservation, Total, Plus, InsertFlow,
         WithSwapAt, TouchedAt, SwapStats, Share, Projection.Listed;
    var current := CurrentPair(v.listing, e.ident.pair);
    var q := QuotesAt(policies, v.book, e.ident, b.timestamp);
    var state := Published(current, e, b, q);
    PublishedAt(current, e, b, q);
    TouchedKeeps(v, state);
    NothingAdded(v.flows, pair, from, to);
    if e.Swap? {
      var row := SwapRow(e, state, q);
      RowIsSwap(e, state, q);
      RowAdds(v, state, row, pair, from, to);
    }
  }

  lemma RowAdds(v: View, state: PairState, row: FlowRow, pair: Id, from: int, to: int)
    ensures FlowsAdd(v.flows, WithRow(v.flows, state, row), pair, from, to,
                     if state.ident.pair == pair && from <= row.timestamp < to then RowStats(row) else ZERO)
  {
    hide Plus, InsertFlow, Total;
    FlowRows(v, state, row, pair);
    if state.ident.pair == pair {
      InsertFlowTotal(RowsOf(v.flows, pair), row, from, to);
    } else {
      PlusZero(Total(RowsOf(v.flows, pair), from, to));
    }
  }

  lemma EventAdds(policies: Policies, v: View, e: Event, b: Block, index: nat, pair: Id, from: int, to: int)
    requires AfterEvent(policies, v, e, b, index).ok
    ensures var r := AfterEvent(policies, v, e, b, index).view;
            && r.book == v.book
            && FlowsAdd(v.flows, r.flows, pair, from, to,
                        EventShare(policies, v.book, e, b.timestamp, pair, from, to))
  {
    hide AfterMarket, AfterSnapshot, AfterTransfer, QuotesAt, ActivityRow, Total, Plus, SwapStats, RowsOf;
    NothingAdded(v.flows, pair, from, to);
    if e.IsMarket() {
      MarketAdds(policies, Logged(v, e, b, index), e, b, pair, from, to);
    }
  }

  lemma {:induction false} EventsAdd(policies: Policies, v: View, events: seq<Event>, b: Block, pair: Id,
                                     from: int, to: int)
    requires AfterEvents(policies, v, events, b).ok
    ensures var r := AfterEvents(policies, v, events, b).view;
            && r.book == v.book
            && FlowsAdd(v.flows, r.flows, pair, from, to,
                        if from <= b.timestamp < to then EventStats(policies, v.book, events, b.timestamp, pair)
                        else ZERO)
  {
    hide AfterEvent, Total, Plus, SwapStats, RowsOf, QuotesAt;
    if events == [] {
      NothingAdded(v.flows, pair, from, to);
    } else {
      var n := |events| - 1;
      EventsAdd(policies, v, events[..n], b, pair, from, to);
      var before := AfterEvents(policies, v, events[..n], b).view;
      EventAdds(policies, before, events[n], b, n, pair, from, to);
      var sum, share := EventStats(policies, v.book, events[..n], b.timestamp, pair),
                        EventShare(policies, v.book, events[n], b.timestamp, pair, from, to);
      var total := Total(RowsOf(v.flows, pair), from, to);
      PlusRegroups(total, sum, share);
      PlusZero(Plus(total, sum));
      PlusZero(sum);
      PlusZero(total);
    }
  }

  lemma {:induction false} ReplaySums(policies: Policies, blocks: seq<Block>, pair: Id, from: int, to: int)
    requires Replay(policies, blocks).ok
    ensures var v := Replay(policies, blocks).view;
            && v.book == BookAfter(policies, blocks)
            && Total(RowsOf(v.flows, pair), from, to) == ChainStats(policies, blocks, pair, from, to)
  {
    hide AfterEvents, Plus, EventStats, AppliedAll, Offers, Total, RowsOf;
    if blocks == [] {
      NoRows(pair, from, to);
    } else {
      var init, b := blocks[..|blocks| - 1], blocks[|blocks| - 1];
      ReplaySums(policies, init, pair, from, to);
      var before := WithPrices(policies, Replay(policies, init).view, b);
      EventsAdd(policies, before, b.events, b, pair, from, to);
      PlusZero(ChainStats(policies, init, pair, from, to));
    }
  }

  lemma NoRows(pair: Id, from: int, to: int)
    ensures Total(RowsOf(map[], pair), from, to) == ZERO
  {
  }

  /** Main result: in every reachable engine the candle of an aligned window, at any of the seven intervals, holds
      the sums of exactly the swap events of its pair in the retained blocks of that window, valued at the prices
      offered up to their block. */
  lemma CandlesSumBlocks(e: AnalyticsEngine, k: Key)
    requires e.Valid() && Aligned(k)
    ensures StatsOf(Find(e.candles, k))
            == ChainStats(e.policies, e.blocks, k.pair, k.start, k.start + Seconds(k.interval))
  {
    hide ViewOk, Replay, IsRolledUp, Aligned, Total, ChainStats, ContextOf, CanonicalChain, IndexesBuilt, RowsOf, StatsOf;
    EngineCandles(e, k);
    ReplaySums(e.policies, e.blocks, k.pair, k.start, k.start + Seconds(k.interval));
    EngineFlows(e);
  }

  lemma EngineFlows(e: AnalyticsEngine)
    requires e.Valid()
    ensures Replay(e.policies, e.blocks).ok && Replay(e.policies, e.blocks).view.flows == e.flowsByPair
  {
    hide ViewOk, Replay, IsRolledUp, ContextOf, CanonicalChain, IndexesBuilt;
  }

  /** The swaps of a pair in a window, counted. */
  function SwapCount(blocks: seq<Block>, pair: Id, from: int, to: int): nat {
    if blocks == [] then 0
    else
      var rest, b := SwapCount(blocks[..|blocks| - 1], pair, from, to), blocks[|blocks| - 1];
      if from <= b.timestamp < to then rest + SwapsAmong(b.events, pair) else rest
  }

  function SwapsAmong(events: seq<Event>, pair: Id): nat {
    if events == [] then 0
    else
      var e := events[|events| - 1];
      SwapsAmong(events[..|events| - 1], pair) + if e.Swap? && e.ident.pair == pair then 1 else 0
  }

  lemma {:induction false} EventsCounted(policies: Policies, book: Book, events: seq<Event>, t: int, pair: Id)
    ensures EventStats(policies, book, events, t, pair).swaps == SwapsAmong(events, pair)
  {
    hide QuotesAt, ValueAmounts;
    if events != [] {
      EventsCounted(policies, book, events[..|events| - 1], t, pair);
    }
  }

  /** Prices decide nothing about how many swaps a candle counts. */
  lemma {:induction false} SwapsCounted(policies: Policies, blocks: seq<Block>, pair: Id, from: int, to: int)
    ensures ChainStats(policies, blocks, pair, from, to).swaps == SwapCount(blocks, pair, from, to)
  {
    hide EventStats, BookAfter;
    if blocks != [] {
      var b := blocks[|blocks| - 1];
      SwapsCounted(policies, blocks[..|blocks| - 1], pair, from, to);
      EventsCounted(policies, BookAfter(policies, blocks), b.events, b.timestamp, pair);
    }
  }
}
