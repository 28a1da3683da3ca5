/** Engines fed events that move no liquidity and still break a bin's books. */
module LedgerWitnesses {
  // A withdrawal of nothing from a bin the owner does not hold makes its basis unknown; a deposit that mints nothing
  // but is worth something leaves a basis on an empty bin; and a transfer of nothing by an owner who holds nothing
  // makes the recipient's basis unknown.

  import opened Domain
  import opened PriceBook
  import opened Flows
  import opened Ledger
  import opened Chain
  import opened Ingest
  import opened PlainBlocks
  import opened Projection
  import opened ViewInvariants
  import opened EngineSpec
  import opened Engine

  const PAIR := PairIdentity(1, 2, 3, 0, 0, Provenance(None, None, None, None, None))
  const BIN := BinKey(7, 0)
  const POLICIES: Policies := map[2 := Policy(FixedTest, 0, 0, 0)]
  const PRICE := Sample(2, FixedTest, 0, 100, 0, 0, 0, false)

  function Changing(deposit: bool, owner: Id, change: BinChange): Event {
    Liquidity(None, PAIR, Market(None, None, None), 0, 0, deposit, owner, [change])
  }

  const TAKING_NOTHING := Block(None, 0, 10, 9, 0, [], [Changing(false, 1, BinChange(BIN, 0, 0, 0))])
  const MINTING_NOTHING := Block(None, 0, 10, 9, 0, [PRICE], [Changing(true, 1, BinChange(BIN, 0, 1, 0))])
  const MINTING_TEN := Block(None, 0, 10, 9, 0, [PRICE], [Changing(true, 2, BinChange(BIN, 10, 1, 0))])
  const SENDING_NOTHING :=
    Block(None, 1, 11, 10, 0, [], [PositionTransfer(None, PAIR, 1, 2, [BinTransfer(BIN, 0)])])

  // Single events

  /** The prices of a first block's samples, at its time. */
  function FirstQuotes(policies: Policies, b: Block): Quotes {
    QuotesAt(policies, AppliedAll(policies, EMPTY_BOOK, Offers(b.prices, b.timestamp)), PAIR, b.timestamp)
  }

  lemma OneOffer(policies: Policies, book: Book, s: Sample, t: int)
    ensures AppliedAll(policies, book, Offers([s], t)) == Applied(policies, book, Offer(s, t))
  {
    hide Applied;
    assert [s][..0] == [] && [Offer(s, t)][..0] == [];
    assert Offers([s][..0], t) == [];
    assert Offers([s], t) == [Offer(s, t)];
  }

  lemma FirstQuoted(b: Block)
    requires b.prices == [PRICE] && b.timestamp == 0
    ensures FirstQuotes(POLICIES, b) == Quotes(Some(100), None)
  {
    OneOffer(POLICIES, EMPTY_BOOK, PRICE, 0);
    var book := Applied(POLICIES, EMPTY_BOOK, Offer(PRICE, 0));
    assert SamplesOf(book, 2) == [PRICE];
    assert [PRICE][..0] == [] && LatestAt([PRICE], 0) == Some(PRICE);
  }

  function FirstChanged(policies: Policies, b: Block, deposit: bool, owner: Id, change: BinChange): Moved {
    var h, q := Holder(owner, 1), FirstQuotes(policies, b);
    Changed(map[h := Position(PAIR, map[])], h, deposit, change,
            ValueAmounts(PAIR, change.amountX, change.amountY, q.x, q.y))
  }

  lemma OneChange(policies: Policies, b: Block, deposit: bool, owner: Id, change: BinChange, q: Quotes)
    requires q == FirstQuotes(policies, b)
    ensures var m, r := FirstChanged(policies, b, deposit, owner, change),
                        AfterLiquidity(Holdings(map[], map[]), Changing(deposit, owner, change), q);
            r.ok == m.ok && r.holdings.positions == m.positions
  {
    hide Changed, FirstQuotes, ValueAmounts, WithHolder;
    var h := Holder(owner, 1);
    var op := Change(h, PAIR, deposit, change, ValueAmounts(PAIR, change.amountX, change.amountY, q.x, q.y));
    LiquidityOpsStep(h, PAIR, deposit, [change], q.x, q.y, 0);
    assert [change][..0] == [] && [change][..1] == [change] && [] + [op] == [op];
    var start := WithPosition(map[], h, PAIR);
    PerformAllStep(start, [], op);
    assert WithPosition(start, h, PAIR) == start == map[h := Position(PAIR, map[])];
  }

  /** Replaying a first block of one deposit or withdrawal changes one bin. */
  lemma FirstBlock(policies: Policies, b: Block, deposit: bool, owner: Id, change: BinChange)
    requires b.events == [Changing(deposit, owner, change)]
    ensures var m, r := FirstChanged(policies, b, deposit, owner, change), Replay(policies, [b]);
            r.ok == m.ok && r.view.holdings.positions == m.positions
  {
    hide FirstChanged, AfterEvents, AppliedAll;
    assert [b][..0] == [];
    var v := WithPrices(policies, EMPTY_VIEW, b);
    FirstEvent(policies, v, b, deposit, owner, change);
  }

  lemma FirstEvent(policies: Policies, v: View, b: Block, deposit: bool, owner: Id, change: BinChange)
    requires b.events == [Changing(deposit, owner, change)] && v == WithPrices(policies, EMPTY_VIEW, b)
    ensures var m, r := FirstChanged(policies, b, deposit, owner, change), AfterEvents(policies, v, b.events, b);
            r.ok == m.ok && r.view.holdings.positions == m.positions
  {
    hide FirstChanged, AfterLiquidity, Published, QuotesAt, TouchedAt, Projection.Listed, AppliedAll, ActivityRow;
    var e := b.events[0];
    OneEvent(policies, v, e, b);
    var q := QuotesAt(policies, v.book, PAIR, b.timestamp);
    OneChange(policies, b, deposit, owner, change, q);
    assert CurrentPair(v.listing, 1) == None;
    TouchedKeeps(Logged(v, e, b, 0), Published(None, e, b, q));
  }

  lemma OneEvent(policies: Policies, v: View, e: Event, b: Block)
    ensures var r := AfterEvents(policies, v, [e], b);
            r.ok == AfterEvent(policies, v, e, b, 0).ok && r.view == AfterEvent(policies, v, e, b, 0).view
  {
    hide AfterEvent;
    assert [e][..0] == [];
    assert AfterEvents(policies, v, [e][..0], b).ok;
  }

  // Engines

  lemma EnginePositions(e: AnalyticsEngine)
    requires e.Valid()
    ensures e.positions == Replay(e.policies, e.blocks).view.holdings.positions
  {
    hide CanonicalChain, Replay, ViewOk, IndexesBuilt;
  }

  /** The bin that an owner holds in the engine, if any. */
  ghost predicate HoldsBin(e: AnalyticsEngine, owner: Id, liquidity: int, costBasis: Option<int>)
    reads e
  {
    var h := Holder(owner, 1);
    && h in e.positions && BIN in e.positions[h].bins
    && e.positions[h].bins[BIN].liquidity == liquidity && e.positions[h].bins[BIN].costBasis == costBasis
  }

  /** An engine of one block, which is retained as it is and replays. */
  method FirstIngested(policies: Policies, b: Block) returns (e: AnalyticsEngine)
    requires Plain(b) && Replay(policies, [b]).ok
    ensures fresh(e) && fresh(e.priceBook) && e.policies == policies && e.blocks == [b] && e.Valid()
  {
    hide AnalyticsEngine.Valid, AnalyticsEngine.Abs, AnalyticsEngine.Recoverable, PlanFor, Replay, NewlyFinalized,
         BucketsAt, MarketPairs, Plain;
    PlainAppends([], b);
    e := new AnalyticsEngine(policies, false);
    var r := e.IngestBlock(b);
    assert [] + [b] == [b];
  }

  /** A withdrawal of nothing from a bin that the owner does not hold opens the bin with an unknown basis. */
  method TookNothing(policies: Policies) returns (e: AnalyticsEngine)
    ensures fresh(e) && e.policies == policies && e.blocks == [TAKING_NOTHING] && e.Valid()
    ensures HoldsBin(e, 1, 0, None)
  {
    hide AnalyticsEngine.Valid, Replay, FirstQuotes, ValueAmounts;
    FirstBlock(policies, TAKING_NOTHING, false, 1, BinChange(BIN, 0, 0, 0));
    e := FirstIngested(policies, TAKING_NOTHING);
    EnginePositions(e);
  }

  /** A deposit that mints nothing but is worth something leaves its worth on a bin without liquidity. */
  method MintedNothing() returns (e: AnalyticsEngine)
    ensures fresh(e) && e.policies == POLICIES && e.blocks == [MINTING_NOTHING] && e.Valid()
    ensures HoldsBin(e, 1, 0, Some(100))
  {
    hide AnalyticsEngine.Valid, Replay;
    FirstBlock(POLICIES, MINTING_NOTHING, true, 1, BinChange(BIN, 0, 1, 0));
    FirstQuoted(MINTING_NOTHING);
    e := FirstIngested(POLICIES, MINTING_NOTHING);
    EnginePositions(e);
  }

  /** Owner 2 mints ten for a worth of 100. */
  method MintedTen() returns (e: AnalyticsEngine)
    ensures fresh(e) && fresh(e.priceBook) && e.policies == POLICIES && e.blocks == [MINTING_TEN] && e.Valid()
    ensures HoldsBin(e, 2, 10, Some(100)) && Holder(1, 1) !in e.positions
  {
    hide AnalyticsEngine.Valid, Replay;
    FirstBlock(POLICIES, MINTING_TEN, true, 2, BinChange(BIN, 10, 1, 0));
    FirstQuoted(MINTING_TEN);
    e := FirstIngested(POLICIES, MINTING_TEN);
    EnginePositions(e);
  }

  /** What sending nothing does to two holders of one bin. */
  lemma NothingSent(policies: Policies, v: View, b: Block)
    requires b == SENDING_NOTHING
    requires var p := v.holdings.positions;
             Holder(1, 1) !in p && Holder(2, 1) in p && BIN in p[Holder(2, 1)].bins
    ensures var r, p := AfterBlock(policies, v, b), v.holdings.positions;
            && r.ok
            && Holder(2, 1) in r.view.holdings.positions && BIN in r.view.holdings.positions[Holder(2, 1)].bins
            && r.view.holdings.positions[Holder(2, 1)].bins[BIN].liquidity == p[Holder(2, 1)].bins[BIN].liquidity
            && r.view.holdings.positions[Holder(2, 1)].bins[BIN].costBasis == None
  {
    hide AfterTransfer;
    var e := b.events[0];
    assert b.events == [e] && b.prices == [];
    OneEvent(policies, WithPrices(policies, v, b), e, b);
    OneTransfer(v.holdings);
  }

  lemma OneTransfer(h: Holdings)
    requires Holder(1, 1) !in h.positions && Holder(2, 1) in h.positions && BIN in h.positions[Holder(2, 1)].bins
    ensures var r := AfterTransfer(h, SENDING_NOTHING.events[0]);
            && r.ok
            && Holder(2, 1) in r.holdings.positions && BIN in r.holdings.positions[Holder(2, 1)].bins
            && r.holdings.positions[Holder(2, 1)].bins[BIN].liquidity == h.positions[Holder(2, 1)].bins[BIN].liquidity
            && r.holdings.positions[Holder(2, 1)].bins[BIN].costBasis == None
  {
    hide WithHolder, PerformAll;
    var from, to, t := Holder(1, 1), Holder(2, 1), BinTransfer(BIN, 0);
    var start := WithPosition(WithPosition(h.positions, from, PAIR), to, PAIR);
    TransferOpsStep(from, to, PAIR, [t], 0);
    assert [t][..0] == [] && [t][..1] == [t];
    assert TransferOps(from, to, PAIR, [t]) == [] + [Transfer(from, to, PAIR, t)];
    PerformAllStep(start, [], Transfer(from, to, PAIR, t));
    NothingPerformed(start);
  }

  lemma NothingPerformed(positions: Positions)
    ensures PerformAll(positions, []) == Moved(positions, {}, false, true)
  {
  }

  /** Owner 2 minted ten for a worth of 100. A transfer of nothing from owner 1, who holds nothing, is accepted, and
      the basis of owner 2 is no longer known. */
  method SentNothing() returns (e: AnalyticsEngine)
    ensures fresh(e) && e.policies == POLICIES && e.blocks == [MINTING_TEN, SENDING_NOTHING] && e.Valid()
    ensures HoldsBin(e, 2, 10, None)
  {
    hide AnalyticsEngine.Valid, AnalyticsEngine.Abs, AnalyticsEngine.Recoverable, PlanFor, Replay, NewlyFinalized,
         BucketsAt, MarketPairs, AfterBlock;
    e := MintedTen();
    EnginePositions(e);
    PlainAppends([MINTING_TEN], SENDING_NOTHING);
    NothingSent(POLICIES, Replay(POLICIES, [MINTING_TEN]).view, SENDING_NOTHING);
    ReplayAppend(POLICIES, [MINTING_TEN], SENDING_NOTHING);
    assert [MINTING_TEN] + [SENDING_NOTHING] == [MINTING_TEN, SENDING_NOTHING];
    EngineReplays(e);
    var r := e.IngestBlock(SENDING_NOTHING);
    EnginePositions(e);
  }

  lemma EngineReplays(e: AnalyticsEngine)
    requires e.Valid()
    ensures Replay(e.policies, e.blocks).ok
  {
  }
}
