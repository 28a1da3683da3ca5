/** Conservation over replayed chains: without position snapshots, every bin's books balance against the deposits,
    withdrawals and transfers of the retained blocks. */
module ChainLedger {
  import opened Domain
  import opened PriceBook
  import opened Ledger
  import opened LedgerTheorems
  import opened Projection
  import opened ViewInvariants
  import opened ChainSwaps

  /** The ledger operations of an event, valued at the given prices. */
  function EventOps(e: Event, q: Quotes): seq<Op> {
    match e
    case Liquidity(_, ident, _, _, _, deposit, owner, changes) =>
      LiquidityOps(Holder(owner, ident.pair), ident, deposit, changes, q.x, q.y)
    case PositionTransfer(_, ident, from, to, transfers) =>
      TransferOps(Holder(from, ident.pair), Holder(to, ident.pair), ident, transfers)
    case _ => []
  }

  function EventsOps(policies: Policies, book: Book, events: seq<Event>, t: int): seq<Op> {
    if events == [] then []
    else
      var e := events[|events| - 1];
      EventsOps(policies, book, events[..|events| - 1], t) + EventOps(e, QuotesAt(policies, book, e.ident, t))
  }

  /** The ledger operations of a chain, in order. */
  function ChainOps(policies: Policies, blocks: seq<Block>): seq<Op> {
    if blocks == [] then []
    else
      var b := blocks[|blocks| - 1];
      ChainOps(policies, blocks[..|blocks| - 1])
      + EventsOps(policies, BookAfter(policies, blocks), b.events, b.timestamp)
  }

  ghost predicate AllPriced(ops: seq<Op>) {
    forall op :: op in ops ==> PricedAndPositive(op)
  }

  predicate NoSnapshots(events: seq<Event>) {
    forall e :: e in events ==> !e.PositionSnapshot?
  }

  /** Positions whose books balance for one bin against an account. */
  ghost predicate Books(positions: Positions, pair: Id, key: BinKey, a: Account) {
    AllSound(positions) && Balanced(TotalsOf(positions, pair, key), a)
  }

  lemma {:induction false} AccountsAdd(a: seq<Op>, b: seq<Op>, pair: Id, key: BinKey)
    ensures AccountOf(a + b, pair, key) == CreditAll(AccountOf(a, pair, key), b, pair, key)
  {
    hide Credit;
    if b == [] {
      assert a + b == a;
    } else {
      assert (a + b)[..|a + b| - 1] == a + b[..|b| - 1];
      AccountsAdd(a, b[..|b| - 1], pair, key);
    }
  }

  function CreditAll(a: Account, ops: seq<Op>, pair: Id, key: BinKey): Account {
    if ops == [] then a else Credit(CreditAll(a, ops[..|ops| - 1], pair, key), ops[|ops| - 1], pair, key)
  }

  /** A successful run of priced, positive operations keeps the books balanced. */
  lemma {:induction false} RunBalances(positions: Positions, ops: seq<Op>, pair: Id, key: BinKey, a: Account)
    requires Books(positions, pair, key, a) && AllPriced(ops) && PerformAll(positions, ops).ok
    ensures Books(PerformAll(positions, ops).positions, pair, key, CreditAll(a, ops, pair, key))
  {
    hide PricedAndPositive, Priced, Keeps, Perform, Credit, AllSound, TotalsOf;
    if ops != [] {
      var init, last := ops[..|ops| - 1], ops[|ops| - 1];
      assert ops == init + [last];
      RunBalances(positions, init, pair, key, a);
      PositiveKeeps(PerformAll(positions, init).positions, last);
      PerformBalances(PerformAll(positions, init).positions, last, pair, key, CreditAll(a, init, pair, key));
    }
  }

  lemma OpenedBooks(positions: Positions, h: Holder, ident: PairIdentity, pair: Id, key: BinKey, a: Account)
    requires Books(positions, pair, key, a)
    ensures Books(WithPosition(positions, h, ident), pair, key, a)
  {
    hide AllSound, TotalsOf, WithPosition;
    OpenSound(positions, h, ident);
    OpenTotals(positions, h, ident, pair, key);
  }

  lemma LiquidityBooks(h: Holdings, e: Event, q: Quotes, pair: Id, key: BinKey, a: Account)
    requires e.Liquidity? && Books(h.positions, pair, key, a) && AllPriced(EventOps(e, q)) && AfterLiquidity(h, e, q).ok
    ensures Books(AfterLiquidity(h, e, q).holdings.positions, pair, key, CreditAll(a, EventOps(e, q), pair, key))
  {
    hide Books, PerformAll, LiquidityOps, WithHolder, WithPosition, AllPriced;
    var holder := Holder(e.owner, e.ident.pair);
    OpenedBooks(h.positions, holder, e.ident, pair, key, a);
    RunBalances(WithPosition(h.positions, holder, e.ident), EventOps(e, q), pair, key, a);
  }

  lemma TransferBooks(h: Holdings, e: Event, q: Quotes, pair: Id, key: BinKey, a: Account)
    requires e.PositionTransfer? && Books(h.positions, pair, key, a) && AllPriced(EventOps(e, q))
    requires AfterTransfer(h, e).ok
    ensures Books(AfterTransfer(h, e).holdings.positions, pair, key, CreditAll(a, EventOps(e, q), pair, key))
  {
    hide Books, PerformAll, TransferOps, WithHolder, WithPosition, AllPriced;
    var from, to := Holder(e.from, e.ident.pair), Holder(e.to, e.ident.pair);
    var one := WithPosition(h.positions, from, e.ident);
    OpenedBooks(h.positions, from, e.ident, pair, key, a);
    OpenedBooks(one, to, e.ident, pair, key, a);
    RunBalances(WithPosition(one, to, e.ident), EventOps(e, q), pair, key, a);
  }

  lemma MarketBooks(policies: Policies, v: View, e: Event, b: Block, pair: Id, key: BinKey, a: Account)
    requires e.IsMarket() && AfterMarket(policies, v, e, b).ok && Books(v.holdings.positions, pair, key, a)
    requires AllPriced(EventOps(e, QuotesAt(policies, v.book, e.ident, b.timestamp)))
    ensures var q := QuotesAt(policies, v.book, e.ident, b.timestamp);
            Books(AfterMarket(policies, v, e, b).view.holdings.positions, pair, key,
                  CreditAll(a, EventOps(e, q), pair, key))
  {
    hide Published, SwapRow, QuotesAt, SamePairIdentity, AfterLiquidity, AfterObservation, WithRow, WithSwapAt,
         TouchedAt, Projection.Listed, Books, AllPriced, LiquidityOps;
    var q := QuotesAt(policies, v.book, e.ident, b.timestamp);
    TouchedKeeps(v, Published(CurrentPair(v.listing, e.ident.pair), e, b, q));
    if e.Liquidity? {
      LiquidityBooks(v.holdings, e, q, pair, key, a);
    }
  }

  lemma EventBooks(policies: Policies, v: View, e: Event, b: Block, index: nat, pair: Id, key: BinKey, a: Account)
    requires AfterEvent(policies, v, e, b, index).ok && !e.PositionSnapshot? && Books(v.holdings.positions, pair, key, a)
    requires AllPriced(EventOps(e, QuotesAt(policies, v.book, e.ident, b.timestamp)))
    ensures var q := QuotesAt(policies, v.book, e.ident, b.timestamp);
            Books(AfterEvent(policies, v, e, b, index).view.holdings.positions, pair, key,
                  CreditAll(a, EventOps(e, q), pair, key))
  {
    hide AfterMarket, AfterTransfer, QuotesAt, ActivityRow, Books, AllPriced, EventOps;
    if e.IsMarket() {
      MarketBooks(policies, Logged(v, e, b, index), e, b, pair, key, a);
    } else {
      TransferBooks(v.holdings, e, QuotesAt(policies, v.book, e.ident, b.timestamp), pair, key, a);
    }
  }

  lemma {:induction false} CreditsAdd(a: Account, x: seq<Op>, y: seq<Op>, pair: Id, key: BinKey)
    ensures CreditAll(a, x + y, pair, key) == CreditAll(CreditAll(a, x, pair, key), y, pair, key)
  {
    hide Credit;
    if y == [] {
      assert x + y == x;
    } else {
      assert (x + y)[..|x + y| - 1] == x + y[..|y| - 1];
      CreditsAdd(a, x, y[..|y| - 1], pair, key);
    }
  }

  lemma PricedParts(x: seq<Op>, y: seq<Op>)
    requires AllPriced(x + y)
    ensures AllPriced(x) && AllPriced(y)
  {
    hide PricedAndPositive;
    assert forall op :: op in x || op in y ==> op in x + y;
  }

  lemma {:induction false} EventsBooks(policies: Policies, v: View, events: seq<Event>, b: Block, pair: Id, key: BinKey,
                                       a: Account)
    requires AfterEvents(policies, v, events, b).ok && NoSnapshots(events) && Books(v.holdings.positions, pair, key, a)
    requires AllPriced(EventsOps(policies, v.book, events, b.timestamp))
    ensures Books(AfterEvents(policies, v, events, b).view.holdings.positions, pair, key,
                  CreditAll(a, EventsOps(policies, v.book, events, b.timestamp), pair, key))
  {
    hide AfterEvent, Books, AllPriced, EventOps, CreditAll, QuotesAt;
    if events == [] {
      NothingCredited(a, pair, key);
    } else {
      var n := |events| - 1;
      var ops := EventsOps(policies, v.book, events[..n], b.timestamp);
      var more := EventOps(events[n], QuotesAt(policies, v.book, events[n].ident, b.timestamp));
      PricedParts(ops, more);
      EventsBooks(policies, v, events[..n], b, pair, key, a);
      var before := AfterEvents(policies, v, events[..n], b).view;
      EventsAdd(policies, v, events[..n], b, pair, 0, 0);
      EventBooks(policies, before, events[n], b, n, pair, key, CreditAll(a, ops, pair, key));
      CreditsAdd(a, ops, more, pair, key);
    }
  }

  lemma NothingCredited(a: Account, pair: Id, key: BinKey)
    ensures CreditAll(a, [], pair, key) == a
  {
  }

  lemma NothingHeld(pair: Id, key: BinKey)
    ensures Books(map[], pair, key, AccountOf([], pair, key))
  {
    assert Owners(map[], pair) == {};
  }

  /** Main result: in a chain without position snapshots whose ledger operations are fully priced and positive, every
      bin's liquidity is what was minted less what was burned, its basis is what was deposited less what was
      withdrawn plus what was realised, no basis is negative, and a bin without liquidity carries no basis. */
  lemma {:induction false} ChainConserves(policies: Policies, blocks: seq<Block>, pair: Id, key: BinKey)
    requires Replay(policies, blocks).ok && AllPriced(ChainOps(policies, blocks))
    requires forall b :: b in blocks ==> NoSnapshots(b.events)
    ensures var positions := Replay(policies, blocks).view.holdings.positions;
            && AllSound(positions)
            && Balanced(TotalsOf(positions, pair, key), AccountOf(ChainOps(policies, blocks), pair, key))
  {
    hide AfterEvents, AllPriced, EventsOps, CreditAll, BookAfter, NoSnapshots, AllSound, TotalsOf, Balanced, AccountOf;
    if blocks == [] {
      NothingHeld(pair, key);
    } else {
      var init, b := blocks[..|blocks| - 1], blocks[|blocks| - 1];
      assert blocks == init + [b];
      var ops := ChainOps(policies, init);
      var more := EventsOps(policies, BookAfter(policies, blocks), b.events, b.timestamp);
      PricedParts(ops, more);
      ChainConserves(policies, init, pair, key);
      ReplaySums(policies, init, pair, 0, 0);
      var before := WithPrices(policies, Replay(policies, init).view, b);
      BookStep(policies, blocks);
      EventsBooks(policies, before, b.events, b, pair, key, AccountOf(ops, pair, key));
      AccountsAdd(ops, more, pair, key);
    }
  }

  lemma BookStep(policies: Policies, blocks: seq<Block>)
    requires blocks != []
    ensures var b := blocks[|blocks| - 1];
            BookAfter(policies, blocks)
            == AppliedAll(policies, BookAfter(policies, blocks[..|blocks| - 1]), Offers(b.prices, b.timestamp))
  {
  }
}
