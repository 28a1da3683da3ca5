/** Conservation of liquidity and cost basis over any interleaving of priced, positive ledger operations. */
module LedgerTheorems {
  import opened Domain
  import opened Fixed
  import opened Flows
  import opened Ledger

  /** What went into and out of one bin of one pair, over all owners. */
  datatype Account = Account(minted: int, burned: int, depositedValue: int, withdrawnValue: int)

  function Credit(a: Account, op: Op, pair: Id, key: BinKey): Account {
    if op.Change? && op.holder.pair == pair && op.change.bin == key then
      if op.deposit then
        a.(minted := a.minted + op.change.liquidityDelta, depositedValue := a.depositedValue + op.value.total.GetOr(0))
      else
        a.(burned := a.burned + Absolute(op.change.liquidityDelta),
           withdrawnValue := a.withdrawnValue + op.value.total.GetOr(0))
    else a
  }

  function AccountOf(ops: seq<Op>, pair: Id, key: BinKey): Account {
    if ops == [] then Account(0, 0, 0, 0)
    else Credit(AccountOf(ops[..|ops| - 1], pair, key), ops[|ops| - 1], pair, key)
  }

  /** A fully priced operation that moves a positive amount of liquidity. */
  predicate PricedAndPositive(op: Op) {
    match op
    case Change(_, _, deposit, change, value) =>
      && value.total.Some?
      && (if deposit then change.liquidityDelta > 0 && value.total.value >= 0 else change.liquidityDelta != 0)
    case Transfer(from, to, _, transfer) => from.pair == to.pair && transfer.liquidity > 0
  }

  /** A fully priced operation, whose deposits are worth nothing or more; it may move nothing at all. */
  predicate Priced(op: Op) {
    match op
    case Change(_, _, deposit, _, value) => value.total.Some? && (deposit ==> value.total.value >= 0)
    case Transfer(from, to, _, _) => from.pair == to.pair
  }

  /** Liquidity is held where it is taken from, and a deposit into an empty bin mints something unless it is worth
      nothing. */
  predicate Keeps(positions: Positions, op: Op) {
    match op
    case Change(h, _, deposit, change, value) =>
      || BinOr(positions, h, change.bin, Some(0)).liquidity > 0
      || (deposit && (change.liquidityDelta > 0 || value.total == Some(0)))
    case Transfer(from, _, _, transfer) => BinOr(positions, from, transfer.bin, None).liquidity > 0
  }

  /** No negative amounts, everything known, and an empty bin carries no basis. */
  predicate Sound(bin: PositionBin) {
    && bin.liquidity >= 0 && bin.costBasis.Some? && bin.costBasis.value >= 0 && bin.realized.Some?
    && (bin.liquidity == 0 ==> bin.costBasis.value == 0)
  }

  ghost predicate AllSound(positions: Positions) {
    forall h, key :: h in positions && key in positions[h].bins ==> Sound(positions[h].bins[key])
  }

  /** Sums over all owners of one bin of one pair. */
  datatype Totals = Totals(liquidity: int, basis: int, realized: int)

  function Amounts(bin: PositionBin): Totals {
    Totals(bin.liquidity, bin.costBasis.GetOr(0), bin.realized.GetOr(0))
  }

  function Held(positions: Positions, owner: Id, pair: Id, key: BinKey): Totals {
    Amounts(BinOr(positions, Holder(owner, pair), key, Some(0)))
  }

  ghost function Owners(positions: Positions, pair: Id): set<Id> {
    set h | h in positions && h.pair == pair :: h.owner
  }

  function LiquidityBy(positions: Positions, pair: Id, key: BinKey): Id -> int {
    (o: Id) => Held(positions, o, pair, key).liquidity
  }

  function BasisBy(positions: Positions, pair: Id, key: BinKey): Id -> int {
    (o: Id) => Held(positions, o, pair, key).basis
  }

  function RealizedBy(positions: Positions, pair: Id, key: BinKey): Id -> int {
    (o: Id) => Held(positions, o, pair, key).realized
  }

  ghost function TotalsOf(positions: Positions, pair: Id, key: BinKey): Totals {
    var owners := Owners(positions, pair);
    Totals(SumOver(owners, LiquidityBy(positions, pair, key)),
           SumOver(owners, BasisBy(positions, pair, key)),
           SumOver(owners, RealizedBy(positions, pair, key)))
  }

  function Shifted(t: Totals, out: Totals, into: Totals): Totals {
    Totals(t.liquidity - out.liquidity + into.liquidity, t.basis - out.basis + into.basis,
           t.realized - out.realized + into.realized)
  }

  /** If two position maps differ for one owner only, their totals differ by that owner's amounts. */
  lemma TotalsShift(a: Positions, b: Positions, owner: Id, pair: Id, key: BinKey)
    requires Owners(b, pair) == Owners(a, pair) + {owner}
    requires forall o: Id :: o != owner ==> Held(a, o, pair, key) == Held(b, o, pair, key)
    requires owner !in Owners(a, pair) ==> Held(a, owner, pair, key) == Totals(0, 0, 0)
    ensures TotalsOf(b, pair, key)
            == Shifted(TotalsOf(a, pair, key), Held(a, owner, pair, key), Held(b, owner, pair, key))
  {
    var owners := Owners(a, pair);
    SumChange(owners, LiquidityBy(a, pair, key), LiquidityBy(b, pair, key), owner);
    SumChange(owners, BasisBy(a, pair, key), BasisBy(b, pair, key), owner);
    SumChange(owners, RealizedBy(a, pair, key), RealizedBy(b, pair, key), owner);
  }

  lemma TotalsSame(a: Positions, b: Positions, pair: Id, key: BinKey)
    requires Owners(b, pair) == Owners(a, pair)
    requires forall o: Id :: Held(a, o, pair, key) == Held(b, o, pair, key)
    ensures TotalsOf(b, pair, key) == TotalsOf(a, pair, key)
  {
    var owners := Owners(a, pair);
    SumSame(owners, LiquidityBy(a, pair, key), LiquidityBy(b, pair, key));
    SumSame(owners, BasisBy(a, pair, key), BasisBy(b, pair, key));
    SumSame(owners, RealizedBy(a, pair, key), RealizedBy(b, pair, key));
  }

  lemma NotHeld(positions: Positions, owner: Id, pair: Id, key: BinKey)
    requires owner !in Owners(positions, pair)
    ensures Held(positions, owner, pair, key) == Totals(0, 0, 0)
  {
    assert Holder(owner, pair) in positions ==> Holder(owner, pair).owner in Owners(positions, pair);
  }

  lemma PutOwners(positions: Positions, h: Holder, key: BinKey, bin: PositionBin, pair: Id)
    requires h in positions
    ensures Owners(PutBin(positions, h, key, bin), pair) == Owners(positions, pair)
    ensures h.pair == pair ==> h.owner in Owners(positions, pair)
  {
    assert PutBin(positions, h, key, bin).Keys == positions.Keys;
    var after := PutBin(positions, h, key, bin);
    assert forall x :: x in after <==> x in positions;
  }

  /** Writing one bin moves the totals of that bin only. */
  lemma PutTotals(positions: Positions, h: Holder, key: BinKey, bin: PositionBin, pair: Id, k: BinKey)
    requires h in positions
    ensures TotalsOf(PutBin(positions, h, key, bin), pair, k)
            == if h.pair == pair && k == key
               then Shifted(TotalsOf(positions, pair, k), Held(positions, h.owner, pair, k), Amounts(bin))
               else TotalsOf(positions, pair, k)
  {
    var after := PutBin(positions, h, key, bin);
    PutOwners(positions, h, key, bin, pair);
    if h.pair == pair && k == key {
      forall o: Id | o != h.owner
        ensures Held(positions, o, pair, k) == Held(after, o, pair, k)
      {
      }
      assert Owners(positions, pair) + {h.owner} == Owners(after, pair);
      TotalsShift(positions, after, h.owner, pair, k);
    } else {
      forall o: Id
        ensures Held(positions, o, pair, k) == Held(after, o, pair, k)
      {
      }
      TotalsSame(positions, after, pair, k);
    }
  }

  /** Opening an empty position moves no totals. */
  lemma OpenTotals(positions: Positions, h: Holder, ident: PairIdentity, pair: Id, k: BinKey)
    ensures TotalsOf(WithPosition(positions, h, ident), pair, k) == TotalsOf(positions, pair, k)
  {
    var after := WithPosition(positions, h, ident);
    forall o: Id
      ensures Held(positions, o, pair, k) == Held(after, o, pair, k)
    {
    }
    if h !in positions && h.pair == pair {
      OwnersOpened(positions, h, ident);
      NotHeld(positions, h.owner, pair, k);
      TotalsShift(positions, after, h.owner, pair, k);
    } else {
      forall x: Holder | x.pair == pair
        ensures x in after <==> x in positions
      {
      }
      assert Owners(after, pair) == Owners(positions, pair);
      TotalsSame(positions, after, pair, k);
    }
  }

  lemma OwnersOpened(positions: Positions, h: Holder, ident: PairIdentity)
    requires h !in positions
    ensures Owners(WithPosition(positions, h, ident), h.pair) == Owners(positions, h.pair) + {h.owner}
    ensures h.owner !in Owners(positions, h.pair)
  {
    var after := WithPosition(positions, h, ident);
    forall o: Id
      ensures o in Owners(after, h.pair) <==> o in Owners(positions, h.pair) + {h.owner}
    {
      if o in Owners(positions, h.pair) {
        assert Holder(o, h.pair) in after;
      }
      if o == h.owner {
        assert h in after;
      }
    }
  }

  // One operation

  lemma ShareBounds(basis: int, removed: int, liquidity: int)
    requires basis >= 0 && 0 <= removed <= liquidity && liquidity > 0
    ensures 0 <= TruncDiv(basis * removed, liquidity) <= basis
    ensures removed == liquidity ==> TruncDiv(basis * removed, liquidity) == basis
  {
    MulMonotone(0, removed, basis);
    MulMonotone(removed, liquidity, basis);
    var n := basis * removed;
    assert 0 <= n <= basis * liquidity;
    FloorNonNegative(n, liquidity);
    FloorAtMost(n, liquidity, basis);
    if removed == liquidity {
      assert (basis + 1) * liquidity == basis * liquidity + liquidity;
      FloorUnique(n, liquidity, basis);
    }
  }

  lemma FloorAtMost(n: int, d: int, q: int)
    requires d > 0 && n <= q * d
    ensures n / d <= q
  {
    var k := n / d;
    assert k * d <= n;
    assert (q + 1) * d == q * d + d;
    if k > q {
      MulMonotone(q + 1, k, d);
      assert false;
    }
  }

  lemma WithdrawnSound(bin: PositionBin, removed: int, value: Option<int>)
    requires Sound(bin) && 0 <= removed <= bin.liquidity && bin.liquidity > 0 && value.Some?
    ensures var r := Withdrawn(bin, removed, value);
            && Sound(r)
            && r.liquidity == bin.liquidity - removed
            && r.costBasis.value - r.realized.value == bin.costBasis.value - bin.realized.value - value.value
  {
    ShareBounds(bin.costBasis.value, removed, bin.liquidity);
  }

  lemma SentSound(bin: PositionBin, liquidity: int)
    requires Sound(bin) && 0 <= liquidity <= bin.liquidity && bin.liquidity > 0
    ensures var share := Allocated(bin, liquidity); var r := SentOut(bin, liquidity);
            && share.Some? && share.value >= 0
            && Sound(r)
            && Amounts(r) == Totals(bin.liquidity - liquidity, bin.costBasis.value - share.value, bin.realized.value)
  {
    ShareBounds(bin.costBasis.value, liquidity, bin.liquidity);
  }

  lemma PutSound(positions: Positions, h: Holder, key: BinKey, bin: PositionBin)
    requires h in positions && AllSound(positions) && Sound(bin)
    ensures AllSound(PutBin(positions, h, key, bin))
  {
  }

  lemma OpenSound(positions: Positions, h: Holder, ident: PairIdentity)
    requires AllSound(positions)
    ensures AllSound(WithPosition(positions, h, ident))
  {
  }

  /** The books balance for one bin: liquidity is what was minted less what was burned, and basis is what
      was deposited less what was withdrawn plus what was realised. */
  predicate Balanced(t: Totals, a: Account) {
    && t.liquidity == a.minted - a.burned
    && t.basis == a.depositedValue - a.withdrawnValue + t.realized
  }

  lemma ChangedBalances(positions: Positions, h: Holder, deposit: bool, change: BinChange, value: Valued,
                        ident: PairIdentity, pair: Id, key: BinKey, a: Account)
    requires h in positions && AllSound(positions)
    requires Priced(Change(h, ident, deposit, change, value))
    requires Keeps(positions, Change(h, ident, deposit, change, value))
    requires Changed(positions, h, deposit, change, value).ok
    requires Balanced(TotalsOf(positions, pair, key), a)
    ensures var r := Changed(positions, h, deposit, change, value).positions;
            && AllSound(r)
            && Balanced(TotalsOf(r, pair, key), Credit(a, Change(h, ident, deposit, change, value), pair, key))
  {
    var found := BinOr(positions, h, change.bin, Some(0));
    var bin := Stale(found.(historyMissing := found.historyMissing + value.missing));
    assert Sound(found) && Sound(bin) && Amounts(bin) == Amounts(found) == Held(positions, h.owner, h.pair, change.bin);
    var removed := Absolute(change.liquidityDelta);
    var after := if deposit then Deposited(bin, change.liquidityDelta, value.total)
                 else Withdrawn(bin, removed, value.total);
    if !deposit {
      WithdrawnSound(bin, removed, value.total);
    }
    PutSound(positions, h, change.bin, after);
    PutTotals(positions, h, change.bin, after, pair, key);
  }

  /** Writing back what is already held, or an empty bin where none is, moves no totals. */
  lemma PutHeldTotals(positions: Positions, h: Holder, key: BinKey, costBasis: Option<int>, pair: Id, k: BinKey)
    requires h in positions && (costBasis == Some(0) || costBasis == None)
    ensures TotalsOf(PutBin(positions, h, key, BinOr(positions, h, key, costBasis)), pair, k)
            == TotalsOf(positions, pair, k)
  {
    PutTotals(positions, h, key, BinOr(positions, h, key, costBasis), pair, k);
    assert Amounts(BinOr(positions, h, key, costBasis)) == Held(positions, h.owner, h.pair, key);
  }

  lemma PutUnchanged(positions: Positions, h: Holder, key: BinKey)
    requires h in positions && key in positions[h].bins
    ensures PutBin(positions, h, key, positions[h].bins[key]) == positions
  {
    var bins := positions[h].bins;
    assert bins[key := bins[key]] == bins;
  }

  lemma TransferredBalances(positions: Positions, from: Holder, to: Holder, transfer: BinTransfer,
                            pair: Id, key: BinKey)
    requires from in positions && to in positions && from.pair == to.pair && AllSound(positions)
    requires BinOr(positions, from, transfer.bin, None).liquidity > 0
    requires Transferred(positions, from, to, transfer).ok
    ensures var r := Transferred(positions, from, to, transfer).positions;
            && AllSound(r)
            && TotalsOf(r, pair, key) == TotalsOf(positions, pair, key)
  {
    var k := transfer.bin;
    var sender := PutBin(positions, from, k, BinOr(positions, from, k, None));
    var started := PutBin(sender, to, k, BinOr(sender, to, k, Some(0)));
    var source := started[from].bins[k];
    assert source == BinOr(positions, from, k, None);
    assert k in positions[from].bins;
    PutUnchanged(positions, from, k);
    PutHeldTotals(positions, to, k, Some(0), pair, key);
    PutSound(positions, to, k, BinOr(positions, to, k, Some(0)));
    MoveBalances(started, from, to, k, transfer.liquidity, pair, key);
  }

  lemma MoveBalances(started: Positions, from: Holder, to: Holder, k: BinKey, x: int, pair: Id, key: BinKey)
    requires from in started && to in started && from.pair == to.pair && AllSound(started)
    requires k in started[from].bins && k in started[to].bins
    requires 0 <= x <= started[from].bins[k].liquidity && started[from].bins[k].liquidity > 0
    ensures var source := started[from].bins[k];
            var sent := PutBin(started, from, k, SentOut(source, x));
            var r := PutBin(sent, to, k, Received(sent[to].bins[k], x, Allocated(source, x),
                                                  sent[from].bins[k].historyMissing));
            && AllSound(r)
            && TotalsOf(r, pair, key) == TotalsOf(started, pair, key)
  {
    var source := started[from].bins[k];
    SentSound(source, x);
    var sent := PutBin(started, from, k, SentOut(source, x));
    PutSound(started, from, k, SentOut(source, x));
    PutTotals(started, from, k, SentOut(source, x), pair, key);
    var target := sent[to].bins[k];
    var received := Received(target, x, Allocated(source, x), sent[from].bins[k].historyMissing);
    assert Sound(target);
    PutSound(sent, to, k, received);
    PutTotals(sent, to, k, received, pair, key);
    assert Held(started, from.owner, from.pair, k) == Amounts(source);
    assert Held(sent, to.owner, to.pair, k) == Amounts(target);
  }

  lemma PerformBalances(positions: Positions, op: Op, pair: Id, key: BinKey, a: Account)
    requires AllSound(positions) && Priced(op) && Keeps(positions, op) && Perform(positions, op).ok
    requires Balanced(TotalsOf(positions, pair, key), a)
    ensures AllSound(Perform(positions, op).positions)
    ensures Balanced(TotalsOf(Perform(positions, op).positions, pair, key), Credit(a, op, pair, key))
  {
    match op
    case Change(h, ident, deposit, change, value) =>
      OpenSound(positions, h, ident);
      OpenTotals(positions, h, ident, pair, key);
      ChangedBalances(WithPosition(positions, h, ident), h, deposit, change, value, ident, pair, key, a);
    case Transfer(from, to, ident, transfer) =>
      var one := WithPosition(positions, from, ident);
      OpenSound(positions, from, ident);
      OpenTotals(positions, from, ident, pair, key);
      OpenSound(one, to, ident);
      OpenTotals(one, to, ident, pair, key);
      TransferredBalances(WithPosition(one, to, ident), from, to, transfer, pair, key);
  }

  /** A successful operation that takes something takes it from a bin that holds something. */
  lemma PositiveKeeps(positions: Positions, op: Op)
    requires AllSound(positions) && PricedAndPositive(op) && Perform(positions, op).ok
    ensures Priced(op) && Keeps(positions, op)
  {
  }

  /** Every operation of the run finds what it needs in the positions it starts from. */
  ghost predicate RunKeeps(ops: seq<Op>) {
    ops == [] || (RunKeeps(ops[..|ops| - 1])
                  && Keeps(PerformAll(map[], ops[..|ops| - 1]).positions, ops[|ops| - 1]))
  }

  lemma {:induction false} KeptBalances(ops: seq<Op>, pair: Id, key: BinKey)
    requires forall i :: 0 <= i < |ops| ==> Priced(ops[i])
    requires PerformAll(map[], ops).ok && RunKeeps(ops)
    ensures AllSound(PerformAll(map[], ops).positions)
    ensures Balanced(TotalsOf(PerformAll(map[], ops).positions, pair, key), AccountOf(ops, pair, key))
  {
    if ops == [] {
      assert Owners(map[], pair) == {};
    } else {
      var init := ops[..|ops| - 1];
      KeptBalances(init, pair, key);
      PerformBalances(PerformAll(map[], init).positions, ops[|ops| - 1], pair, key, AccountOf(init, pair, key));
    }
  }

  /** Main result: after any successful interleaving of fully priced, positive deposits, withdrawals and
      transfers among any owners, pairs and bins, every bin's books balance exactly in spite of the
      rounding, no basis is negative, and a bin without liquidity carries no basis. */
  lemma {:induction false} Conservation(ops: seq<Op>, pair: Id, key: BinKey)
    requires forall i :: 0 <= i < |ops| ==> PricedAndPositive(ops[i])
    requires PerformAll(map[], ops).ok
    ensures AllSound(PerformAll(map[], ops).positions)
    ensures Balanced(TotalsOf(PerformAll(map[], ops).positions, pair, key), AccountOf(ops, pair, key))
  {
    PositiveRunKeeps(ops);
    KeptBalances(ops, pair, key);
  }

  lemma {:induction false} PositiveRunKeeps(ops: seq<Op>)
    requires forall i :: 0 <= i < |ops| ==> PricedAndPositive(ops[i])
    requires PerformAll(map[], ops).ok
    ensures RunKeeps(ops) && forall i :: 0 <= i < |ops| ==> Priced(ops[i])
  {
    hide Perform, AllSound, Keeps;
    if ops != [] {
      var init := ops[..|ops| - 1];
      PositiveRunKeeps(init);
      KeptBalances(init, 0, BinKey(0, 0));
      PositiveKeeps(PerformAll(map[], init).positions, ops[|ops| - 1]);
    }
  }

  // Operations that move nothing

  /** Main result: an operation that may move nothing leaves every bin sound exactly when it keeps them: what is
      taken, even if it is nothing, is taken from a bin with liquidity, and a deposit that mints nothing into an
      empty bin is worth nothing. */
  lemma StepSoundIff(positions: Positions, op: Op)
    requires AllSound(positions) && Priced(op) && Perform(positions, op).ok
    ensures AllSound(Perform(positions, op).positions) <==> Keeps(positions, op)
  {
    if Keeps(positions, op) {
      var a := TotalsOf(positions, 0, BinKey(0, 0));
      PerformBalances(positions, op, 0, BinKey(0, 0), Account(a.liquidity, 0, a.basis - a.realized, 0));
    } else {
      Unsound(positions, op);
    }
  }

  lemma Unsound(positions: Positions, op: Op)
    requires AllSound(positions) && Priced(op) && Perform(positions, op).ok && !Keeps(positions, op)
    ensures !AllSound(Perform(positions, op).positions)
  {
    var r := Perform(positions, op).positions;
    match op
    case Change(h, _, _, change, _) => assert !Sound(r[h].bins[change.bin]);
    case Transfer(from, to, _, transfer) => assert !Sound(r[to].bins[transfer.bin]);
  }

  /** Every bin is sound after each operation of the run. */
  ghost predicate SoundThroughout(ops: seq<Op>) {
    forall i :: 0 <= i <= |ops| ==> AllSound(PerformAll(map[], ops[..i]).positions)
  }

  lemma SoundParts(ops: seq<Op>)
    requires ops != []
    ensures SoundThroughout(ops)
            <==> SoundThroughout(ops[..|ops| - 1]) && AllSound(PerformAll(map[], ops).positions)
  {
    hide PerformAll, AllSound;
    var n := |ops| - 1;
    assert ops[..n + 1] == ops;
    assert forall i :: 0 <= i <= n ==> ops[..n][..i] == ops[..i];
  }

  /** Main result: a successful run of fully priced operations, which may move nothing, leaves every bin sound after
      each of its operations exactly when each keeps them, and then every bin's books balance. */
  lemma {:induction false} ConservationIff(ops: seq<Op>, pair: Id, key: BinKey)
    requires forall i :: 0 <= i < |ops| ==> Priced(ops[i])
    requires PerformAll(map[], ops).ok
    ensures RunKeeps(ops) <==> SoundThroughout(ops)
    ensures RunKeeps(ops)
            ==> Balanced(TotalsOf(PerformAll(map[], ops).positions, pair, key), AccountOf(ops, pair, key))
  {
    hide Perform, AllSound, Keeps, Priced, SoundThroughout, TotalsOf, AccountOf;
    if RunKeeps(ops) {
      KeptBalances(ops, pair, key);
    }
    if ops == [] {
      NothingHeld();
    } else {
      var init := ops[..|ops| - 1];
      ConservationIff(init, pair, key);
      SoundParts(ops);
      if RunKeeps(init) {
        KeptBalances(init, pair, key);
        StepSoundIff(PerformAll(map[], init).positions, ops[|ops| - 1]);
      }
    }
  }

  lemma NothingHeld()
    ensures SoundThroughout([])
  {
    var none: seq<Op> := [];
    assert forall i :: 0 <= i <= |none| ==> none[..i] == [];
  }

  /** A successful priced withdrawal from a sound bin keeps the basis known exactly when the bin held
      liquidity: withdrawing nothing from an empty bin erases its basis. */
  lemma WithdrawalKeepsBasisIff(bin: PositionBin, removed: int, value: int)
    requires Sound(bin) && 0 <= removed <= bin.liquidity
    ensures Withdrawn(bin, removed, Some(value)).costBasis.Some? <==> bin.liquidity != 0
    ensures Withdrawn(NewBin(Some(0)), 0, Some(0)).costBasis == None
  {
  }

  /** A deposit that mints nothing keeps an empty bin free of basis exactly when it is worth nothing. */
  lemma EmptyDepositKeepsSoundIff(bin: PositionBin, value: int)
    requires Sound(bin) && bin.liquidity == 0 && value >= 0
    ensures Sound(Deposited(bin, 0, Some(value))) <==> value == 0
  {
  }

  /** A successful transfer leaves the recipient's basis known exactly when it was known and the sender's bin exists,
      has a known basis and holds liquidity. A transfer of nothing by an owner who holds nothing is successful, so it
      erases the recipient's basis. */
  lemma TransferKeepsBasisIff(positions: Positions, from: Holder, to: Holder, transfer: BinTransfer)
    requires from in positions && to in positions && Transferred(positions, from, to, transfer).ok
    ensures var r := Transferred(positions, from, to, transfer).positions;
            var key := transfer.bin;
            && key in r[to].bins
            && (r[to].bins[key].costBasis.Some?
                <==> && BinOr(positions, to, key, Some(0)).costBasis.Some?
                     && key in positions[from].bins
                     && positions[from].bins[key].costBasis.Some?
                     && positions[from].bins[key].liquidity != 0)
  {
  }

  /** Between sound positions the recipient's basis stays known exactly when the sender's bin holds liquidity. */
  lemma SoundTransferKeepsBasisIff(positions: Positions, from: Holder, to: Holder, transfer: BinTransfer)
    requires from in positions && to in positions && AllSound(positions)
    requires Transferred(positions, from, to, transfer).ok
    ensures var r := Transferred(positions, from, to, transfer).positions;
            && transfer.bin in r[to].bins
            && (r[to].bins[transfer.bin].costBasis.Some?
                <==> transfer.bin in positions[from].bins && positions[from].bins[transfer.bin].liquidity > 0)
  {
    TransferKeepsBasisIff(positions, from, to, transfer);
  }
}
