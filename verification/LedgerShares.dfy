/** What one deposit, withdrawal or transfer does to the bins it names, field by field, and to no others.
    The basis that leaves a bin is its share of the basis, rounded down; a withdrawal realises the value less that
    share, and a transfer hands exactly that share on. */
module LedgerShares {
  import opened Domain
  import opened Flows
  import opened Ledger
  import opened PriceBook
  import opened PairIndex
  import opened Projection
  import opened ViewInvariants
  import opened Valuations

  /** The bin filed for a holder, if there is one. */
  function BinAt(positions: Positions, h: Holder, key: BinKey): Option<PositionBin> {
    if h in positions && key in positions[h].bins then Some(positions[h].bins[key]) else None
  }

  /** No bin but the named ones differs. */
  ghost predicate OtherBinsKept(before: Positions, after: Positions, touched: set<Holder>, key: BinKey) {
    forall h, k :: (h in touched ==> k != key) ==> BinAt(after, h, k) == BinAt(before, h, k)
  }

  /** Nothing is known of what the bin holds in tokens or since when. */
  predicate Unvalued(bin: PositionBin) {
    && bin.currentMissing == {} && bin.amountX.None? && bin.amountY.None?
    && bin.snapshotBlock.None? && bin.snapshotTimestamp.None?
  }

  /** `taken` is the share of `basis` that goes with `removed` of `liquidity`, rounded down. */
  predicate IsShare(taken: int, basis: int, removed: int, liquidity: int) {
    RoundedDown(basis * removed, liquidity, taken)
  }

  /** A share is known when the bin has a known basis and liquidity; it is then the rounded proportion. */
  ghost predicate Takes(bin: PositionBin, removed: int, taken: Option<int>) {
    && (taken.Some? <==> bin.costBasis.Some? && bin.liquidity != 0)
    && (taken.Some? && bin.costBasis.value >= 0 && bin.liquidity > 0 && removed >= 0 ==>
          IsShare(taken.value, bin.costBasis.value, removed, bin.liquidity))
  }

  predicate BinDeposited(was: PositionBin, now: PositionBin, delta: int, value: Valued) {
    && now.liquidity == was.liquidity + delta
    && now.costBasis == (if was.costBasis.Some? && value.total.Some?
                         then Some(was.costBasis.value + value.total.value) else None)
    && now.realized == was.realized && now.historyMissing == was.historyMissing + value.missing
    && now.currentValue.None? && Unvalued(now)
  }

  ghost predicate BinWithdrawn(was: PositionBin, now: PositionBin, removed: int, value: Valued, taken: Option<int>) {
    && Takes(was, removed, taken)
    && now.liquidity == was.liquidity - removed
    && now.costBasis == (if taken.Some? then Some(was.costBasis.value - taken.value) else None)
    && now.realized == (if taken.Some? && value.total.Some? && was.realized.Some?
                        then Some(was.realized.value + value.total.value - taken.value) else None)
    && now.historyMissing == was.historyMissing + value.missing
    && now.currentValue == (if now.liquidity == 0 then Some(0) else None) && Unvalued(now)
  }

  /** A bin that gives liquidity away, and one that gets it, between two owners. */
  ghost predicate BinsMoved(source: PositionBin, target: PositionBin, sent: PositionBin, got: PositionBin, moved: int,
                            taken: Option<int>)
  {
    && Takes(source, moved, taken)
    && sent.liquidity == source.liquidity - moved && got.liquidity == target.liquidity + moved
    && sent.costBasis == (if taken.Some? then Some(source.costBasis.value - taken.value) else None)
    && got.costBasis == (if taken.Some? && target.costBasis.Some? then Some(target.costBasis.value + taken.value)
                         else None)
    && sent.realized == source.realized && got.realized == target.realized
    && sent.historyMissing == source.historyMissing
    && got.historyMissing == target.historyMissing + source.historyMissing
    && sent.currentValue.None? && got.currentValue.None? && Unvalued(sent) && Unvalued(got)
  }

  // One operation

  lemma TakesAllocated(bin: PositionBin, removed: int)
    ensures Takes(bin, removed, Allocated(bin, removed))
  {
    if bin.costBasis.Some? && bin.liquidity > 0 && bin.costBasis.value >= 0 && removed >= 0 {
      Fixed.MulMonotone(0, removed, bin.costBasis.value);
      TruncatesTowardZero(bin.costBasis.value * removed, bin.liquidity);
    }
  }

  /** Main result on one bin of a deposit or withdrawal: it runs exactly when the deposited amount is not negative or
      the withdrawn one is held, and then only this bin changes, as stated. */
  lemma ChangeIs(positions: Positions, h: Holder, ident: PairIdentity, deposit: bool, change: BinChange, value: Valued)
    returns (taken: Option<int>)
    ensures var before := WithPosition(positions, h, ident);
            var m := Perform(positions, Change(h, ident, deposit, change, value));
            var was, removed := BinOr(before, h, change.bin, Some(0)), Absolute(change.liquidityDelta);
            && m.tokens == value.missing && !m.forced
            && OtherBinsKept(before, m.positions, {h}, change.bin)
            && BinAt(m.positions, h, change.bin).Some?
            && var now := BinAt(m.positions, h, change.bin).value;
               if deposit then m.ok == (change.liquidityDelta >= 0)
                               && (m.ok ==> BinDeposited(was, now, change.liquidityDelta, value))
               else m.ok == (removed <= was.liquidity) && (m.ok ==> BinWithdrawn(was, now, removed, value, taken))
  {
    hide Withdrawn, BinWithdrawn;
    var before := WithPosition(positions, h, ident);
    var found, removed := BinOr(before, h, change.bin, Some(0)), Absolute(change.liquidityDelta);
    var bin := Ledger.Stale(found.(historyMissing := found.historyMissing + value.missing));
    taken := Allocated(found, removed);
    WithdrawnIs(found, bin, removed, value);
  }

  lemma WithdrawnIs(found: PositionBin, bin: PositionBin, removed: int, value: Valued)
    requires bin == Ledger.Stale(found.(historyMissing := found.historyMissing + value.missing))
    ensures BinWithdrawn(found, Withdrawn(bin, removed, value.total), removed, value, Allocated(found, removed))
  {
    TakesAllocated(found, removed);
    SameAllocated(found, bin, removed);
    TakenKnown(found, removed);
    hide Allocated, Takes;
  }

  lemma SameAllocated(a: PositionBin, b: PositionBin, removed: int)
    requires a.costBasis == b.costBasis && a.liquidity == b.liquidity
    ensures Allocated(a, removed) == Allocated(b, removed)
  {
  }

  lemma TakenKnown(bin: PositionBin, removed: int)
    ensures Allocated(bin, removed).Some? ==> bin.costBasis.Some?
  {
  }

  /** Main result on one bin of a transfer between two owners: it runs exactly when the amount is not negative and held,
      and then the recipient's basis grows by exactly what the sender's loses. */
  lemma TransferIs(positions: Positions, from: Holder, to: Holder, ident: PairIdentity, transfer: BinTransfer)
    returns (taken: Option<int>)
    requires from != to
    ensures var before := WithPosition(WithPosition(positions, from, ident), to, ident);
            var m := Perform(positions, Transfer(from, to, ident, transfer));
            var source, target := BinOr(before, from, transfer.bin, None), BinOr(before, to, transfer.bin, Some(0));
            && m.tokens == {}
            && OtherBinsKept(before, m.positions, {from, to}, transfer.bin)
            && m.ok == (0 <= transfer.liquidity <= source.liquidity)
            && (m.ok ==> && BinAt(m.positions, from, transfer.bin).Some? && BinAt(m.positions, to, transfer.bin).Some?
                         && m.forced == taken.None?
                         && BinsMoved(source, target, BinAt(m.positions, from, transfer.bin).value,
                                      BinAt(m.positions, to, transfer.bin).value, transfer.liquidity, taken))
  {
    hide Takes, Allocated, BinsMoved, Transferred;
    var before := WithPosition(WithPosition(positions, from, ident), to, ident);
    taken := Allocated(BinOr(before, from, transfer.bin, None), transfer.liquidity);
    MovedIs(before, from, to, transfer);
  }

  lemma MovedIs(before: Positions, from: Holder, to: Holder, transfer: BinTransfer)
    requires from in before && to in before && from != to
    ensures var m := Transferred(before, from, to, transfer);
            var source, target := BinOr(before, from, transfer.bin, None), BinOr(before, to, transfer.bin, Some(0));
            && m.tokens == {}
            && OtherBinsKept(before, m.positions, {from, to}, transfer.bin)
            && m.ok == (0 <= transfer.liquidity <= source.liquidity)
            && (m.ok ==> && BinAt(m.positions, from, transfer.bin).Some? && BinAt(m.positions, to, transfer.bin).Some?
                         && m.forced == Allocated(source, transfer.liquidity).None?
                         && BinsMoved(source, target, BinAt(m.positions, from, transfer.bin).value,
                                      BinAt(m.positions, to, transfer.bin).value, transfer.liquidity,
                                      Allocated(source, transfer.liquidity)))
  {
    var source, target := BinOr(before, from, transfer.bin, None), BinOr(before, to, transfer.bin, Some(0));
    MovedBins(before, from, to, transfer);
    SentAndReceived(source, target, transfer.liquidity);
    hide Ledger.Transferred, SentOut, Ledger.Received, BinsMoved, OtherBinsKept, BinOr, Allocated;
  }

  lemma MovedBins(before: Positions, from: Holder, to: Holder, transfer: BinTransfer)
    requires from in before && to in before && from != to
    ensures var m, key := Transferred(before, from, to, transfer), transfer.bin;
            var source, target := BinOr(before, from, key, None), BinOr(before, to, key, Some(0));
            var basis := Allocated(source, transfer.liquidity);
            && m.tokens == {}
            && OtherBinsKept(before, m.positions, {from, to}, key)
            && m.ok == (0 <= transfer.liquidity <= source.liquidity)
            && (m.ok ==>
                  && m.forced == basis.None?
                  && BinAt(m.positions, from, key) == Some(SentOut(source, transfer.liquidity))
                  && BinAt(m.positions, to, key)
                     == Some(Ledger.Received(target, transfer.liquidity, basis, source.historyMissing)))
  {
    hide Allocated, Ledger.Received;
  }

  lemma SentAndReceived(source: PositionBin, target: PositionBin, liquidity: int)
    ensures var basis := Allocated(source, liquidity);
            BinsMoved(source, target, SentOut(source, liquidity),
                      Ledger.Received(target, liquidity, basis, source.historyMissing), liquidity, basis)
  {
    TakesAllocated(source, liquidity);
    TakenKnown(source, liquidity);
    hide Takes, Allocated;
  }

  /** A transfer to oneself moves no liquidity and no basis, but an unknown share makes the basis unknown. */
  lemma SelfTransferIs(positions: Positions, h: Holder, ident: PairIdentity, transfer: BinTransfer)
    ensures var before := WithPosition(positions, h, ident);
            var m := Perform(positions, Transfer(h, h, ident, transfer));
            var was := BinOr(before, h, transfer.bin, None);
            && m.tokens == {}
            && OtherBinsKept(before, m.positions, {h}, transfer.bin)
            && m.ok == (0 <= transfer.liquidity <= was.liquidity)
            && (m.ok ==> && BinAt(m.positions, h, transfer.bin).Some?
                         && var now := BinAt(m.positions, h, transfer.bin).value;
                            && now.liquidity == was.liquidity && now.realized == was.realized
                            && now.historyMissing == was.historyMissing && now.currentValue.None? && Unvalued(now)
                            && now.costBasis == (if was.liquidity != 0 then was.costBasis else None)
                            && m.forced == (was.costBasis.None? || was.liquidity == 0))
  {
  }

  // Events

  /** Between two positions of a run one entry of a deposit or withdrawal was applied. */
  ghost predicate Changes(before: Positions, after: Positions, h: Holder, deposit: bool, change: BinChange,
                          value: Valued, taken: Option<int>)
  {
    && OtherBinsKept(before, after, {h}, change.bin) && BinAt(after, h, change.bin).Some?
    && var was, now := BinOr(before, h, change.bin, Some(0)), BinAt(after, h, change.bin).value;
       if deposit then change.liquidityDelta >= 0 && BinDeposited(was, now, change.liquidityDelta, value)
       else Absolute(change.liquidityDelta) <= was.liquidity
            && BinWithdrawn(was, now, Absolute(change.liquidityDelta), value, taken)
  }

  /** Between two positions of a run one entry of a transfer between two owners was applied. */
  ghost predicate Moves(before: Positions, after: Positions, from: Holder, to: Holder, transfer: BinTransfer,
                        taken: Option<int>)
  {
    var source, target := BinOr(before, from, transfer.bin, None), BinOr(before, to, transfer.bin, Some(0));
    && OtherBinsKept(before, after, {from, to}, transfer.bin)
    && 0 <= transfer.liquidity <= source.liquidity
    && BinAt(after, from, transfer.bin).Some? && BinAt(after, to, transfer.bin).Some?
    && BinsMoved(source, target, BinAt(after, from, transfer.bin).value, BinAt(after, to, transfer.bin).value,
                 transfer.liquidity, taken)
  }

  lemma {:induction false} EarlierRuns(start: Positions, ops: seq<Op>, i: nat)
    requires i <= |ops| && PerformAll(start, ops).ok
    ensures PerformAll(start, ops[..i]).ok
    decreases |ops|
  {
    hide Perform;
    if i < |ops| {
      EarlierRuns(start, ops[..|ops| - 1], i);
      assert ops[..|ops| - 1][..i] == ops[..i];
    } else {
      assert ops[..i] == ops;
    }
  }

  lemma OneEntry(start: Positions, ops: seq<Op>, i: nat)
    requires i < |ops| && PerformAll(start, ops).ok
    ensures Perform(PerformAll(start, ops[..i]).positions, ops[i]).ok
    ensures PerformAll(start, ops[..i + 1]).positions
            == Perform(PerformAll(start, ops[..i]).positions, ops[i]).positions
  {
    hide Perform;
    EarlierRuns(start, ops, i);
    EarlierRuns(start, ops, i + 1);
    assert ops[..i + 1] == ops[..i] + [ops[i]];
    PerformAllStep(start, ops[..i], ops[i]);
  }

  lemma {:induction false} LiquidityOpsAre(h: Holder, ident: PairIdentity, deposit: bool, changes: seq<BinChange>,
                                           q: Quotes)
    ensures forall i :: 0 <= i < |changes| ==>
              LiquidityOps(h, ident, deposit, changes, q.x, q.y)[i]
              == Change(h, ident, deposit, changes[i],
                        ValueAmounts(ident, changes[i].amountX, changes[i].amountY, q.x, q.y))
  {
    hide ValueAmounts;
    if changes != [] {
      LiquidityOpsAre(h, ident, deposit, changes[..|changes| - 1], q);
    }
  }

  lemma {:induction false} TransferOpsAre(from: Holder, to: Holder, ident: PairIdentity, transfers: seq<BinTransfer>)
    ensures forall i :: 0 <= i < |transfers| ==>
              TransferOps(from, to, ident, transfers)[i] == Transfer(from, to, ident, transfers[i])
  {
    if transfers != [] {
      TransferOpsAre(from, to, ident, transfers[..|transfers| - 1]);
    }
  }

  function RunOf(start: Positions, ops: seq<Op>): (run: seq<Positions>)
    ensures |run| == |ops| + 1
  {
    seq(|ops| + 1, i requires 0 <= i <= |ops| => PerformAll(start, ops[..i]).positions)
  }

  /** Main result on deposits and withdrawals: an event that runs opens the owner's position and then applies its
      entries one after the other, each as stated, valued at the given prices. */
  lemma LiquidityEventIs(h: Holdings, e: Event, q: Quotes) returns (run: seq<Positions>, taken: seq<Option<int>>)
    requires e.Liquidity? && AfterLiquidity(h, e, q).ok
    ensures |run| == |e.changes| + 1 && |taken| == |e.changes|
    ensures run[0] == WithPosition(h.positions, Holder(e.owner, e.ident.pair), e.ident)
    ensures run[|e.changes|] == AfterLiquidity(h, e, q).holdings.positions
    ensures forall i :: 0 <= i < |e.changes| ==>
              Changes(run[i], run[i + 1], Holder(e.owner, e.ident.pair), e.deposit, e.changes[i],
                      ValueAmounts(e.ident, e.changes[i].amountX, e.changes[i].amountY, q.x, q.y), taken[i])
  {
    hide PerformAll, LiquidityOps, ValueAmounts, Changes, WithHolder, WithPosition;
    var holder := Holder(e.owner, e.ident.pair);
    var start := WithPosition(h.positions, holder, e.ident);
    var ops := LiquidityOps(holder, e.ident, e.deposit, e.changes, q.x, q.y);
    run := RunOf(start, ops);
    RunEnds(start, ops);
    taken := [];
    var i := 0;
    while i < |e.changes|
      invariant i <= |e.changes| && |taken| == i
      invariant forall j :: 0 <= j < i ==>
                  Changes(run[j], run[j + 1], holder, e.deposit, e.changes[j],
                          ValueAmounts(e.ident, e.changes[j].amountX, e.changes[j].amountY, q.x, q.y), taken[j])
    {
      var c := e.changes[i];
      var value := ValueAmounts(e.ident, c.amountX, c.amountY, q.x, q.y);
      LiquidityOpsAre(holder, e.ident, e.deposit, e.changes, q);
      OneEntry(start, ops, i);
      HolderKept(start, ops[..i], holder);
      var t := ChangeApplied(run[i], holder, e.ident, e.deposit, c, value);
      taken := taken + [t];
      i := i + 1;
    }
  }

  lemma RunEnds(start: Positions, ops: seq<Op>)
    ensures RunOf(start, ops)[0] == start && RunOf(start, ops)[|ops|] == PerformAll(start, ops).positions
  {
    assert ops[..0] == [] && ops[..|ops|] == ops;
  }

  lemma ChangeApplied(positions: Positions, h: Holder, ident: PairIdentity, deposit: bool, change: BinChange,
                      value: Valued) returns (taken: Option<int>)
    requires h in positions && Perform(positions, Change(h, ident, deposit, change, value)).ok
    ensures Changes(positions, Perform(positions, Change(h, ident, deposit, change, value)).positions, h, deposit,
                    change, value, taken)
  {
    hide Perform, BinDeposited, BinWithdrawn, OtherBinsKept;
    taken := ChangeIs(positions, h, ident, deposit, change, value);
  }

  /** Main result on transfers: an event between two owners that runs opens both positions and then applies its
      entries one after the other, each as stated. */
  lemma TransferEventIs(h: Holdings, e: Event) returns (run: seq<Positions>, taken: seq<Option<int>>)
    requires e.PositionTransfer? && e.from != e.to && AfterTransfer(h, e).ok
    ensures |run| == |e.transfers| + 1 && |taken| == |e.transfers|
    ensures var from, to := Holder(e.from, e.ident.pair), Holder(e.to, e.ident.pair);
            && run[0] == WithPosition(WithPosition(h.positions, from, e.ident), to, e.ident)
            && run[|e.transfers|] == AfterTransfer(h, e).holdings.positions
            && forall i :: 0 <= i < |e.transfers| ==> Moves(run[i], run[i + 1], from, to, e.transfers[i], taken[i])
  {
    hide PerformAll, TransferOps, Moves, WithHolder, WithPosition;
    var from, to := Holder(e.from, e.ident.pair), Holder(e.to, e.ident.pair);
    var start := WithPosition(WithPosition(h.positions, from, e.ident), to, e.ident);
    var ops := TransferOps(from, to, e.ident, e.transfers);
    BothOpen(h.positions, from, to, e.ident);
    run := RunOf(start, ops);
    RunEnds(start, ops);
    taken := [];
    var i := 0;
    while i < |e.transfers|
      invariant i <= |e.transfers| && |taken| == i
      invariant forall j :: 0 <= j < i ==> Moves(run[j], run[j + 1], from, to, e.transfers[j], taken[j])
    {
      TransferOpsAre(from, to, e.ident, e.transfers);
      OneEntry(start, ops, i);
      HolderKept(start, ops[..i], from);
      HolderKept(start, ops[..i], to);
      var t := TransferApplied(run[i], from, to, e.ident, e.transfers[i]);
      taken := taken + [t];
      i := i + 1;
    }
  }

  lemma BothOpen(positions: Positions, from: Holder, to: Holder, ident: PairIdentity)
    ensures from in WithPosition(WithPosition(positions, from, ident), to, ident)
    ensures to in WithPosition(WithPosition(positions, from, ident), to, ident)
  {
  }

  lemma TransferApplied(positions: Positions, from: Holder, to: Holder, ident: PairIdentity, transfer: BinTransfer)
    returns (taken: Option<int>)
    requires from in positions && to in positions && from != to
    requires Perform(positions, Transfer(from, to, ident, transfer)).ok
    ensures Moves(positions, Perform(positions, Transfer(from, to, ident, transfer)).positions, from, to, transfer,
                  taken)
  {
    hide Perform, BinsMoved, OtherBinsKept;
    taken := TransferIs(positions, from, to, ident, transfer);
  }

  /** The engine applies these to its holdings, deposits and withdrawals at the prices of the block's time. */
  lemma EngineApplies(policies: Policies, v: View, e: Event, b: Block, index: nat)
    requires AfterEvent(policies, v, e, b, index).ok && (e.Liquidity? || e.PositionTransfer?)
    ensures var q, r := QuotesAt(policies, v.book, e.ident, b.timestamp), AfterEvent(policies, v, e, b, index);
            && (e.Liquidity? ==> AfterLiquidity(v.holdings, e, q).ok
                                 && r.view.holdings == AfterLiquidity(v.holdings, e, q).holdings)
            && (e.PositionTransfer? ==> AfterTransfer(v.holdings, e).ok
                                        && r.view.holdings == AfterTransfer(v.holdings, e).holdings)
  {
    hide AfterLiquidity, AfterTransfer, QuotesAt, Published, SamePairIdentity, TouchedAt, Projection.Listed,
         ActivityRow;
    if e.Liquidity? {
      var logged := Logged(v, e, b, index);
      var q := QuotesAt(policies, v.book, e.ident, b.timestamp);
      TouchedKeeps(logged, Published(CurrentPair(logged.listing, e.ident.pair), e, b, q));
    }
  }

  // Snapshots

  /** A bin after a snapshot listed it. */
  predicate BinShown(was: Option<PositionBin>, now: PositionBin, v: BinValuation, value: Valued, block: int, t: int) {
    && now.liquidity == v.liquidity && now.amountX == Some(v.amountX) && now.amountY == Some(v.amountY)
    && now.currentValue == value.total && now.currentMissing == value.missing
    && now.snapshotBlock == Some(block) && now.snapshotTimestamp == Some(t)
    && now.costBasis == (if was.Some? && was.value.liquidity == v.liquidity then was.value.costBasis else None)
    && now.realized == (if was.Some? then was.value.realized else Some(0))
    && now.historyMissing == (if was.Some? then was.value.historyMissing else {})
  }

  /** A bin after a snapshot that does not list it. */
  predicate BinGone(was: PositionBin, now: PositionBin, block: int, t: int) {
    && now.liquidity == 0 && now.amountX == Some(0) && now.amountY == Some(0) && now.currentValue == Some(0)
    && now.snapshotBlock == Some(block) && now.snapshotTimestamp == Some(t)
    && now.costBasis == (if was.liquidity > 0 then None else was.costBasis)
    && now.realized == was.realized && now.historyMissing == was.historyMissing
    && now.currentMissing == was.currentMissing
  }

  function In(bins: map<BinKey, PositionBin>, key: BinKey): Option<PositionBin> {
    if key in bins then Some(bins[key]) else None
  }

  lemma {:induction false} UnlistedKept(bins: map<BinKey, PositionBin>, ident: PairIdentity,
                                        valuations: seq<BinValuation>, q: Quotes, block: int, t: int, key: BinKey)
    requires forall v :: v in valuations ==> v.bin != key
    ensures In(SnapAll(bins, ident, valuations, q.x, q.y, block, t).bins, key) == In(bins, key)
  {
    hide ValueAmounts;
    if valuations != [] {
      var init, last := valuations[..|valuations| - 1], valuations[|valuations| - 1];
      assert valuations == init + [last];
      UnlistedKept(bins, ident, init, q, block, t, key);
      assert last in valuations;
    }
  }

  lemma {:induction false} ListedShown(bins: map<BinKey, PositionBin>, ident: PairIdentity,
                                       valuations: seq<BinValuation>, q: Quotes, block: int, t: int, i: nat)
    requires i < |valuations| && forall j :: 0 <= j < |valuations| && j != i ==> valuations[j].bin != valuations[i].bin
    ensures var v := valuations[i];
            var now := In(SnapAll(bins, ident, valuations, q.x, q.y, block, t).bins, v.bin);
            now.Some? && BinShown(In(bins, v.bin), now.value, v, ValueAmounts(ident, v.amountX, v.amountY, q.x, q.y),
                                  block, t)
  {
    hide ValueAmounts;
    var init, last := valuations[..|valuations| - 1], valuations[|valuations| - 1];
    if i < |init| {
      ListedShown(bins, ident, init, q, block, t, i);
    } else {
      forall v | v in init
        ensures v.bin != last.bin
      {
        var j :| 0 <= j < |init| && init[j] == v;
        assert valuations[j] == v;
      }
      UnlistedKept(bins, ident, init, q, block, t, last.bin);
    }
  }

  /** Main result on snapshots: the position shows each bin as listed, with its basis only if the liquidity agrees,
      every other bin of it as empty, and no other position changes. */
  lemma SnapshotIs(positions: Positions, h: Holder, ident: PairIdentity, valuations: seq<BinValuation>, q: Quotes,
                   block: int, t: int, key: BinKey)
    ensures var m := Snapshotted(positions, h, ident, valuations, q.x, q.y, block, t);
            var was, now := BinAt(positions, h, key), BinAt(m.positions, h, key);
            && m.ok && (forall x :: x != h ==> (x in m.positions <==> x in positions))
            && (forall x :: x != h && x in positions ==> m.positions[x] == positions[x])
            && ((forall v :: v in valuations ==> v.bin != key) ==>
                  now.Some? == was.Some? && (was.Some? ==> BinGone(was.value, now.value, block, t)))
            && forall i :: 0 <= i < |valuations| && valuations[i].bin == key
                           && (forall j :: 0 <= j < |valuations| && j != i ==> valuations[j].bin != key) ==>
                 now.Some? && BinShown(was, now.value, valuations[i],
                                       ValueAmounts(ident, valuations[i].amountX, valuations[i].amountY, q.x, q.y),
                                       block, t)
  {
    hide ValueAmounts, SnapAll, BinShown, LosesLiquidity;
    var started := WithPosition(positions, h, ident);
    var bins := started[h].bins;
    var s := SnapAll(bins, ident, valuations, q.x, q.y, block, t);
    assert In(bins, key) == BinAt(positions, h, key);
    if forall v :: v in valuations ==> v.bin != key {
      UnlistedKept(bins, ident, valuations, q, block, t, key);
      assert key !in Ledger.Listed(valuations);
    }
    forall i | 0 <= i < |valuations| && valuations[i].bin == key
               && (forall j :: 0 <= j < |valuations| && j != i ==> valuations[j].bin != key)
      ensures In(s.bins, key).Some?
              && BinShown(In(bins, key), s.bins[key], valuations[i],
                          ValueAmounts(ident, valuations[i].amountX, valuations[i].amountY, q.x, q.y), block, t)
    {
      ListedShown(bins, ident, valuations, q, block, t, i);
    }
    if exists v :: v in valuations && v.bin == key {
      assert key in Ledger.Listed(valuations);
    }
  }
}
