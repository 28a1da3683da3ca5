/** When an applied event counts as partial, and which tokens it reports as lacking a price. */
module PartialEvents {
  import opened Domain
  import opened PairIndex
  import opened Flows
  import opened Ledger
  import opened Projection
  import opened LedgerShares

  /** Some entry of a deposit or withdrawal has an amount of the token without a price. */
  predicate EntryLacks(e: Event, q: Quotes, token: Id)
    requires e.Liquidity?
  {
    exists i :: 0 <= i < |e.changes|
                && token in ValueAmounts(e.ident, e.changes[i].amountX, e.changes[i].amountY, q.x, q.y).missing
  }

  /** What the operations of a run do, one after the other. */
  function Turns(start: Positions, ops: seq<Op>): (r: seq<Moved>)
    ensures |r| == |ops|
  {
    if ops == [] then []
    else
      var init := ops[..|ops| - 1];
      Turns(start, init) + [Perform(PerformAll(start, init).positions, ops[|ops| - 1])]
  }

  lemma {:induction false} TurnAt(start: Positions, ops: seq<Op>, i: nat)
    requires i < |ops|
    ensures Turns(start, ops)[i] == Perform(PerformAll(start, ops[..i]).positions, ops[i])
    decreases |ops|
  {
    hide Perform, PerformAll;
    if i < |ops| - 1 {
      TurnAt(start, ops[..|ops| - 1], i);
      assert ops[..|ops| - 1][..i] == ops[..i];
    }
  }

  lemma {:induction false} TokensOf(start: Positions, ops: seq<Op>, token: Id)
    requires PerformAll(start, ops).ok
    ensures token in PerformAll(start, ops).tokens <==> exists m :: m in Turns(start, ops) && token in m.tokens
    ensures PerformAll(start, ops).forced <==> exists m :: m in Turns(start, ops) && m.forced
  {
    hide Perform;
    if ops != [] {
      EarlierRuns(start, ops, |ops| - 1);
      TokensOf(start, ops[..|ops| - 1], token);
    }
  }

  lemma ChangeLacks(positions: Positions, h: Holder, ident: PairIdentity, deposit: bool, change: BinChange,
                    value: Valued)
    ensures Perform(positions, Change(h, ident, deposit, change, value)).tokens == value.missing
    ensures !Perform(positions, Change(h, ident, deposit, change, value)).forced
  {
    var taken := ChangeIs(positions, h, ident, deposit, change, value);
  }

  /** A deposit or withdrawal reports the tokens that its entries lack a price for, and is partial for no other
      reason. */
  lemma LiquidityLacks(h: Holdings, e: Event, q: Quotes, token: Id)
    requires e.Liquidity? && AfterLiquidity(h, e, q).ok
    ensures token in AfterLiquidity(h, e, q).tokens <==> EntryLacks(e, q, token)
    ensures !AfterLiquidity(h, e, q).forced
  {
    hide PerformAll, Perform, LiquidityOps, ValueAmounts, WithHolder, WithPosition;
    var holder := Holder(e.owner, e.ident.pair);
    var start := WithPosition(h.positions, holder, e.ident);
    var ops := LiquidityOps(holder, e.ident, e.deposit, e.changes, q.x, q.y);
    TokensOf(start, ops, token);
    LiquidityOpsAre(holder, e.ident, e.deposit, e.changes, q);
    forall i | 0 <= i < |e.changes|
      ensures var value := ValueAmounts(e.ident, e.changes[i].amountX, e.changes[i].amountY, q.x, q.y);
              Turns(start, ops)[i].tokens == value.missing && !Turns(start, ops)[i].forced
    {
      TurnAt(start, ops, i);
      ChangeLacks(PerformAll(start, ops[..i]).positions, holder, e.ident, e.deposit, e.changes[i],
                  ValueAmounts(e.ident, e.changes[i].amountX, e.changes[i].amountY, q.x, q.y));
    }
    hide Turns;
  }

  /** What the sender has of the bin has no known basis, or there is nothing that could carry one. */
  predicate NoBasis(positions: Positions, from: Holder, key: BinKey) {
    var bin := BinAt(positions, from, key);
    bin.None? || bin.value.costBasis.None? || bin.value.liquidity == 0
  }

  lemma TransferForced(positions: Positions, from: Holder, to: Holder, ident: PairIdentity, transfer: BinTransfer)
    requires from in positions && to in positions
    requires Perform(positions, Transfer(from, to, ident, transfer)).ok
    ensures Perform(positions, Transfer(from, to, ident, transfer)).tokens == {}
    ensures Perform(positions, Transfer(from, to, ident, transfer)).forced <==> NoBasis(positions, from, transfer.bin)
  {
  }

  /** A transfer reports no tokens, and is partial exactly when an entry, at its turn, moves an unknown basis; `run` are
      the positions before each entry and after the last. */
  lemma TransferLacks(h: Holdings, e: Event) returns (run: seq<Positions>)
    requires e.PositionTransfer? && AfterTransfer(h, e).ok
    ensures |run| == |e.transfers| + 1 && run[|e.transfers|] == AfterTransfer(h, e).holdings.positions
    ensures var from, to := Holder(e.from, e.ident.pair), Holder(e.to, e.ident.pair);
            && run[0] == WithPosition(WithPosition(h.positions, from, e.ident), to, e.ident)
            && (forall i :: 0 <= i < |e.transfers| ==>
                  run[i + 1] == Perform(run[i], Transfer(from, to, e.ident, e.transfers[i])).positions)
            && AfterTransfer(h, e).tokens == {}
            && (AfterTransfer(h, e).forced <==>
                  exists i :: 0 <= i < |e.transfers| && NoBasis(run[i], from, e.transfers[i].bin))
  {
    hide PerformAll, Perform, TransferOps, WithHolder, WithPosition, NoBasis;
    var from, to := Holder(e.from, e.ident.pair), Holder(e.to, e.ident.pair);
    var start := WithPosition(WithPosition(h.positions, from, e.ident), to, e.ident);
    var ops := TransferOps(from, to, e.ident, e.transfers);
    BothOpen(h.positions, from, to, e.ident);
    TransferOpsAre(from, to, e.ident, e.transfers);
    run := RunOf(start, ops);
    RunEnds(start, ops);
    forall i | 0 <= i < |e.transfers|
      ensures run[i + 1] == Turns(start, ops)[i].positions && Turns(start, ops)[i] == Perform(run[i], ops[i])
      ensures Turns(start, ops)[i].tokens == {}
      ensures Turns(start, ops)[i].forced <==> NoBasis(run[i], from, e.transfers[i].bin)
    {
      TurnAt(start, ops, i);
      OneEntry(start, ops, i);
      HolderKept(start, ops[..i], from);
      HolderKept(start, ops[..i], to);
      TransferForced(run[i], from, to, e.ident, e.transfers[i]);
    }
    forall token ensures token !in AfterTransfer(h, e).tokens {
      TokensOf(start, ops, token);
    }
    TokensOf(start, ops, 0);
    hide Turns;
  }

  // Position snapshots

  predicate Distinct(valuations: seq<BinValuation>) {
    forall i, j :: 0 <= i < j < |valuations| ==> valuations[i].bin != valuations[j].bin
  }

  /** The snapshot contradicts the position: it lists a bin not held or with other liquidity, or leaves out a bin that
      holds some. */
  predicate Contradicts(bins: map<BinKey, PositionBin>, valuations: seq<BinValuation>) {
    || (exists i :: 0 <= i < |valuations|
                    && (valuations[i].bin !in bins || bins[valuations[i].bin].liquidity != valuations[i].liquidity))
    || exists key :: key in bins && bins[key].liquidity > 0
                     && forall i :: 0 <= i < |valuations| ==> valuations[i].bin != key
  }

  lemma {:induction false} SnapAllLacks(bins: map<BinKey, PositionBin>, ident: PairIdentity,
                                        valuations: seq<BinValuation>, q: Quotes, block: int, t: int, token: Id)
    requires Distinct(valuations)
    ensures var s := SnapAll(bins, ident, valuations, q.x, q.y, block, t);
            && (token in s.tokens <==>
                  exists i :: 0 <= i < |valuations|
                    && token in ValueAmounts(ident, valuations[i].amountX, valuations[i].amountY, q.x, q.y).missing)
            && (s.forced <==>
                  exists i :: 0 <= i < |valuations|
                    && (valuations[i].bin !in bins || bins[valuations[i].bin].liquidity != valuations[i].liquidity))
  {
    hide ValueAmounts;
    if valuations != [] {
      var init, last := valuations[..|valuations| - 1], valuations[|valuations| - 1];
      SnapAllLacks(bins, ident, init, q, block, t, token);
      forall v | v in init ensures v.bin != last.bin {
        var i :| 0 <= i < |init| && init[i] == v;
        assert valuations[i] == v;
      }
      UnlistedKept(bins, ident, init, q, block, t, last.bin);
      hide SnapAll;
    }
  }

  predicate ValuationLacks(e: Event, q: Quotes, token: Id)
    requires e.PositionSnapshot?
  {
    exists i :: 0 <= i < |e.valuations|
                && token in ValueAmounts(e.ident, e.valuations[i].amountX, e.valuations[i].amountY, q.x, q.y).missing
  }

  /** A snapshot of distinct bins reports the tokens that it cannot value, and is partial besides exactly when it
      contradicts the position. */
  lemma SnapshotLacks(h: Holdings, e: Event, b: Block, q: Quotes, token: Id)
    requires e.PositionSnapshot? && Distinct(e.valuations)
    ensures var r, holder := AfterSnapshot(h, e, b, q), Holder(e.owner, e.ident.pair);
            && r.ok && (token in r.tokens <==> ValuationLacks(e, q, token))
            && (r.forced <==>
                  Contradicts(if holder in h.positions then h.positions[holder].bins else map[], e.valuations))
  {
    hide ValueAmounts, SnapAll, WithHolder;
    var holder := Holder(e.owner, e.ident.pair);
    var bins := if holder in h.positions then h.positions[holder].bins else map[];
    var s := SnapAll(bins, e.ident, e.valuations, q.x, q.y, b.number, b.timestamp);
    SnapAllLacks(bins, e.ident, e.valuations, q, b.number, b.timestamp, token);
    SnapKeys(bins, e.ident, e.valuations, q, b.number, b.timestamp);
    forall key
      ensures key in s.bins.Keys - Ledger.Listed(e.valuations) <==>
              key in bins && forall i :: 0 <= i < |e.valuations| ==> e.valuations[i].bin != key
      ensures key in s.bins.Keys - Ledger.Listed(e.valuations) ==> s.bins[key] == bins[key]
    {
      if forall i :: 0 <= i < |e.valuations| ==> e.valuations[i].bin != key {
        UnlistedKept(bins, e.ident, e.valuations, q, b.number, b.timestamp, key);
      }
    }
  }

  lemma {:induction false} SnapKeys(bins: map<BinKey, PositionBin>, ident: PairIdentity, valuations: seq<BinValuation>,
                                    q: Quotes, block: int, t: int)
    ensures SnapAll(bins, ident, valuations, q.x, q.y, block, t).bins.Keys == bins.Keys + Ledger.Listed(valuations)
  {
    hide ValueAmounts;
    if valuations != [] {
      var init, last := valuations[..|valuations| - 1], valuations[|valuations| - 1];
      assert valuations == init + [last];
      SnapKeys(bins, ident, init, q, block, t);
    }
  }

  // Events

  /** The state that the event publishes, if it is a market event. */
  function StateOf(policies: Policies, v: View, e: Event, b: Block): Option<PairState> {
    if !e.IsMarket() then None
    else Some(Published(CurrentPair(v.listing, e.ident.pair), e, b, QuotesAt(policies, v.book, e.ident, b.timestamp)))
  }

  /** The event reports the token: its pair state lacks a price for it, or its own amounts do. */
  predicate Reports(e: Event, state: Option<PairState>, q: Quotes, token: Id) {
    || (state.Some? && token in state.value.missing)
    || (state.Some? && e.Swap? && token in SwapRow(e, state.value, q).missing)
    || (e.Liquidity? && EntryLacks(e, q, token))
    || (e.PositionSnapshot? && ValuationLacks(e, q, token))
  }

  /** The event is partial whatever the prices: a swap without the protocol's share, a transfer of an unknown basis, or
      a snapshot that contradicts the position. */
  predicate Unsplit(h: Holdings, e: Event) {
    || (e.Swap? && (e.protocolFeeX.None? || e.protocolFeeY.None?))
    || (e.PositionTransfer? && AfterTransfer(h, e).forced)
    || (e.PositionSnapshot?
        && var holder := Holder(e.owner, e.ident.pair);
           Contradicts(if holder in h.positions then h.positions[holder].bins else map[], e.valuations))
  }

  lemma MarketReports(policies: Policies, v: View, e: Event, b: Block, token: Id)
    requires e.IsMarket() && AfterMarket(policies, v, e, b).ok
    ensures var r, q := AfterMarket(policies, v, e, b), QuotesAt(policies, v.book, e.ident, b.timestamp);
            && (token in r.tokens <==> Reports(e, StateOf(policies, v, e, b), q, token))
            && r.forced == Unsplit(v.holdings, e)
            && r.view.missing == v.missing && r.view.partialCount == v.partialCount
  {
    hide Published, SwapRow, QuotesAt, SamePairIdentity, AfterLiquidity, AfterObservation, WithSwapAt, TouchedAt,
         Projection.Listed, EntryLacks, CurrentPair;
    if e.Liquidity? {
      LiquidityLacks(v.holdings, e, QuotesAt(policies, v.book, e.ident, b.timestamp), token);
    }
  }

  lemma BodyReports(policies: Policies, v: View, e: Event, b: Block, token: Id)
    requires AfterBody(policies, v, e, b).ok && (e.PositionSnapshot? ==> Distinct(e.valuations))
    ensures var r, q := AfterBody(policies, v, e, b), QuotesAt(policies, v.book, e.ident, b.timestamp);
            && (token in r.tokens <==> Reports(e, StateOf(policies, v, e, b), q, token))
            && r.forced == Unsplit(v.holdings, e)
            && r.view.missing == v.missing && r.view.partialCount == v.partialCount
  {
    if e.IsMarket() {
      hide AfterMarket, Reports, Unsplit;
      MarketReports(policies, v, e, b, token);
    } else if e.PositionSnapshot? {
      hide AfterSnapshot, ValuationLacks, Contradicts, QuotesAt;
      SnapshotLacks(v.holdings, e, b, QuotesAt(policies, v.book, e.ident, b.timestamp), token);
    } else {
      hide AfterTransfer;
      var run := TransferLacks(v.holdings, e);
    }
  }

  /** Main result on partial events: an event that runs adds the tokens it reports to the missing ones, and counts as
      partial exactly when it reports one or is partial whatever the prices. */
  lemma PartialIs(policies: Policies, v: View, e: Event, b: Block, index: nat)
    requires AfterEvent(policies, v, e, b, index).ok && (e.PositionSnapshot? ==> Distinct(e.valuations))
    ensures var r, q := AfterEvent(policies, v, e, b, index).view, QuotesAt(policies, v.book, e.ident, b.timestamp);
            var state := StateOf(policies, v, e, b);
            && (forall token :: token in r.missing <==> token in v.missing || Reports(e, state, q, token))
            && (r.partialCount == v.partialCount + 1 <==>
                  Unsplit(v.holdings, e) || exists token :: Reports(e, state, q, token))
            && v.partialCount <= r.partialCount <= v.partialCount + 1
  {
    hide AfterBody, ActivityRow, Reports, Unsplit, QuotesAt, Published;
    var logged := Logged(v, e, b, index);
    var tokens := AfterBody(policies, logged, e, b).tokens;
    forall token
      ensures token in tokens <==>
              Reports(e, StateOf(policies, v, e, b), QuotesAt(policies, v.book, e.ident, b.timestamp), token)
    {
      BodyReports(policies, logged, e, b, token);
    }
    BodyReports(policies, logged, e, b, 0);
    assert tokens != {} <==> exists token :: token in tokens;
  }
}
