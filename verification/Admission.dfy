/** Which blocks the engine applies without throwing, told from their events alone. */
module Admission {
  // Pairs keep their identity, pools their chain, deltas their sign, and nobody withdraws or sends more than is
  // held. Prices, candles and flows play no part.

  import opened Domain
  import opened Fixed
  import Flows
  import Ledger
  import opened Chain
  import opened PairIndex
  import opened PoolState
  import opened Projection

  /** Liquidity by holder and bin. */
  type Amounts = (Ledger.Holder, BinKey) -> int

  /** All that decides whether an event throws: the identity last published for each pair, the chain of each
      observed pool, and the liquidity held. */
  datatype Guard = Guard(pairs: map<Id, PairIdentity>, chains: map<Id, int>, held: Amounts)

  ghost function EmptyGuard(): Guard {
    Guard(map[], map[], (h: Ledger.Holder, key: BinKey) => 0)
  }

  // Amounts moved by one event

  function Minted(changes: seq<BinChange>, key: BinKey): int {
    if changes == [] then 0
    else
      var c := changes[|changes| - 1];
      Minted(changes[..|changes| - 1], key) + if c.bin == key then c.liquidityDelta else 0
  }

  function Burned(changes: seq<BinChange>, key: BinKey): nat {
    if changes == [] then 0
    else
      var c := changes[|changes| - 1];
      Burned(changes[..|changes| - 1], key) + if c.bin == key then Ledger.Absolute(c.liquidityDelta) else 0
  }

  function Sent(transfers: seq<BinTransfer>, key: BinKey): int {
    if transfers == [] then 0
    else
      var t := transfers[|transfers| - 1];
      Sent(transfers[..|transfers| - 1], key) + if t.bin == key then t.liquidity else 0
  }

  /** The liquidity a snapshot leaves in a bin: the last listed amount, or nothing. */
  function Shown(valuations: seq<BinValuation>, key: BinKey): int {
    if valuations == [] then 0
    else
      var v := valuations[|valuations| - 1];
      if v.bin == key then v.liquidity else Shown(valuations[..|valuations| - 1], key)
  }

  // Admission

  /** What a bin gives up in one event is counted over all of the event's entries for the bin. */
  ghost predicate CanWithdraw(held: Amounts, h: Ledger.Holder, changes: seq<BinChange>) {
    forall c :: c in changes ==> Burned(changes, c.bin) <= held(h, c.bin)
  }

  predicate CanDeposit(changes: seq<BinChange>) {
    forall c :: c in changes ==> c.liquidityDelta >= 0
  }

  /** A transfer to oneself gives back what it takes, so there each entry counts alone. */
  ghost predicate CanTransfer(held: Amounts, from: Ledger.Holder, to: Ledger.Holder, transfers: seq<BinTransfer>) {
    forall t :: t in transfers ==>
      t.liquidity >= 0 && (if from == to then t.liquidity else Sent(transfers, t.bin)) <= held(from, t.bin)
  }

  ghost predicate KeepsIdentity(g: Guard, ident: PairIdentity) {
    ident.pair in g.pairs ==> SamePairIdentity(g.pairs[ident.pair], ident)
  }

  /** Whether applying a valid event does not throw. */
  ghost predicate Admissible(g: Guard, e: Event, chainId: Option<int>) {
    && (e.IsMarket() ==> KeepsIdentity(g, e.ident))
    && match e
       case Swap(_, _, _, _, _, _, _, _, _, _, _) => true
       case PairSnapshot(_, ident, _, _, _, observation) =>
         observation.Some? && ident.pair in g.chains ==> g.chains[ident.pair] == chainId.GetOr(0)
       case Liquidity(_, ident, _, _, _, deposit, owner, changes) =>
         if deposit then CanDeposit(changes) else CanWithdraw(g.held, Ledger.Holder(owner, ident.pair), changes)
       case PositionSnapshot(_, _, _, _) => true
       case PositionTransfer(_, ident, from, to, transfers) =>
         CanTransfer(g.held, Ledger.Holder(from, ident.pair), Ledger.Holder(to, ident.pair), transfers)
  }

  /** Liquidity after an admissible event. */
  ghost function HeldAfter(held: Amounts, e: Event): Amounts {
    match e
    case Liquidity(_, ident, _, _, _, deposit, owner, changes) =>
      ((h: Ledger.Holder, key: BinKey) =>
        held(h, key) + if h != Ledger.Holder(owner, ident.pair) then 0
                       else if deposit then Minted(changes, key) else 0 - Burned(changes, key))
    case PositionSnapshot(_, ident, owner, valuations) =>
      ((h: Ledger.Holder, key: BinKey) =>
        if h == Ledger.Holder(owner, ident.pair) then Shown(valuations, key) else held(h, key))
    case PositionTransfer(_, ident, from, to, transfers) =>
      ((h: Ledger.Holder, key: BinKey) =>
        held(h, key) + (if h == Ledger.Holder(to, ident.pair) then Sent(transfers, key) else 0)
                     - (if h == Ledger.Holder(from, ident.pair) then Sent(transfers, key) else 0))
    case _ => held
  }

  ghost function Advance(g: Guard, e: Event, chainId: Option<int>): Guard {
    Guard(if e.IsMarket() then g.pairs[e.ident.pair := e.ident] else g.pairs,
          if IsObservation(e) then g.chains[e.ident.pair := chainId.GetOr(0)] else g.chains,
          HeldAfter(g.held, e))
  }

  ghost function AfterAdmitted(g: Guard, events: seq<Event>, chainId: Option<int>): Option<Guard> {
    if events == [] then Some(g)
    else
      var before, last := AfterAdmitted(g, events[..|events| - 1], chainId), events[|events| - 1];
      if before.None? || !Admissible(before.value, last, chainId) then None
      else Some(Advance(before.value, last, chainId))
  }

  /** The guard after a chain, or `None` once an event of it would throw. */
  ghost function GuardOf(blocks: seq<Block>): Option<Guard> {
    if blocks == [] then Some(EmptyGuard())
    else
      var before, last := GuardOf(blocks[..|blocks| - 1]), blocks[|blocks| - 1];
      if before.None? then None else AfterAdmitted(before.value, last.events, last.chainId)
  }

  ghost predicate Admitted(blocks: seq<Block>) {
    GuardOf(blocks).Some?
  }

  // The guard follows the derived state

  function LiquidityAt(positions: Ledger.Positions, h: Ledger.Holder, key: BinKey): int {
    Ledger.BinOr(positions, h, key, Some(0)).liquidity
  }

  ghost predicate HeldIs(held: Amounts, positions: Ledger.Positions) {
    forall h, key :: held(h, key) == LiquidityAt(positions, h, key)
  }

  ghost predicate PairsAre(pairs: map<Id, PairIdentity>, states: map<Id, PairState>) {
    pairs.Keys == states.Keys && forall p: Id :: p in pairs ==> pairs[p] == states[p].ident
  }

  ghost predicate ChainsAre(chains: map<Id, int>, pools: map<Id, Pool>) {
    forall p: Id :: ChainIs(chains, pools, p)
  }

  ghost predicate ChainIs(chains: map<Id, int>, pools: map<Id, Pool>, p: Id) {
    var state := PoolOr(pools, p).state;
    && (p in chains <==> state.Some?)
    && (p in chains ==> chains[p] == state.value.chainId)
  }

  ghost predicate Guards(g: Guard, v: View) {
    && PairsAre(g.pairs, v.listing.pairs)
    && ChainsAre(g.chains, v.pools)
    && HeldIs(g.held, v.holdings.positions)
  }

  // Ledger operations

  lemma ChangedMoves(positions: Ledger.Positions, h: Ledger.Holder, deposit: bool, change: BinChange,
                     value: Flows.Valued)
    requires h in positions
    ensures var m := Ledger.Changed(positions, h, deposit, change, value);
            var moved := if deposit then change.liquidityDelta else -Ledger.Absolute(change.liquidityDelta);
            && (m.ok <==> if deposit then moved >= 0 else -moved <= LiquidityAt(positions, h, change.bin))
            && (m.ok ==> forall x, key ::
                  LiquidityAt(m.positions, x, key)
                  == LiquidityAt(positions, x, key) + if x == h && key == change.bin then moved else 0)
  {
  }

  /** One more entry of the event: it runs exactly when the earlier ones ran and it is within what they left. */
  lemma LiquidityStep(positions: Ledger.Positions, h: Ledger.Holder, ident: PairIdentity, deposit: bool,
                      changes: seq<BinChange>, priceX: Option<int>, priceY: Option<int>)
    requires h in positions && changes != []
    ensures var init, c := changes[..|changes| - 1], changes[|changes| - 1];
            var before := Ledger.PerformAll(positions, Ledger.LiquidityOps(h, ident, deposit, init, priceX, priceY));
            var m := Ledger.PerformAll(positions, Ledger.LiquidityOps(h, ident, deposit, changes, priceX, priceY));
            var moved := if deposit then c.liquidityDelta else -Ledger.Absolute(c.liquidityDelta);
            && (m.ok <==> before.ok && if deposit then moved >= 0
                                       else -moved <= LiquidityAt(before.positions, h, c.bin))
            && (m.ok ==> forall x, key ::
                  LiquidityAt(m.positions, x, key)
                  == LiquidityAt(before.positions, x, key) + if x == h && key == c.bin then moved else 0)
  {
    hide Ledger.PerformAll, Ledger.Changed, LiquidityAt, Flows.ValueAmounts;
    var init, c := changes[..|changes| - 1], changes[|changes| - 1];
    var ops := Ledger.LiquidityOps(h, ident, deposit, init, priceX, priceY);
    var value := Flows.ValueAmounts(ident, c.amountX, c.amountY, priceX, priceY);
    Ledger.PerformAllStep(positions, ops, Ledger.Change(h, ident, deposit, c, value));
    Ledger.HolderKept(positions, ops, h);
    ChangedMoves(Ledger.PerformAll(positions, ops).positions, h, deposit, c, value);
  }

  lemma {:induction false} DepositRuns(positions: Ledger.Positions, h: Ledger.Holder, ident: PairIdentity,
                                       changes: seq<BinChange>, priceX: Option<int>, priceY: Option<int>)
    requires h in positions
    ensures var m := Ledger.PerformAll(positions, Ledger.LiquidityOps(h, ident, true, changes, priceX, priceY));
            && (m.ok <==> CanDeposit(changes))
            && (m.ok ==> forall x, key ::
                  LiquidityAt(m.positions, x, key)
                  == LiquidityAt(positions, x, key) + if x == h then Minted(changes, key) else 0)
  {
    hide Ledger.PerformAll, Ledger.LiquidityOps, LiquidityAt;
    if changes == [] {
      NothingRuns(positions, h, ident, true, priceX, priceY);
    } else {
      var init, c := changes[..|changes| - 1], changes[|changes| - 1];
      assert changes == init + [c];
      DepositRuns(positions, h, ident, init, priceX, priceY);
      LiquidityStep(positions, h, ident, true, changes, priceX, priceY);
    }
  }

  lemma NothingRuns(positions: Ledger.Positions, h: Ledger.Holder, ident: PairIdentity, deposit: bool,
                    priceX: Option<int>, priceY: Option<int>)
    ensures Ledger.PerformAll(positions, Ledger.LiquidityOps(h, ident, deposit, [], priceX, priceY))
            == Ledger.Moved(positions, {}, false, true)
  {
  }

  ghost function AmountsOf(positions: Ledger.Positions): Amounts {
    (h: Ledger.Holder, key: BinKey) => LiquidityAt(positions, h, key)
  }

  /** Burned amounts only grow along an event. */
  lemma BurnedMore(init: seq<BinChange>, c: BinChange, held: Amounts, h: Ledger.Holder)
    ensures CanWithdraw(held, h, init + [c]) <==>
            CanWithdraw(held, h, init) && Burned(init + [c], c.bin) <= held(h, c.bin)
    ensures forall key :: Burned(init + [c], key)
                          == Burned(init, key) + if key == c.bin then Ledger.Absolute(c.liquidityDelta) else 0
  {
    var changes := init + [c];
    assert changes[..|changes| - 1] == init;
    assert forall x :: x in changes <==> x in init || x == c;
  }

  lemma {:induction false} WithdrawRuns(positions: Ledger.Positions, h: Ledger.Holder, ident: PairIdentity,
                                        changes: seq<BinChange>, priceX: Option<int>, priceY: Option<int>)
    requires h in positions
    ensures var m := Ledger.PerformAll(positions, Ledger.LiquidityOps(h, ident, false, changes, priceX, priceY));
            && (m.ok <==> CanWithdraw(AmountsOf(positions), h, changes))
            && (m.ok ==> forall x, key ::
                  LiquidityAt(m.positions, x, key)
                  == LiquidityAt(positions, x, key) - if x == h then Burned(changes, key) else 0)
  {
    hide Ledger.PerformAll, Ledger.LiquidityOps, LiquidityAt, Ledger.Absolute;
    if changes == [] {
      NothingRuns(positions, h, ident, false, priceX, priceY);
    } else {
      var init, c := changes[..|changes| - 1], changes[|changes| - 1];
      assert changes == init + [c];
      BurnedMore(init, c, AmountsOf(positions), h);
      WithdrawRuns(positions, h, ident, init, priceX, priceY);
      LiquidityStep(positions, h, ident, false, changes, priceX, priceY);
    }
  }

  lemma TransferredMoves(positions: Ledger.Positions, from: Ledger.Holder, to: Ledger.Holder, t: BinTransfer)
    requires from in positions && to in positions
    ensures var m := Ledger.Transferred(positions, from, to, t);
            && (m.ok <==> 0 <= t.liquidity <= LiquidityAt(positions, from, t.bin))
            && (m.ok ==> forall x, key ::
                  LiquidityAt(m.positions, x, key)
                  == LiquidityAt(positions, x, key) + (if x == to && key == t.bin then t.liquidity else 0)
                                                    - (if x == from && key == t.bin then t.liquidity else 0))
  {
    hide Ledger.Allocated;
  }

  lemma TransferStep(positions: Ledger.Positions, from: Ledger.Holder, to: Ledger.Holder, ident: PairIdentity,
                     transfers: seq<BinTransfer>)
    requires from in positions && to in positions && transfers != []
    ensures var init, t := transfers[..|transfers| - 1], transfers[|transfers| - 1];
            var before := Ledger.PerformAll(positions, Ledger.TransferOps(from, to, ident, init));
            var m := Ledger.PerformAll(positions, Ledger.TransferOps(from, to, ident, transfers));
            && (m.ok <==> before.ok && 0 <= t.liquidity <= LiquidityAt(before.positions, from, t.bin))
            && (m.ok ==> forall x, key ::
                  LiquidityAt(m.positions, x, key)
                  == LiquidityAt(before.positions, x, key) + (if x == to && key == t.bin then t.liquidity else 0)
                                                           - (if x == from && key == t.bin then t.liquidity else 0))
  {
    hide Ledger.PerformAll, Ledger.Transferred, LiquidityAt;
    var init, t := transfers[..|transfers| - 1], transfers[|transfers| - 1];
    var ops := Ledger.TransferOps(from, to, ident, init);
    Ledger.PerformAllStep(positions, ops, Ledger.Transfer(from, to, ident, t));
    Ledger.HolderKept(positions, ops, from);
    Ledger.HolderKept(positions, ops, to);
    TransferredMoves(Ledger.PerformAll(positions, ops).positions, from, to, t);
  }

  lemma SentMore(init: seq<BinTransfer>, t: BinTransfer, held: Amounts, from: Ledger.Holder, to: Ledger.Holder)
    ensures CanTransfer(held, from, to, init + [t]) <==>
            CanTransfer(held, from, to, init) && 0 <= t.liquidity
            && t.liquidity + (if from == to then 0 else Sent(init, t.bin)) <= held(from, t.bin)
    ensures forall key :: Sent(init + [t], key) == Sent(init, key) + if key == t.bin then t.liquidity else 0
  {
    var transfers := init + [t];
    assert transfers[..|transfers| - 1] == init;
    assert forall x :: x in transfers <==> x in init || x == t;
  }

  lemma {:induction false} TransferRuns(positions: Ledger.Positions, from: Ledger.Holder, to: Ledger.Holder,
                                        ident: PairIdentity, transfers: seq<BinTransfer>)
    requires from in positions && to in positions
    ensures var m := Ledger.PerformAll(positions, Ledger.TransferOps(from, to, ident, transfers));
            && (m.ok <==> CanTransfer(AmountsOf(positions), from, to, transfers))
            && (m.ok ==> forall x, key ::
                  LiquidityAt(m.positions, x, key)
                  == LiquidityAt(positions, x, key) + (if x == to then Sent(transfers, key) else 0)
                                                    - (if x == from then Sent(transfers, key) else 0))
  {
    hide Ledger.TransferOps, LiquidityAt;
    if transfers != [] {
      var init, t := transfers[..|transfers| - 1], transfers[|transfers| - 1];
      assert transfers == init + [t];
      SentMore(init, t, AmountsOf(positions), from, to);
      TransferRuns(positions, from, to, ident, init);
      TransferStep(positions, from, to, ident, transfers);
    } else {
      NothingSent(positions, from, to, ident);
    }
  }

  lemma NothingSent(positions: Ledger.Positions, from: Ledger.Holder, to: Ledger.Holder, ident: PairIdentity)
    ensures Ledger.PerformAll(positions, Ledger.TransferOps(from, to, ident, []))
            == Ledger.Moved(positions, {}, false, true)
  {
  }

  // Snapshots

  lemma {:induction false} SnapShows(bins: map<BinKey, Ledger.PositionBin>, ident: PairIdentity,
                                     valuations: seq<BinValuation>, priceX: Option<int>, priceY: Option<int>,
                                     block: int, timestamp: int)
    ensures var s := Ledger.SnapAll(bins, ident, valuations, priceX, priceY, block, timestamp);
            && s.bins.Keys == bins.Keys + Ledger.Listed(valuations)
            && (forall key :: key in Ledger.Listed(valuations) ==> s.bins[key].liquidity == Shown(valuations, key))
  {
    hide Flows.ValueAmounts;
    if valuations != [] {
      var init, v := valuations[..|valuations| - 1], valuations[|valuations| - 1];
      assert valuations == init + [v];
      SnapShows(bins, ident, init, priceX, priceY, block, timestamp);
      assert Ledger.Listed(valuations) == Ledger.Listed(init) + {v.bin};
    }
  }

  lemma {:induction false} ShownListed(valuations: seq<BinValuation>, key: BinKey)
    requires key !in Ledger.Listed(valuations)
    ensures Shown(valuations, key) == 0
  {
    if valuations != [] {
      var init, v := valuations[..|valuations| - 1], valuations[|valuations| - 1];
      assert valuations == init + [v];
      assert v in valuations;
      ShownListed(init, key);
    }
  }

  lemma SnapshotShows(positions: Ledger.Positions, h: Ledger.Holder, ident: PairIdentity,
                      valuations: seq<BinValuation>, priceX: Option<int>, priceY: Option<int>,
                      block: int, timestamp: int)
    ensures var m := Ledger.Snapshotted(positions, h, ident, valuations, priceX, priceY, block, timestamp);
            forall x, key :: LiquidityAt(m.positions, x, key)
                             == if x == h then Shown(valuations, key) else LiquidityAt(positions, x, key)
  {
    hide Ledger.SnapAll, Shown, Ledger.Listed, Ledger.LosesLiquidity;
    SnapShows(Ledger.WithPosition(positions, h, ident)[h].bins, ident, valuations, priceX, priceY, block, timestamp);
    forall key | key !in Ledger.Listed(valuations)
      ensures Shown(valuations, key) == 0
    {
      ShownListed(valuations, key);
    }
  }

  // Events

  lemma OpenedSame(positions: Ledger.Positions, h: Ledger.Holder, ident: PairIdentity)
    ensures forall x, key :: LiquidityAt(Ledger.WithPosition(positions, h, ident), x, key) == LiquidityAt(positions, x, key)
  {
  }

  lemma LiquidityAdmitted(held: Amounts, h: Holdings, e: Event, q: Quotes)
    requires e.Liquidity? && HeldIs(held, h.positions)
    ensures var r := AfterLiquidity(h, e, q);
            && (r.ok <==> if e.deposit then CanDeposit(e.changes)
                          else CanWithdraw(held, Ledger.Holder(e.owner, e.ident.pair), e.changes))
            && (r.ok ==> HeldIs(HeldAfter(held, e), r.holdings.positions))
  {
    hide Ledger.PerformAll, Ledger.LiquidityOps, Ledger.WithPosition, LiquidityAt, WithHolder, Burned, Minted;
    var holder := Ledger.Holder(e.owner, e.ident.pair);
    var started := Ledger.WithPosition(h.positions, holder, e.ident);
    OpenedSame(h.positions, holder, e.ident);
    if e.deposit {
      DepositRuns(started, holder, e.ident, e.changes, q.x, q.y);
    } else {
      WithdrawRuns(started, holder, e.ident, e.changes, q.x, q.y);
    }
  }

  lemma TransferAdmitted(held: Amounts, h: Holdings, e: Event)
    requires e.PositionTransfer? && HeldIs(held, h.positions)
    ensures var r := AfterTransfer(h, e);
            && (r.ok <==> CanTransfer(held, Ledger.Holder(e.from, e.ident.pair), Ledger.Holder(e.to, e.ident.pair),
                                      e.transfers))
            && (r.ok ==> HeldIs(HeldAfter(held, e), r.holdings.positions))
  {
    hide Ledger.PerformAll, Ledger.TransferOps, Ledger.WithPosition, LiquidityAt, WithHolder, Sent;
    var from, to := Ledger.Holder(e.from, e.ident.pair), Ledger.Holder(e.to, e.ident.pair);
    var one := Ledger.WithPosition(h.positions, from, e.ident);
    var started := Ledger.WithPosition(one, to, e.ident);
    OpenedSame(h.positions, from, e.ident);
    OpenedSame(one, to, e.ident);
    BothOpen(h.positions, from, to, e.ident);
    TransferRuns(started, from, to, e.ident, e.transfers);
  }

  lemma BothOpen(positions: Ledger.Positions, from: Ledger.Holder, to: Ledger.Holder, ident: PairIdentity)
    ensures var started := Ledger.WithPosition(Ledger.WithPosition(positions, from, ident), to, ident);
            from in started && to in started
  {
  }

  lemma SnapshotAdmitted(held: Amounts, h: Holdings, e: Event, b: Block, q: Quotes)
    requires e.PositionSnapshot? && HeldIs(held, h.positions)
    ensures var r := AfterSnapshot(h, e, b, q);
            r.ok && HeldIs(HeldAfter(held, e), r.holdings.positions)
  {
    hide Ledger.Snapshotted, LiquidityAt, WithHolder, Shown;
    var holder := Ledger.Holder(e.owner, e.ident.pair);
    SnapshotShows(h.positions, holder, e.ident, e.valuations, q.x, q.y, b.number, b.timestamp);
    assert AfterSnapshot(h, e, b, q).ok by {
      AlwaysSnaps(h.positions, holder, e.ident, e.valuations, q, b);
    }
  }

  lemma AlwaysSnaps(positions: Ledger.Positions, h: Ledger.Holder, ident: PairIdentity, valuations: seq<BinValuation>,
                    q: Quotes, b: Block)
    ensures Ledger.Snapshotted(positions, h, ident, valuations, q.x, q.y, b.number, b.timestamp).ok
  {
    hide Ledger.SnapAll, Ledger.Swept, Ledger.Listed;
  }

  lemma ObservationAdmitted(chains: map<Id, int>, pools: map<Id, Pool>, state: PairState, o: Observation, b: Block)
    requires ChainsAre(chains, pools)
    requires state.activeId.Some? && state.binStep.Some? && state.marketPriceQuote.Some?
    ensures var r, p, chainId := AfterObservation(pools, state, o, b), state.ident.pair, b.chainId.GetOr(0);
            && (r.Some? <==> (p in chains ==> chains[p] == chainId))
            && (r.Some? ==> ChainsAre(chains[p := chainId], r.value.0))
  {
    hide ApplyBins;
    var r, p, chainId := AfterObservation(pools, state, o, b), state.ident.pair, b.chainId.GetOr(0);
    assert ChainIs(chains, pools, p);
    if r.Some? {
      var observed, after := chains[p := chainId], r.value.0;
      forall x: Id
        ensures ChainIs(observed, after, x)
      {
        assert ChainIs(chains, pools, x);
      }
    }
  }

  /** An observation publishes its own bin and step, and a quote. */
  lemma ObservationPublishes(current: Option<PairState>, e: Event, b: Block, q: Quotes)
    requires IsObservation(e) && ValidEvent(e, b.chainId)
    ensures var s := Published(current, e, b, q);
            && s.activeId.Some? && s.binStep.Some? && s.marketPriceQuote.Some?
            && s.activeId == e.market.activeId && s.binStep == e.market.binStep
  {
    hide Flows.ValueAmounts, TruncDiv;
  }

  lemma ListedPairs(pairs: map<Id, PairIdentity>, l: Listing, state: PairState)
    requires PairsAre(pairs, l.pairs)
    ensures PairsAre(pairs[state.ident.pair := state.ident], Projection.Listed(l, state).pairs)
  {
  }

  lemma ListedOnly(v: View, state: PairState)
    ensures var r := WithTouch(WithPair(v, state), state);
            && r.listing == Projection.Listed(v.listing, state) && r.holdings == v.holdings && r.pools == v.pools
  {
  }

  lemma MarketAdmitted(policies: Policies, v: View, e: Event, b: Block, g: Guard)
    requires e.IsMarket() && ValidEvent(e, b.chainId) && Guards(g, v)
    ensures AfterMarket(policies, v, e, b).ok <==> Admissible(g, e, b.chainId)
    ensures AfterMarket(policies, v, e, b).ok ==>
              Guards(Advance(g, e, b.chainId), AfterMarket(policies, v, e, b).view)
  {
    hide ValidEvent, Published, QuotesAt, SamePairIdentity, SwapRow, WithRow, WithSwapAt, AfterLiquidity,
         AfterObservation, PairsAre, ChainsAre, HeldIs, CanDeposit, CanWithdraw, WithTouch, WithPair,
         Projection.Listed;
    var current := CurrentPair(v.listing, e.ident.pair);
    IdentityKept(g, v, e.ident);
    var q := QuotesAt(policies, v.book, e.ident, b.timestamp);
    var state := Published(current, e, b, q);
    PublishedAt(current, e, b, q);
    if IsObservation(e) {
      ObservationPublishes(current, e, b, q);
    }
    ListedOnly(v, state);
    ListedPairs(g.pairs, v.listing, state);
    if e.Liquidity? {
      LiquidityAdmitted(g.held, v.holdings, e, q);
    } else if IsObservation(e) {
      ObservationAdmitted(g.chains, v.pools, state, e.poolState.value, b);
    }
  }

  lemma IdentityKept(g: Guard, v: View, ident: PairIdentity)
    requires PairsAre(g.pairs, v.listing.pairs)
    ensures var current := CurrentPair(v.listing, ident.pair);
            KeepsIdentity(g, ident) <==> (current.Some? ==> SamePairIdentity(current.value.ident, ident))
  {
    hide SamePairIdentity;
  }

  /** Main result on one event: a valid event is applied without a throw exactly when the guard admits it, and then
      the advanced guard describes the state after it. */
  lemma EventAdmitted(policies: Policies, v: View, e: Event, b: Block, index: nat, g: Guard)
    requires ValidEvent(e, b.chainId) && Guards(g, v)
    ensures var r := AfterEvent(policies, v, e, b, index);
            && (r.ok <==> Admissible(g, e, b.chainId))
            && (r.ok ==> Guards(Advance(g, e, b.chainId), r.view))
  {
    hide ValidEvent, AfterMarket, QuotesAt, AfterSnapshot, AfterTransfer, ActivityRow, PairsAre, ChainsAre, HeldIs,
         CanTransfer;
    var logged := Logged(v, e, b, index);
    assert Guards(g, logged);
    if e.IsMarket() {
      MarketAdmitted(policies, logged, e, b, g);
    } else if e.PositionSnapshot? {
      SnapshotAdmitted(g.held, v.holdings, e, b, QuotesAt(policies, v.book, e.ident, b.timestamp));
    } else {
      TransferAdmitted(g.held, v.holdings, e);
    }
  }

  lemma {:induction false} EventsAdmitted(policies: Policies, v: View, events: seq<Event>, b: Block, g: Guard)
    requires Guards(g, v) && forall e :: e in events ==> ValidEvent(e, b.chainId)
    ensures var r, after := AfterEvents(policies, v, events, b), AfterAdmitted(g, events, b.chainId);
            && (r.ok <==> after.Some?)
            && (r.ok ==> Guards(after.value, r.view))
  {
    hide ValidEvent, AfterEvent, Guards, Admissible, Advance;
    if events != [] {
      var n := |events| - 1;
      EventsAdmitted(policies, v, events[..n], b, g);
      var before := AfterEvents(policies, v, events[..n], b);
      if before.ok {
        EventAdmitted(policies, before.view, events[n], b, n, AfterAdmitted(g, events[..n], b.chainId).value);
      }
    }
  }

  lemma BlockAdmitted(policies: Policies, v: View, b: Block, g: Guard)
    requires Guards(g, v) && ValidBlock(b)
    ensures var r, after := AfterBlock(policies, v, b), AfterAdmitted(g, b.events, b.chainId);
            && (r.ok <==> after.Some?)
            && (r.ok ==> Guards(after.value, r.view))
  {
    hide ValidEvent, AfterEvents, AfterAdmitted;
    EventsAdmitted(policies, WithPrices(policies, v, b), b.events, b, g);
  }

  lemma NothingGuarded()
    ensures Guards(EmptyGuard(), EMPTY_VIEW)
  {
  }

  /** Main result: a chain of valid blocks replays without a throw exactly when the guard admits it, whatever the
      price policies and prices are. */
  lemma {:induction false} ReplaysIff(policies: Policies, blocks: seq<Block>)
    requires forall b :: b in blocks ==> ValidBlock(b)
    ensures Replay(policies, blocks).ok <==> Admitted(blocks)
    ensures Admitted(blocks) ==> Guards(GuardOf(blocks).value, Replay(policies, blocks).view)
  {
    hide ValidBlock, AfterBlock, Guards, AfterAdmitted;
    if blocks == [] {
      NothingGuarded();
    } else {
      var init, b := blocks[..|blocks| - 1], blocks[|blocks| - 1];
      assert blocks == init + [b];
      ReplaysIff(policies, init);
      if Admitted(init) {
        BlockAdmitted(policies, Replay(policies, init).view, b, GuardOf(init).value);
      }
    }
  }

  lemma {:induction false} ChainBlocksValid(blocks: seq<Block>)
    requires CanonicalChain(blocks)
    ensures forall b :: b in blocks ==> ValidBlock(b)
  {
    hide ValidBlock, ContextOf, Canonicalize;
    if blocks != [] {
      var init, last := blocks[..|blocks| - 1], blocks[|blocks| - 1];
      ChainBlocksValid(init);
      assert blocks == init + [last];
    }
  }

  lemma CanonicalReplaysIff(policies: Policies, blocks: seq<Block>)
    requires CanonicalChain(blocks)
    ensures Replay(policies, blocks).ok <==> Admitted(blocks)
  {
    hide CanonicalChain, Replay, Admitted, ValidBlock;
    ChainBlocksValid(blocks);
    ReplaysIff(policies, blocks);
  }

  /** Prices decide nothing about whether a chain replays, as decimals are at most 255. */
  lemma PricesDoNotDecide(policies: Policies, others: Policies, blocks: seq<Block>)
    requires forall b :: b in blocks ==> ValidBlock(b)
    ensures Replay(policies, blocks).ok <==> Replay(others, blocks).ok
  {
    ReplaysIff(policies, blocks);
    ReplaysIff(others, blocks);
  }
}
