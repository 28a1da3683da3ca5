/** Per-owner positions: liquidity and cost basis by bin, moved by deposits, withdrawals, transfers and
    snapshots. Basis leaves a bin in proportion to liquidity, rounded toward zero. */
module Ledger {
  import opened Domain
  import opened Fixed
  import opened Flows

  datatype PositionBin = PositionBin(liquidity: int, costBasis: Option<int>, currentValue: Option<int>,
                                     realized: Option<int>, historyMissing: set<Id>, currentMissing: set<Id>,
                                     amountX: Option<int>, amountY: Option<int>,
                                     snapshotBlock: Option<int>, snapshotTimestamp: Option<int>)

  datatype Position = Position(ident: PairIdentity, bins: map<BinKey, PositionBin>)

  datatype Holder = Holder(owner: Id, pair: Id)

  type Positions = map<Holder, Position>

  /** Positions after a step, what the step recorded as partial, and whether it returned normally. */
  datatype Moved = Moved(positions: Positions, tokens: set<Id>, forced: bool, ok: bool)

  function NewBin(costBasis: Option<int>): PositionBin {
    PositionBin(0, costBasis, None, Some(0), {}, {}, None, None, None, None)
  }

  function WithPosition(positions: Positions, h: Holder, ident: PairIdentity): (r: Positions)
    ensures h in r
  {
    if h in positions then positions else positions[h := Position(ident, map[])]
  }

  function PutBin(positions: Positions, h: Holder, key: BinKey, bin: PositionBin): (r: Positions)
    requires h in positions
    ensures h in r && key in r[h].bins && r[h].bins[key] == bin
  {
    positions[h := positions[h].(bins := positions[h].bins[key := bin])]
  }

  function BinOr(positions: Positions, h: Holder, key: BinKey, costBasis: Option<int>): PositionBin {
    if h in positions && key in positions[h].bins then positions[h].bins[key] else NewBin(costBasis)
  }

  /** A bin whose current valuation no longer applies. */
  function Stale(bin: PositionBin): PositionBin {
    bin.(currentValue := None, currentMissing := {}, amountX := None, amountY := None,
         snapshotBlock := None, snapshotTimestamp := None)
  }

  /** The share of the basis that goes with `removed` of the bin's liquidity. */
  function Allocated(bin: PositionBin, removed: int): Option<int> {
    if bin.costBasis.None? || bin.liquidity == 0 then None
    else Some(TruncDiv(bin.costBasis.value * removed, bin.liquidity))
  }

  function Absolute(n: int): int {
    if n < 0 then -n else n
  }

  function Deposited(bin: PositionBin, delta: int, value: Option<int>): PositionBin {
    bin.(liquidity := bin.liquidity + delta, costBasis := AddNullable(bin.costBasis, value))
  }

  function Withdrawn(bin: PositionBin, removed: int, value: Option<int>): PositionBin {
    var share := Allocated(bin, removed);
    var left := bin.liquidity - removed;
    bin.(liquidity := left,
         costBasis := SubtractNullable(bin.costBasis, share),
         realized := AddNullable(bin.realized, SubtractNullable(value, share)),
         currentValue := if left == 0 then Some(0) else bin.currentValue)
  }

  function SentOut(bin: PositionBin, liquidity: int): PositionBin {
    Stale(bin.(liquidity := bin.liquidity - liquidity,
               costBasis := SubtractNullable(bin.costBasis, Allocated(bin, liquidity))))
  }

  function Received(bin: PositionBin, liquidity: int, basis: Option<int>, history: set<Id>): PositionBin {
    Stale(bin.(liquidity := bin.liquidity + liquidity, costBasis := AddNullable(bin.costBasis, basis)))
      .(historyMissing := bin.historyMissing + history)
  }

  /** One bin of a deposit or withdrawal. */
  function Changed(positions: Positions, h: Holder, deposit: bool, change: BinChange, value: Valued): Moved
    requires h in positions
  {
    var found := BinOr(positions, h, change.bin, Some(0));
    var bin := Stale(found.(historyMissing := found.historyMissing + value.missing));
    var started := PutBin(positions, h, change.bin, bin);
    if deposit then
      if change.liquidityDelta < 0 then Moved(started, value.missing, false, false)
      else Moved(PutBin(positions, h, change.bin, Deposited(bin, change.liquidityDelta, value.total)),
                 value.missing, false, true)
    else
      var removed := Absolute(change.liquidityDelta);
      if removed > bin.liquidity then Moved(started, value.missing, false, false)
      else Moved(PutBin(positions, h, change.bin, Withdrawn(bin, removed, value.total)), value.missing, false, true)
  }

  /** One bin of a transfer. When an owner transfers to itself both sides are the same bin. */
  function Transferred(positions: Positions, from: Holder, to: Holder, transfer: BinTransfer): Moved
    requires from in positions && to in positions
  {
    if transfer.liquidity < 0 then Moved(positions, {}, false, false)
    else
      var key := transfer.bin;
      var sender := PutBin(positions, from, key, BinOr(positions, from, key, None));
      var started := PutBin(sender, to, key, BinOr(sender, to, key, Some(0)));
      var source := started[from].bins[key];
      if transfer.liquidity > source.liquidity then Moved(started, {}, false, false)
      else
        var basis := Allocated(source, transfer.liquidity);
        var sent := PutBin(started, from, key, SentOut(source, transfer.liquidity));
        var target := sent[to].bins[key];
        Moved(PutBin(sent, to, key, Received(target, transfer.liquidity, basis, sent[from].bins[key].historyMissing)),
              {}, basis.None?, true)
  }

  /** Ledger operations at the grain of one bin; an event is a run of them. */
  datatype Op =
    | Change(holder: Holder, ident: PairIdentity, deposit: bool, change: BinChange, value: Valued)
    | Transfer(from: Holder, to: Holder, ident: PairIdentity, transfer: BinTransfer)

  function Perform(positions: Positions, op: Op): Moved {
    match op
    case Change(h, ident, deposit, change, value) =>
      Changed(WithPosition(positions, h, ident), h, deposit, change, value)
    case Transfer(from, to, ident, transfer) =>
      Transferred(WithPosition(WithPosition(positions, from, ident), to, ident), from, to, transfer)
  }

  /** Runs operations until one throws. */
  function PerformAll(positions: Positions, ops: seq<Op>): Moved {
    if ops == [] then Moved(positions, {}, false, true)
    else
      var before := PerformAll(positions, ops[..|ops| - 1]);
      if !before.ok then before
      else
        var step := Perform(before.positions, ops[|ops| - 1]);
        Moved(step.positions, before.tokens + step.tokens, before.forced || step.forced, step.ok)
  }

  // Sums over owners

  ghost function SumOver(owners: set<Id>, f: Id -> int): int {
    if owners == {} then 0
    else
      var x :| x in owners;
      f(x) + SumOver(owners - {x}, f)
  }

  lemma {:induction false} SumPick(owners: set<Id>, f: Id -> int, x: Id)
    requires x in owners
    ensures SumOver(owners, f) == f(x) + SumOver(owners - {x}, f)
    decreases |owners|
  {
    var y :| y in owners && SumOver(owners, f) == f(y) + SumOver(owners - {y}, f);
    if y != x {
      SumPick(owners - {y}, f, x);
      SumPick(owners - {x}, f, y);
      assert owners - {y} - {x} == owners - {x} - {y};
    }
  }

  lemma {:induction false} SumSame(owners: set<Id>, f: Id -> int, g: Id -> int)
    requires forall x :: x in owners ==> f(x) == g(x)
    ensures SumOver(owners, f) == SumOver(owners, g)
    decreases |owners|
  {
    if owners != {} {
      var x :| x in owners;
      SumPick(owners, f, x);
      SumPick(owners, g, x);
      SumSame(owners - {x}, f, g);
    }
  }

  /** Changing one owner's amount changes the sum by the difference; a new owner counts from zero. */
  lemma SumChange(owners: set<Id>, f: Id -> int, g: Id -> int, x: Id)
    requires forall y :: y != x ==> f(y) == g(y)
    requires x !in owners ==> f(x) == 0
    ensures SumOver(owners + {x}, g) == SumOver(owners, f) - f(x) + g(x)
  {
    SumPick(owners + {x}, g, x);
    SumSame(owners - {x}, f, g);
    assert owners + {x} - {x} == owners - {x};
    if x in owners {
      SumPick(owners, f, x);
    } else {
      assert owners - {x} == owners;
    }
  }

  // Events

  /** A deposit or withdrawal event as one operation per bin. */
  function LiquidityOps(h: Holder, ident: PairIdentity, deposit: bool, changes: seq<BinChange>,
                        priceX: Option<int>, priceY: Option<int>): (ops: seq<Op>)
    ensures |ops| == |changes|
  {
    if changes == [] then []
    else
      var c := changes[|changes| - 1];
      LiquidityOps(h, ident, deposit, changes[..|changes| - 1], priceX, priceY)
      + [Change(h, ident, deposit, c, ValueAmounts(ident, c.amountX, c.amountY, priceX, priceY))]
  }

  function TransferOps(from: Holder, to: Holder, ident: PairIdentity, transfers: seq<BinTransfer>): (ops: seq<Op>)
    ensures |ops| == |transfers|
  {
    if transfers == [] then []
    else TransferOps(from, to, ident, transfers[..|transfers| - 1])
         + [Transfer(from, to, ident, transfers[|transfers| - 1])]
  }

  lemma {:induction false} HolderKept(positions: Positions, ops: seq<Op>, h: Holder)
    requires h in positions
    ensures h in PerformAll(positions, ops).positions
  {
    if ops != [] {
      HolderKept(positions, ops[..|ops| - 1], h);
    }
  }

  /** Applies a deposit or withdrawal bin by bin, stopping where the code throws. */
  method ApplyLiquidity(positions: Positions, h: Holder, ident: PairIdentity, deposit: bool, changes: seq<BinChange>,
                        priceX: Option<int>, priceY: Option<int>) returns (m: Moved)
    ensures m == PerformAll(WithPosition(positions, h, ident),
                            LiquidityOps(h, ident, deposit, changes, priceX, priceY))
  {
    m := Moved(WithPosition(positions, h, ident), {}, false, true);
    ghost var ops := LiquidityOps(h, ident, deposit, changes, priceX, priceY);
    var i := 0;
    while i < |changes|
      invariant i <= |changes| && h in m.positions && m.ok
      invariant m == PerformAll(WithPosition(positions, h, ident),
                                LiquidityOps(h, ident, deposit, changes[..i], priceX, priceY))
    {
      var change := changes[i];
      var value := ValueAmounts(ident, change.amountX, change.amountY, priceX, priceY);
      LiquidityOpsStep(h, ident, deposit, changes, priceX, priceY, i);
      var step := ChangeBin(m.positions, h, deposit, change, value);
      PerformAllStep(WithPosition(positions, h, ident), LiquidityOps(h, ident, deposit, changes[..i], priceX, priceY),
                     Change(h, ident, deposit, change, value));
      m := Moved(step.positions, m.tokens + step.tokens, m.forced || step.forced, step.ok);
      i := i + 1;
      if !m.ok {
        StoppedRun(WithPosition(positions, h, ident), h, ident, deposit, changes, priceX, priceY, i);
        return;
      }
    }
    assert changes[..i] == changes;
  }

  lemma LiquidityOpsStep(h: Holder, ident: PairIdentity, deposit: bool, changes: seq<BinChange>,
                         priceX: Option<int>, priceY: Option<int>, i: nat)
    requires i < |changes|
    ensures LiquidityOps(h, ident, deposit, changes[..i + 1], priceX, priceY)
            == LiquidityOps(h, ident, deposit, changes[..i], priceX, priceY)
               + [Change(h, ident, deposit, changes[i],
                         ValueAmounts(ident, changes[i].amountX, changes[i].amountY, priceX, priceY))]
  {
    assert changes[..i + 1][..i] == changes[..i];
  }

  lemma PerformAllStep(positions: Positions, ops: seq<Op>, op: Op)
    ensures var before := PerformAll(positions, ops);
            PerformAll(positions, ops + [op])
            == if !before.ok then before
               else var step := Perform(before.positions, op);
                    Moved(step.positions, before.tokens + step.tokens, before.forced || step.forced, step.ok)
  {
    assert (ops + [op])[..|ops|] == ops;
  }

  lemma {:induction false} StoppedRun(start: Positions, h: Holder, ident: PairIdentity, deposit: bool,
                                      changes: seq<BinChange>, priceX: Option<int>, priceY: Option<int>, i: nat)
    requires i <= |changes|
    requires !PerformAll(start, LiquidityOps(h, ident, deposit, changes[..i], priceX, priceY)).ok
    ensures PerformAll(start, LiquidityOps(h, ident, deposit, changes, priceX, priceY))
            == PerformAll(start, LiquidityOps(h, ident, deposit, changes[..i], priceX, priceY))
    decreases |changes| - i
  {
    if i < |changes| {
      LiquidityOpsStep(h, ident, deposit, changes, priceX, priceY, i);
      PerformAllStep(start, LiquidityOps(h, ident, deposit, changes[..i], priceX, priceY),
                     Change(h, ident, deposit, changes[i],
                            ValueAmounts(ident, changes[i].amountX, changes[i].amountY, priceX, priceY)));
      StoppedRun(start, h, ident, deposit, changes, priceX, priceY, i + 1);
    } else {
      assert changes[..i] == changes;
    }
  }

  method ChangeBin(positions: Positions, h: Holder, deposit: bool, change: BinChange, value: Valued) returns (m: Moved)
    requires h in positions
    ensures m == Changed(positions, h, deposit, change, value)
    ensures h in m.positions
  {
    var bins := positions[h].bins;
    var bin := if change.bin in bins then bins[change.bin] else NewBin(Some(0));
    bin := bin.(historyMissing := bin.historyMissing + value.missing);
    bin := bin.(currentValue := None, currentMissing := {}, amountX := None, amountY := None,
                snapshotBlock := None, snapshotTimestamp := None);
    var stored := PutBin(positions, h, change.bin, bin);
    if deposit {
      if change.liquidityDelta < 0 {
        return Moved(stored, value.missing, false, false);
      }
      bin := bin.(liquidity := bin.liquidity + change.liquidityDelta,
                  costBasis := AddNullable(bin.costBasis, value.total));
      return Moved(PutBin(positions, h, change.bin, bin), value.missing, false, true);
    }
    var removed := Absolute(change.liquidityDelta);
    if removed > bin.liquidity {
      return Moved(stored, value.missing, false, false);
    }
    var basis: Option<int> := None;
    if bin.costBasis.Some? && bin.liquidity != 0 {
      basis := Some(TruncDiv(bin.costBasis.value * removed, bin.liquidity));
    }
    bin := bin.(liquidity := bin.liquidity - removed, costBasis := SubtractNullable(bin.costBasis, basis));
    bin := bin.(realized := AddNullable(bin.realized, SubtractNullable(value.total, basis)));
    if bin.liquidity == 0 {
      bin := bin.(currentValue := Some(0));
    }
    m := Moved(PutBin(positions, h, change.bin, bin), value.missing, false, true);
  }

  /** Applies a transfer bin by bin, stopping where the code throws. */
  method ApplyTransfer(positions: Positions, from: Holder, to: Holder, ident: PairIdentity,
                       transfers: seq<BinTransfer>) returns (m: Moved)
    ensures m == PerformAll(WithPosition(WithPosition(positions, from, ident), to, ident),
                            TransferOps(from, to, ident, transfers))
  {
    var start := WithPosition(WithPosition(positions, from, ident), to, ident);
    m := Moved(start, {}, false, true);
    var i := 0;
    while i < |transfers|
      invariant i <= |transfers| && m.ok && from in m.positions && to in m.positions
      invariant m == PerformAll(start, TransferOps(from, to, ident, transfers[..i]))
    {
      TransferOpsStep(from, to, ident, transfers, i);
      PerformAllStep(start, TransferOps(from, to, ident, transfers[..i]), Transfer(from, to, ident, transfers[i]));
      var step := Transferred(m.positions, from, to, transfers[i]);
      m := Moved(step.positions, m.tokens + step.tokens, m.forced || step.forced, step.ok);
      i := i + 1;
      if !m.ok {
        StoppedTransfers(start, from, to, ident, transfers, i);
        return;
      }
    }
    assert transfers[..i] == transfers;
  }

  lemma TransferOpsStep(from: Holder, to: Holder, ident: PairIdentity, transfers: seq<BinTransfer>, i: nat)
    requires i < |transfers|
    ensures TransferOps(from, to, ident, transfers[..i + 1])
            == TransferOps(from, to, ident, transfers[..i]) + [Transfer(from, to, ident, transfers[i])]
  {
    assert transfers[..i + 1][..i] == transfers[..i];
  }

  lemma {:induction false} StoppedTransfers(start: Positions, from: Holder, to: Holder, ident: PairIdentity,
                                            transfers: seq<BinTransfer>, i: nat)
    requires i <= |transfers|
    requires !PerformAll(start, TransferOps(from, to, ident, transfers[..i])).ok
    ensures PerformAll(start, TransferOps(from, to, ident, transfers))
            == PerformAll(start, TransferOps(from, to, ident, transfers[..i]))
    decreases |transfers| - i
  {
    if i < |transfers| {
      TransferOpsStep(from, to, ident, transfers, i);
      PerformAllStep(start, TransferOps(from, to, ident, transfers[..i]), Transfer(from, to, ident, transfers[i]));
      StoppedTransfers(start, from, to, ident, transfers, i + 1);
    } else {
      assert transfers[..i] == transfers;
    }
  }

  // Snapshots

  /** Bins of one position while a snapshot is applied. */
  datatype Snapped = Snapped(bins: map<BinKey, PositionBin>, tokens: set<Id>, forced: bool)

  function SnapBin(s: Snapped, v: BinValuation, value: Valued, block: int, timestamp: int): Snapped {
    var known := v.bin in s.bins;
    var bin := if known then s.bins[v.bin] else NewBin(None);
    var changed := known && bin.liquidity != v.liquidity;
    var snapped := PositionBin(v.liquidity, if changed then None else bin.costBasis, value.total, bin.realized,
                               bin.historyMissing, value.missing, Some(v.amountX), Some(v.amountY),
                               Some(block), Some(timestamp));
    Snapped(s.bins[v.bin := snapped], s.tokens + value.missing, s.forced || changed || !known)
  }

  function SnapAll(bins: map<BinKey, PositionBin>, ident: PairIdentity, valuations: seq<BinValuation>,
                   priceX: Option<int>, priceY: Option<int>, block: int, timestamp: int): Snapped
  {
    if valuations == [] then Snapped(bins, {}, false)
    else
      var v := valuations[|valuations| - 1];
      SnapBin(SnapAll(bins, ident, valuations[..|valuations| - 1], priceX, priceY, block, timestamp), v,
              ValueAmounts(ident, v.amountX, v.amountY, priceX, priceY), block, timestamp)
  }

  /** A bin that the snapshot does not list is empty as of the snapshot. */
  function Emptied(bin: PositionBin, block: int, timestamp: int): PositionBin {
    bin.(liquidity := 0, costBasis := if bin.liquidity > 0 then None else bin.costBasis, currentValue := Some(0),
         amountX := Some(0), amountY := Some(0), snapshotBlock := Some(block), snapshotTimestamp := Some(timestamp))
  }

  function Listed(valuations: seq<BinValuation>): set<BinKey> {
    set v | v in valuations :: v.bin
  }

  ghost predicate LosesLiquidity(bins: map<BinKey, PositionBin>, keys: set<BinKey>) {
    exists key :: key in keys && key in bins && bins[key].liquidity > 0
  }

  ghost function Swept(s: Snapped, seen: set<BinKey>, block: int, timestamp: int): Snapped {
    var gone := s.bins.Keys - seen;
    Snapped(WithEmptied(s.bins, gone, block, timestamp), s.tokens, s.forced || LosesLiquidity(s.bins, gone))
  }

  function WithEmptied(bins: map<BinKey, PositionBin>, keys: set<BinKey>, block: int, timestamp: int)
    : map<BinKey, PositionBin>
  {
    map key | key in bins :: if key in keys then Emptied(bins[key], block, timestamp) else bins[key]
  }

  lemma EmptyOneMore(bins: map<BinKey, PositionBin>, keys: set<BinKey>, key: BinKey, block: int, timestamp: int)
    requires key in bins && key !in keys
    ensures WithEmptied(bins, keys, block, timestamp)[key] == bins[key]
    ensures WithEmptied(bins, keys + {key}, block, timestamp)
            == WithEmptied(bins, keys, block, timestamp)[key := Emptied(bins[key], block, timestamp)]
  {
  }

  ghost function Snapshotted(positions: Positions, h: Holder, ident: PairIdentity, valuations: seq<BinValuation>,
                       priceX: Option<int>, priceY: Option<int>, block: int, timestamp: int): Moved
  {
    var started := WithPosition(positions, h, ident);
    var s := Swept(SnapAll(started[h].bins, ident, valuations, priceX, priceY, block, timestamp),
                   Listed(valuations), block, timestamp);
    Moved(started[h := started[h].(bins := s.bins)], s.tokens, s.forced, true)
  }

  /** Applies a position snapshot: first the listed bins, then every other bin of the position. */
  method ApplySnapshot(positions: Positions, h: Holder, ident: PairIdentity, valuations: seq<BinValuation>,
                       priceX: Option<int>, priceY: Option<int>, block: int, timestamp: int) returns (m: Moved)
    ensures m == Snapshotted(positions, h, ident, valuations, priceX, priceY, block, timestamp)
  {
    var started := WithPosition(positions, h, ident);
    var s, seen := SnapListed(started[h].bins, ident, valuations, priceX, priceY, block, timestamp);
    s := SweepUnlisted(s, seen, block, timestamp);
    m := Moved(started[h := started[h].(bins := s.bins)], s.tokens, s.forced, true);
  }

  method SnapListed(bins: map<BinKey, PositionBin>, ident: PairIdentity, valuations: seq<BinValuation>,
                    priceX: Option<int>, priceY: Option<int>, block: int, timestamp: int)
    returns (s: Snapped, seen: set<BinKey>)
    ensures s == SnapAll(bins, ident, valuations, priceX, priceY, block, timestamp)
    ensures seen == Listed(valuations)
  {
    s, seen := Snapped(bins, {}, false), {};
    var i := 0;
    while i < |valuations|
      invariant i <= |valuations|
      invariant seen == Listed(valuations[..i])
      invariant s == SnapAll(bins, ident, valuations[..i], priceX, priceY, block, timestamp)
    {
      var v := valuations[i];
      assert valuations[..i + 1] == valuations[..i] + [v];
      assert valuations[..i + 1][..i] == valuations[..i];
      seen := seen + {v.bin};
      s := SnapBin(s, v, ValueAmounts(ident, v.amountX, v.amountY, priceX, priceY), block, timestamp);
      i := i + 1;
    }
    assert valuations[..i] == valuations;
  }

  method SweepUnlisted(listed: Snapped, seen: set<BinKey>, block: int, timestamp: int) returns (s: Snapped)
    ensures s == Swept(listed, seen, block, timestamp)
  {
    s := listed;
    var gone := listed.bins.Keys - seen;
    var done: set<BinKey> := {};
    NothingSwept(listed, block, timestamp);
    while done != gone
      invariant done <= gone
      invariant s == EmptiedSoFar(listed, done, block, timestamp)
      decreases |gone - done|
    {
      var key :| key in gone - done;
      s := SweepOne(s, listed, key, done, block, timestamp);
      assert gone - (done + {key}) == gone - done - {key};
      done := done + {key};
    }
  }

  ghost function EmptiedSoFar(listed: Snapped, done: set<BinKey>, block: int, timestamp: int): Snapped {
    Snapped(WithEmptied(listed.bins, done, block, timestamp), listed.tokens,
            listed.forced || LosesLiquidity(listed.bins, done))
  }

  lemma NothingSwept(listed: Snapped, block: int, timestamp: int)
    ensures EmptiedSoFar(listed, {}, block, timestamp) == listed
  {
    assert WithEmptied(listed.bins, {}, block, timestamp) == listed.bins;
  }

  method SweepOne(s: Snapped, ghost listed: Snapped, key: BinKey, ghost done: set<BinKey>, block: int, timestamp: int)
    returns (r: Snapped)
    requires s == EmptiedSoFar(listed, done, block, timestamp)
    requires key in listed.bins && key !in done
    ensures r == EmptiedSoFar(listed, done + {key}, block, timestamp)
  {
    LosesMore(listed.bins, done, key);
    EmptyOneMore(listed.bins, done, key, block, timestamp);
    var bin := s.bins[key];
    r := Snapped(s.bins[key := Emptied(bin, block, timestamp)], s.tokens, s.forced || bin.liquidity > 0);
  }

  lemma LosesMore(bins: map<BinKey, PositionBin>, keys: set<BinKey>, key: BinKey)
    requires key in bins
    ensures LosesLiquidity(bins, keys + {key}) <==> LosesLiquidity(bins, keys) || bins[key].liquidity > 0
  {
    if LosesLiquidity(bins, keys) {
      var k :| k in keys && k in bins && bins[k].liquidity > 0;
      assert k in keys + {key};
    }
    if bins[key].liquidity > 0 {
      assert key in keys + {key};
    }
  }
}
