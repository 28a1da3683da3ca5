/** Swap flow rows of one pair: the time-sorted index, its window sums, and the rounding of split fees. */
module Flows {
  import opened Domain
  import opened Fixed

  /** A valuation: the total when every needed price is known, and the tokens whose price is not. */
  datatype Valued = Valued(total: Option<int>, missing: set<Id>)

  function ValueAmounts(ident: PairIdentity, amountX: int, amountY: int,
                        priceX: Option<int>, priceY: Option<int>): Valued
  {
    var missing := (if priceX.None? && amountX != 0 then {ident.tokenX} else {})
                   + (if priceY.None? && amountY != 0 then {ident.tokenY} else {});
    if missing != {} then Valued(None, missing)
    else Valued(Some(TokenAmountToUsd(amountX, ident.decimalsX, priceX.GetOr(0))
                     + TokenAmountToUsd(amountY, ident.decimalsY, priceY.GetOr(0))), {})
  }

  datatype FlowRow = FlowRow(timestamp: int, volume: Option<int>, totalFees: Option<int>,
                             protocolFees: Option<int>, lpFees: Option<int>, missing: set<Id>)

  /** Sums over swaps. An unpriced value raises its `miss` flag and adds nothing. */
  datatype Stats = Stats(swaps: nat, volume: int, totalFees: int, protocolFees: int, lpFees: int,
                         missVolume: bool, missTotal: bool, missProtocol: bool, missLp: bool)

  const ZERO := Stats(0, 0, 0, 0, 0, false, false, false, false)

  function Plus(a: Stats, b: Stats): Stats {
    Stats(a.swaps + b.swaps, a.volume + b.volume, a.totalFees + b.totalFees,
          a.protocolFees + b.protocolFees, a.lpFees + b.lpFees,
          a.missVolume || b.missVolume, a.missTotal || b.missTotal,
          a.missProtocol || b.missProtocol, a.missLp || b.missLp)
  }

  function RowStats(r: FlowRow): Stats {
    Stats(1, r.volume.GetOr(0), r.totalFees.GetOr(0), r.protocolFees.GetOr(0), r.lpFees.GetOr(0),
          r.volume.None?, r.totalFees.None?, r.protocolFees.None?, r.lpFees.None?)
  }

  /** The sum of the rows with `from <= timestamp < to`. */
  function Total(rows: seq<FlowRow>, from: int, to: int): Stats {
    if rows == [] then ZERO
    else Plus(Total(rows[..|rows| - 1], from, to), Share(rows[|rows| - 1], from, to))
  }

  /** What a row adds to a window. */
  function Share(row: FlowRow, from: int, to: int): Stats {
    if from <= row.timestamp < to then RowStats(row) else ZERO
  }

  function InsertFlow(rows: seq<FlowRow>, row: FlowRow): seq<FlowRow> {
    if rows == [] || rows[|rows| - 1].timestamp <= row.timestamp then rows + [row]
    else InsertFlow(rows[..|rows| - 1], row) + [rows[|rows| - 1]]
  }

  ghost predicate SortedByTime(rows: seq<FlowRow>) {
    forall i, j :: 0 <= i < j < |rows| ==> rows[i].timestamp <= rows[j].timestamp
  }

  lemma {:induction false} InsertFlowAt(rows: seq<FlowRow>, row: FlowRow, at: nat)
    requires at <= |rows|
    requires at > 0 ==> rows[at - 1].timestamp <= row.timestamp
    requires forall i :: at <= i < |rows| ==> rows[i].timestamp > row.timestamp
    ensures InsertFlow(rows, row) == rows[..at] + [row] + rows[at..]
  {
    if at < |rows| {
      var init := rows[..|rows| - 1];
      InsertFlowAt(init, row, at);
      assert rows[..at] + [row] + rows[at..] == init[..at] + [row] + init[at..] + [rows[|rows| - 1]];
    } else {
      assert rows[..at] + [row] + rows[at..] == rows + [row];
    }
  }

  lemma {:induction false} InsertFlowSorted(rows: seq<FlowRow>, row: FlowRow)
    requires SortedByTime(rows)
    ensures SortedByTime(InsertFlow(rows, row))
    ensures |InsertFlow(rows, row)| == |rows| + 1
    ensures InsertFlow(rows, row)[|rows|]
            == if rows == [] || rows[|rows| - 1].timestamp <= row.timestamp then row else rows[|rows| - 1]
  {
    if rows != [] && rows[|rows| - 1].timestamp > row.timestamp {
      InsertFlowSorted(rows[..|rows| - 1], row);
    }
  }

  /** Whatever the order of arrival, a window sum grows by exactly the inserted row. */
  lemma {:induction false} InsertFlowTotal(rows: seq<FlowRow>, row: FlowRow, from: int, to: int)
    ensures Total(InsertFlow(rows, row), from, to) == Plus(Total(rows, from, to), Share(row, from, to))
  {
    var r := InsertFlow(rows, row);
    if rows == [] || rows[|rows| - 1].timestamp <= row.timestamp {
      assert r[..|r| - 1] == rows;
    } else {
      var init := rows[..|rows| - 1];
      InsertFlowTotal(init, row, from, to);
      assert r[..|r| - 1] == InsertFlow(init, row);
      PlusRegroups(Total(init, from, to), Share(row, from, to), Share(rows[|rows| - 1], from, to));
    }
  }

  /** Sums over adjacent windows add up. */
  lemma {:induction false} TotalSplits(rows: seq<FlowRow>, from: int, middle: int, to: int)
    requires from <= middle <= to
    ensures Total(rows, from, to) == Plus(Total(rows, from, middle), Total(rows, middle, to))
  {
    if rows == [] {
      PlusZero(ZERO);
    } else {
      var init, last := rows[..|rows| - 1], rows[|rows| - 1];
      TotalSplits(init, from, middle, to);
      ShareSplits(last, from, middle, to);
      TotalSplitsStep(Total(init, from, middle), Total(init, middle, to), Total(init, from, to),
                      Share(last, from, middle), Share(last, middle, to), Share(last, from, to));
    }
  }

  lemma TotalSplitsStep(a: Stats, b: Stats, ab: Stats, c: Stats, d: Stats, cd: Stats)
    requires ab == Plus(a, b) && cd == Plus(c, d)
    ensures Plus(ab, cd) == Plus(Plus(a, c), Plus(b, d))
  {
  }

  lemma ShareSplits(row: FlowRow, from: int, middle: int, to: int)
    requires from <= middle <= to
    ensures Share(row, from, to) == Plus(Share(row, from, middle), Share(row, middle, to))
  {
    if from <= row.timestamp < middle {
      ShareInside(row, from, middle);
      ShareOutside(row, middle, to);
      ShareInside(row, from, to);
      PlusZero(RowStats(row));
    } else if middle <= row.timestamp < to {
      ShareOutside(row, from, middle);
      ShareInside(row, middle, to);
      ShareInside(row, from, to);
      PlusZero(RowStats(row));
    } else {
      ShareOutside(row, from, middle);
      ShareOutside(row, middle, to);
      ShareOutside(row, from, to);
      PlusZero(ZERO);
    }
  }

  lemma ShareInside(row: FlowRow, from: int, to: int)
    requires from <= row.timestamp < to
    ensures Share(row, from, to) == RowStats(row)
  {
  }

  lemma ShareOutside(row: FlowRow, from: int, to: int)
    requires !(from <= row.timestamp < to)
    ensures Share(row, from, to) == ZERO
  {
  }

  lemma PlusZero(a: Stats)
    ensures Plus(ZERO, a) == a == Plus(a, ZERO)
  {
  }

  lemma PlusRegroups(a: Stats, b: Stats, c: Stats)
    ensures Plus(Plus(a, b), c) == Plus(Plus(a, c), b) == Plus(a, Plus(b, c))
  {
  }

  ghost predicate Selects(rows: seq<FlowRow>, a: nat, b: nat, from: int, to: int) {
    && a <= b <= |rows|
    && forall i :: 0 <= i < |rows| ==> (from <= rows[i].timestamp < to <==> a <= i < b)
  }

  /** A window that selects the slice `[a, b)` sums exactly that slice. */
  lemma {:induction false} TotalOfSlice(rows: seq<FlowRow>, a: nat, b: nat, from: int, to: int)
    requires Selects(rows, a, b, from, to)
    ensures Total(rows, from, to) == TotalOf(rows[a..b])
    decreases |rows|
  {
    if a == b {
      TotalOfNone(rows, from, to);
    } else if b < |rows| {
      var init := rows[..|rows| - 1];
      TotalOfSlice(init, a, b, from, to);
      assert init[a..b] == rows[a..b];
      TotalOutside(rows, from, to);
    } else {
      TotalOfSlice(rows[..|rows| - 1], a, b - 1, from, to);
      SliceLast(rows, a);
      assert rows[a..b] == rows[a..];
      TotalInside(rows, from, to);
    }
  }

  lemma TotalOutside(rows: seq<FlowRow>, from: int, to: int)
    requires rows != [] && !(from <= rows[|rows| - 1].timestamp < to)
    ensures Total(rows, from, to) == Total(rows[..|rows| - 1], from, to)
  {
    ShareOutside(rows[|rows| - 1], from, to);
    PlusZero(Total(rows[..|rows| - 1], from, to));
  }

  lemma TotalInside(rows: seq<FlowRow>, from: int, to: int)
    requires rows != [] && from <= rows[|rows| - 1].timestamp < to
    ensures Total(rows, from, to) == Plus(Total(rows[..|rows| - 1], from, to), RowStats(rows[|rows| - 1]))
  {
    ShareInside(rows[|rows| - 1], from, to);
  }

  lemma SliceLast(rows: seq<FlowRow>, a: nat)
    requires a < |rows|
    ensures TotalOf(rows[a..])
            == Plus(TotalOf(rows[..|rows| - 1][a..|rows| - 1]), RowStats(rows[|rows| - 1]))
  {
    var slice := rows[a..];
    assert slice[..|slice| - 1] == rows[..|rows| - 1][a..|rows| - 1];
  }

  lemma {:induction false} TotalOfNone(rows: seq<FlowRow>, from: int, to: int)
    requires forall i :: 0 <= i < |rows| ==> !(from <= rows[i].timestamp < to)
    ensures Total(rows, from, to) == ZERO
  {
    if rows != [] {
      TotalOfNone(rows[..|rows| - 1], from, to);
      ShareOutside(rows[|rows| - 1], from, to);
      PlusZero(ZERO);
    }
  }

  /** The sum of all rows. */
  function TotalOf(rows: seq<FlowRow>): Stats {
    if rows == [] then ZERO else Plus(TotalOf(rows[..|rows| - 1]), RowStats(rows[|rows| - 1]))
  }

  /** A row's fees either are incomplete, or lose between nothing and one unit per token to rounding. */
  ghost predicate FeesSplitWell(r: FlowRow) {
    r.totalFees.Some? && r.protocolFees.Some? && r.lpFees.Some? ==>
      0 <= r.totalFees.value - r.protocolFees.value - r.lpFees.value <= 2
  }

  ghost predicate AllSplitWell(rows: seq<FlowRow>) {
    forall i :: 0 <= i < |rows| ==> FeesSplitWell(rows[i])
  }

  lemma {:induction false} InsertFlowKeepsSplit(rows: seq<FlowRow>, row: FlowRow)
    requires AllSplitWell(rows) && FeesSplitWell(row)
    ensures AllSplitWell(InsertFlow(rows, row))
  {
    if rows != [] && rows[|rows| - 1].timestamp > row.timestamp {
      InsertFlowKeepsSplit(rows[..|rows| - 1], row);
    }
  }

  /** Over any window without missing fee values, the total fees exceed protocol plus LP-net fees by
      at least nothing and at most two units per swap. */
  lemma {:induction false} WindowRoundingLoss(rows: seq<FlowRow>, from: int, to: int)
    requires AllSplitWell(rows)
    ensures var s := Total(rows, from, to);
            !s.missTotal && !s.missProtocol && !s.missLp ==>
              0 <= s.totalFees - s.protocolFees - s.lpFees <= 2 * s.swaps
  {
    if rows != [] {
      WindowRoundingLoss(rows[..|rows| - 1], from, to);
      assert FeesSplitWell(rows[|rows| - 1]);
    }
  }

  /** The row of a swap whose protocol share is within its fees satisfies the rounding bound. */
  lemma SwapRowSplitsWell(ident: PairIdentity, feeX: int, feeY: int, shareX: int, shareY: int,
                          priceX: Option<int>, priceY: Option<int>)
    requires 0 <= shareX <= feeX && 0 <= shareY <= feeY
    requires priceX.Some? ==> priceX.value >= 0
    requires priceY.Some? ==> priceY.value >= 0
    ensures var total := ValueAmounts(ident, feeX, feeY, priceX, priceY).total;
            var protocol := ValueAmounts(ident, shareX, shareY, priceX, priceY).total;
            var lp := ValueAmounts(ident, feeX - shareX, feeY - shareY, priceX, priceY).total;
            && (total.Some? ==> protocol.Some? && lp.Some?)
            && (total.Some? && protocol.Some? && lp.Some? ==>
                  0 <= total.value - protocol.value - lp.value <= 2)
  {
    SplitValuationLoss(feeX, shareX, ident.decimalsX, priceX.GetOr(0));
    SplitValuationLoss(feeY, shareY, ident.decimalsY, priceY.GetOr(0));
  }

  method UpperBoundFlowTimestamp(rows: seq<FlowRow>, t: int) returns (low: nat)
    requires SortedByTime(rows)
    ensures low <= |rows|
    ensures forall i :: 0 <= i < low ==> rows[i].timestamp <= t
    ensures forall i :: low <= i < |rows| ==> rows[i].timestamp > t
  {
    low := 0;
    var high := |rows|;
    while low < high
      invariant low <= high <= |rows|
      invariant forall i :: 0 <= i < low ==> rows[i].timestamp <= t
      invariant forall i :: high <= i < |rows| ==> rows[i].timestamp > t
    {
      var middle := (low + high) / 2;
      if rows[middle].timestamp <= t {
        low := middle + 1;
      } else {
        high := middle;
      }
    }
  }

  method InsertFlowRow(rows: seq<FlowRow>, row: FlowRow) returns (r: seq<FlowRow>)
    requires SortedByTime(rows)
    ensures r == InsertFlow(rows, row)
    ensures SortedByTime(r)
  {
    InsertFlowSorted(rows, row);
    if rows == [] || rows[|rows| - 1].timestamp <= row.timestamp {
      r := rows + [row];
    } else {
      var at := UpperBoundFlowTimestamp(rows, row.timestamp);
      InsertFlowAt(rows, row, at);
      r := rows[..at] + [row] + rows[at..];
    }
  }

  lemma WindowOrdered(rows: seq<FlowRow>, cutoff: int, asOf: int, first: nat, after: nat)
    requires first <= |rows| && after <= |rows| && cutoff <= asOf
    requires forall i :: 0 <= i < first ==> rows[i].timestamp <= cutoff
    requires forall i :: first <= i < |rows| ==> rows[i].timestamp > cutoff
    requires forall i :: 0 <= i < after ==> rows[i].timestamp <= asOf
    requires forall i :: after <= i < |rows| ==> rows[i].timestamp > asOf
    ensures Selects(rows, first, after, cutoff + 1, asOf + 1)
  {
    var k := if after < first then after else 0;
    assert k < first ==> rows[k].timestamp <= cutoff;
  }

  const DAY_SECONDS := 86_400

  /** Sums the rows of the day before `asOf`, located by two binary searches. */
  method DayTotals(rows: seq<FlowRow>, asOf: int) returns (s: Stats)
    requires SortedByTime(rows)
    ensures s == Total(rows, asOf - DAY_SECONDS + 1, asOf + 1)
  {
    var cutoff := asOf - DAY_SECONDS;
    var firstFlow := UpperBoundFlowTimestamp(rows, cutoff);
    var afterLastFlow := UpperBoundFlowTimestamp(rows, asOf);
    WindowOrdered(rows, cutoff, asOf, firstFlow, afterLastFlow);
    assert firstFlow <= afterLastFlow;
    s := ZERO;
    var index := firstFlow;
    while index < afterLastFlow
      invariant firstFlow <= index <= afterLastFlow
      invariant s == TotalOf(rows[firstFlow..index])
    {
      s := Plus(s, RowStats(rows[index]));
      assert rows[firstFlow..index + 1] == rows[firstFlow..index] + [rows[index]];
      index := index + 1;
    }
    TotalOfSlice(rows, firstFlow, afterLastFlow, cutoff + 1, asOf + 1);
  }
}
