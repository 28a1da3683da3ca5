/** The bins of a full exit: parsed, checked, stripped of empty balances and sorted.
    Integers arrive as big integers, numbers or text. A repeated or oversized id and a malformed integer are refused;
    what is left lists the positive balances under increasing ids, whatever the order and spelling of the input. */
module FullExitBins {
  import opened Domain
  import opened Decimal

  const UINT24: nat := 16_777_215
  const MAX_SAFE: int := 9_007_199_254_740_991

  /** Integers arrive as big integers, as numbers, or as text. */
  datatype IntegerInput = Big(n: int) | Number(n: int) | Digits(text: string) | NotInteger

  function ParseNonNegative(v: IntegerInput): Option<nat> {
    match v
    case Big(n) => if n >= 0 then Some(n) else None
    case Number(n) => if 0 <= n <= MAX_SAFE then Some(n) else None
    case Digits(text) => if AllDigits(text) then Some(Parse(text)) else None
    case NotInteger => None
  }

  datatype BinInput = BinInput(id: IntegerInput, balance: IntegerInput)

  datatype Bin = Bin(id: nat, balance: nat)

  /** The bins kept so far and the ids seen, or `None` where the code throws. */
  datatype Scan = Scan(seen: set<nat>, kept: seq<Bin>)

  function ScanOne(s: Scan, item: BinInput, allowZero: bool): Option<Scan> {
    var id, balance := ParseNonNegative(item.id), ParseNonNegative(item.balance);
    if id.None? || id.value > UINT24 || id.value in s.seen || balance.None? then None
    else if balance.value == 0 then (if allowZero then Some(Scan(s.seen + {id.value}, s.kept)) else None)
    else Some(Scan(s.seen + {id.value}, s.kept + [Bin(id.value, balance.value)]))
  }

  function ScanAll(input: seq<BinInput>, allowZero: bool): Option<Scan> {
    if input == [] then Some(Scan({}, []))
    else
      var before := ScanAll(input[..|input| - 1], allowZero);
      if before.None? then None else ScanOne(before.value, input[|input| - 1], allowZero)
  }

  function InsertBin(sorted: seq<Bin>, b: Bin): seq<Bin> {
    if sorted == [] || sorted[|sorted| - 1].id <= b.id then sorted + [b]
    else InsertBin(sorted[..|sorted| - 1], b) + [sorted[|sorted| - 1]]
  }

  function SortBins(bins: seq<Bin>): seq<Bin> {
    if bins == [] then [] else InsertBin(SortBins(bins[..|bins| - 1]), bins[|bins| - 1])
  }

  function Normalize(input: seq<BinInput>, allowZero: bool): Option<seq<Bin>> {
    var s := ScanAll(input, allowZero);
    if s.None? then None else Some(SortBins(s.value.kept))
  }

  method NormalizeLiveBins(input: seq<BinInput>, allowZero: bool) returns (r: Option<seq<Bin>>)
    ensures r == Normalize(input, allowZero)
  {
    var seen: set<nat> := {};
    var bins: seq<Bin> := [];
    var i := 0;
    while i < |input|
      invariant i <= |input|
      invariant ScanAll(input[..i], allowZero) == Some(Scan(seen, bins))
    {
      var item := input[i];
      assert input[..i + 1][..i] == input[..i];
      i := i + 1;
      var next := ScanOne(Scan(seen, bins), item, allowZero);
      if next.None? {
        ScanStuck(input, allowZero, i);
        return None;
      }
      seen, bins := next.value.seen, next.value.kept;
    }
    assert input[..i] == input;
    r := Some(SortBins(bins));
  }

  lemma {:induction false} ScanStuck(input: seq<BinInput>, allowZero: bool, i: nat)
    requires i <= |input| && ScanAll(input[..i], allowZero).None?
    ensures ScanAll(input, allowZero).None?
    decreases |input| - i
  {
    if i < |input| {
      assert input[..i + 1][..i] == input[..i];
      ScanStuck(input, allowZero, i + 1);
    } else {
      assert input[..i] == input;
    }
  }

  // What normalization gives

  /** Positive balances under strictly increasing ids that fit 24 bits. */
  ghost predicate Normal(bins: seq<Bin>) {
    && (forall i, j :: 0 <= i < j < |bins| ==> bins[i].id < bins[j].id)
    && (forall b :: b in bins ==> b.id <= UINT24 && b.balance > 0)
  }

  ghost predicate Scanned(s: Scan) {
    && (forall b :: b in s.kept ==> b.id in s.seen && b.id <= UINT24 && b.balance > 0)
    && (forall i, j :: 0 <= i < j < |s.kept| ==> s.kept[i].id != s.kept[j].id)
  }

  lemma {:induction false} ScanAllScanned(input: seq<BinInput>, allowZero: bool)
    ensures ScanAll(input, allowZero).Some? ==> Scanned(ScanAll(input, allowZero).value)
  {
    if input != [] {
      ScanAllScanned(input[..|input| - 1], allowZero);
      if ScanAll(input, allowZero).Some? {
        ScanOneScanned(ScanAll(input[..|input| - 1], allowZero).value, input[|input| - 1], allowZero);
      }
    }
  }

  lemma ScanOneScanned(s: Scan, item: BinInput, allowZero: bool)
    requires Scanned(s) && ScanOne(s, item, allowZero).Some?
    ensures Scanned(ScanOne(s, item, allowZero).value)
  {
    hide ParseNonNegative;
    forall i | 0 <= i < |s.kept|
      ensures s.kept[i].id in s.seen
    {
      assert s.kept[i] in s.kept;
    }
  }

  ghost predicate Increasing(bins: seq<Bin>) {
    forall i, j :: 0 <= i < j < |bins| ==> bins[i].id < bins[j].id
  }

  lemma {:induction false} InsertBinMembers(sorted: seq<Bin>, b: Bin)
    ensures forall x :: x in InsertBin(sorted, b) <==> x in sorted || x == b
  {
    if sorted != [] && sorted[|sorted| - 1].id > b.id {
      var init, last := sorted[..|sorted| - 1], sorted[|sorted| - 1];
      assert sorted == init + [last];
      InsertBinMembers(init, b);
    }
  }

  lemma IncreasingParts(init: seq<Bin>, last: Bin)
    ensures Increasing(init + [last]) <==> Increasing(init) && forall x :: x in init ==> x.id < last.id
  {
    var bins := init + [last];
    assert bins[|init|] == last && forall k :: 0 <= k < |init| ==> bins[k] == init[k];
  }

  lemma {:induction false} InsertBinKeeps(sorted: seq<Bin>, b: Bin)
    ensures forall x :: x in InsertBin(sorted, b) <==> x in sorted || x == b
    ensures Increasing(sorted) && (forall x :: x in sorted ==> x.id != b.id) ==> Increasing(InsertBin(sorted, b))
  {
    hide Increasing;
    InsertBinMembers(sorted, b);
    if Increasing(sorted) && forall x :: x in sorted ==> x.id != b.id {
      IncreasingParts(sorted, b);
      if sorted != [] {
        var init, last := sorted[..|sorted| - 1], sorted[|sorted| - 1];
        assert sorted == init + [last];
        IncreasingParts(init, last);
        InsertBinKeeps(init, b);
        IncreasingParts(InsertBin(init, b), last);
      }
    }
  }

  lemma {:induction false} SortBinsKeeps(bins: seq<Bin>)
    requires forall i, j :: 0 <= i < j < |bins| ==> bins[i].id != bins[j].id
    ensures Increasing(SortBins(bins))
    ensures forall x :: x in SortBins(bins) <==> x in bins
  {
    if bins != [] {
      var init, last := bins[..|bins| - 1], bins[|bins| - 1];
      SortBinsKeeps(init);
      assert bins == init + [last];
      InsertBinKeeps(SortBins(init), last);
    }
  }

  /** The positive entries of the input, as (id, balance) pairs. */
  ghost predicate Lists(input: seq<BinInput>, b: Bin) {
    exists item :: item in input && ParseNonNegative(item.id) == Some(b.id)
                   && ParseNonNegative(item.balance) == Some(b.balance)
                   && b.balance > 0
  }

  lemma {:induction false} ScanKeepsPositive(input: seq<BinInput>, allowZero: bool, b: Bin)
    requires ScanAll(input, allowZero).Some?
    ensures b in ScanAll(input, allowZero).value.kept <==> Lists(input, b)
  {
    hide ParseNonNegative, ScanOne, Lists;
    if input == [] {
      ListsNothing(b);
    } else {
      var init, last := input[..|input| - 1], input[|input| - 1];
      ScanKeepsPositive(init, allowZero, b);
      assert input == init + [last];
      ListsGrows(init, last, b);
      ScanOneKeeps(ScanAll(init, allowZero).value, last, allowZero, b);
    }
  }

  lemma ListsNothing(b: Bin)
    ensures !Lists([], b)
  {
  }

  lemma ScanOneKeeps(s: Scan, item: BinInput, allowZero: bool, b: Bin)
    requires ScanOne(s, item, allowZero).Some?
    ensures b in ScanOne(s, item, allowZero).value.kept <==>
              b in s.kept
              || (ParseNonNegative(item.id) == Some(b.id) && ParseNonNegative(item.balance) == Some(b.balance)
                  && b.balance > 0)
  {
    hide ParseNonNegative;
  }

  lemma ListsGrows(init: seq<BinInput>, last: BinInput, b: Bin)
    ensures Lists(init + [last], b) <==>
              Lists(init, b)
              || (ParseNonNegative(last.id) == Some(b.id) && ParseNonNegative(last.balance) == Some(b.balance)
                  && b.balance > 0)
  {
    hide ParseNonNegative;
    if Lists(init, b) {
      var item :| item in init && ParseNonNegative(item.id) == Some(b.id)
                  && ParseNonNegative(item.balance) == Some(b.balance) && b.balance > 0;
      assert item in init + [last];
    }
    assert last in init + [last];
  }

  /** The normalized bins are exactly the positive entries, in order of id. */
  lemma NormalizeLists(input: seq<BinInput>, allowZero: bool)
    requires Normalize(input, allowZero).Some?
    ensures Normal(Normalize(input, allowZero).value)
    ensures forall b :: b in Normalize(input, allowZero).value <==> Lists(input, b)
  {
    hide Lists;
    ScanAllScanned(input, allowZero);
    SortBinsKeeps(ScanAll(input, allowZero).value.kept);
    forall b
      ensures b in Normalize(input, allowZero).value <==> Lists(input, b)
    {
      ScanKeepsPositive(input, allowZero, b);
    }
  }

  ghost predicate SameMembers(a: seq<Bin>, b: seq<Bin>) {
    (forall x :: x in a ==> x in b) && (forall x :: x in b ==> x in a)
  }

  lemma {:induction false} NormalUnique(a: seq<Bin>, b: seq<Bin>)
    requires Increasing(a) && Increasing(b) && SameMembers(a, b)
    ensures a == b
  {
    NonEmptyToo(a, b);
    NonEmptyToo(b, a);
    if a != [] {
      var la, lb := a[|a| - 1], b[|b| - 1];
      LastIsGreatest(a, lb);
      LastIsGreatest(b, la);
      assert la in b && lb in a;
      SameLast(a, b);
      WithoutSame(a, b);
      NormalUnique(a[..|a| - 1], b[..|b| - 1]);
      assert a == a[..|a| - 1] + [la] && b == b[..|b| - 1] + [lb];
    }
  }

  lemma NonEmptyToo(a: seq<Bin>, b: seq<Bin>)
    requires SameMembers(a, b)
    ensures a != [] ==> b != []
  {
    if a != [] {
      assert a[0] in b;
    }
  }

  lemma LastIsGreatest(a: seq<Bin>, x: Bin)
    requires Increasing(a) && a != []
    ensures x in a ==> x.id <= a[|a| - 1].id
  {
  }

  lemma SameLast(a: seq<Bin>, b: seq<Bin>)
    requires Increasing(a) && a != [] && b != []
    requires a[|a| - 1].id == b[|b| - 1].id && b[|b| - 1] in a
    ensures a[|a| - 1] == b[|b| - 1]
  {
  }

  lemma WithoutLast(a: seq<Bin>)
    requires Increasing(a) && a != []
    ensures Increasing(a[..|a| - 1])
    ensures forall x :: x in a[..|a| - 1] <==> x in a && x != a[|a| - 1]
  {
    assert a == a[..|a| - 1] + [a[|a| - 1]];
  }

  lemma WithoutSame(a: seq<Bin>, b: seq<Bin>)
    requires Increasing(a) && Increasing(b) && a != [] && b != [] && a[|a| - 1] == b[|b| - 1]
    requires SameMembers(a, b)
    ensures SameMembers(a[..|a| - 1], b[..|b| - 1])
    ensures Increasing(a[..|a| - 1]) && Increasing(b[..|b| - 1])
  {
    var init, other := a[..|a| - 1], b[..|b| - 1];
    WithoutLast(a);
    WithoutLast(b);
    forall x | x in init
      ensures x in other
    {
      assert x in a && x != a[|a| - 1];
    }
    forall x | x in other
      ensures x in init
    {
      assert x in b && x != b[|b| - 1];
    }
  }

  /** Neither the order of the entries nor empty balances nor the spelling of integers matters. */
  lemma NormalizeIgnoresOrder(a: seq<BinInput>, b: seq<BinInput>, zeroA: bool, zeroB: bool)
    requires Normalize(a, zeroA).Some? && Normalize(b, zeroB).Some?
    ensures Normalize(a, zeroA) == Normalize(b, zeroB) <==> forall x :: Lists(a, x) <==> Lists(b, x)
  {
    hide Normalize, Lists;
    NormalizeLists(a, zeroA);
    NormalizeLists(b, zeroB);
    if forall x :: Lists(a, x) <==> Lists(b, x) {
      NormalUnique(Normalize(a, zeroA).value, Normalize(b, zeroB).value);
    }
  }

  // Normal bins are fixed

  /** Bins as they would be passed in again. */
  function InputOf(bins: seq<Bin>): (r: seq<BinInput>)
    ensures |r| == |bins|
    ensures forall i :: 0 <= i < |bins| ==> r[i] == BinInput(Big(bins[i].id), Big(bins[i].balance))
  {
    seq(|bins|, i requires 0 <= i < |bins| => BinInput(Big(bins[i].id), Big(bins[i].balance)))
  }

  function TextOf(bins: seq<Bin>): (r: seq<BinInput>)
    ensures |r| == |bins|
    ensures forall i :: 0 <= i < |bins| ==> r[i] == BinInput(Digits(Print(bins[i].id)), Digits(Print(bins[i].balance)))
  {
    seq(|bins|, i requires 0 <= i < |bins| => BinInput(Digits(Print(bins[i].id)), Digits(Print(bins[i].balance))))
  }

  ghost predicate Reads(input: seq<BinInput>, bins: seq<Bin>) {
    && |input| == |bins|
    && forall i :: 0 <= i < |bins| ==>
         ParseNonNegative(input[i].id) == Some(bins[i].id) && ParseNonNegative(input[i].balance) == Some(bins[i].balance)
  }

  lemma {:induction false} ScanReads(input: seq<BinInput>, bins: seq<Bin>, allowZero: bool)
    requires Reads(input, bins) && Normal(bins)
    ensures ScanAll(input, allowZero) == Some(Scan(set b | b in bins :: b.id, bins))
  {
    hide ParseNonNegative;
    if bins != [] {
      var init := bins[..|bins| - 1];
      FreshId(bins);
      ScanReads(input[..|input| - 1], init, allowZero);
    } else {
      assert (set b | b in bins :: b.id) == {};
    }
  }

  lemma FreshId(bins: seq<Bin>)
    requires Normal(bins) && bins != []
    ensures var init, last := bins[..|bins| - 1], bins[|bins| - 1];
            && Normal(init) && bins == init + [last] && last.balance > 0 && last.id <= UINT24
            && last.id !in (set b | b in init :: b.id)
            && (set b | b in bins :: b.id) == (set b | b in init :: b.id) + {last.id}
  {
    var init, last := bins[..|bins| - 1], bins[|bins| - 1];
    assert bins == init + [last];
    assert last in bins;
  }

  lemma {:induction false} SortFixed(bins: seq<Bin>)
    requires Increasing(bins)
    ensures SortBins(bins) == bins
  {
    if bins != [] {
      SortFixed(bins[..|bins| - 1]);
      assert bins == bins[..|bins| - 1] + [bins[|bins| - 1]];
    }
  }

  /** Normal bins survive normalization, whether passed as integers or as decimal text. */
  lemma NormalFixed(input: seq<BinInput>, bins: seq<Bin>, allowZero: bool)
    requires Reads(input, bins) && Normal(bins)
    ensures Normalize(input, allowZero) == Some(bins)
  {
    ScanReads(input, bins, allowZero);
    SortFixed(bins);
  }

  lemma ReadsBack(bins: seq<Bin>)
    ensures Reads(InputOf(bins), bins) && Reads(TextOf(bins), bins)
  {
    forall i | 0 <= i < |bins|
      ensures ParseNonNegative(TextOf(bins)[i].id) == Some(bins[i].id)
      ensures ParseNonNegative(TextOf(bins)[i].balance) == Some(bins[i].balance)
    {
      ParsePrint(bins[i].id);
      ParsePrint(bins[i].balance);
    }
  }
}
