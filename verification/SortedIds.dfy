/** Sorted lists of identifiers without repetition. */
module SortedIds {
  import opened Domain

  /** Each owner's pairs, sorted. */
  type OwnerIndex = map<Id, seq<Id>>

  function PairsOf(index: OwnerIndex, owner: Id): seq<Id> {
    if owner in index then index[owner] else []
  }

  ghost predicate StrictlySorted(values: seq<Id>) {
    forall i, j :: 0 <= i < j < |values| ==> values[i] < values[j]
  }

  function InsertUnique(values: seq<Id>, v: Id): seq<Id> {
    if values == [] || values[|values| - 1] < v then values + [v]
    else if values[|values| - 1] == v then values
    else InsertUnique(values[..|values| - 1], v) + [values[|values| - 1]]
  }

  lemma {:induction false} InsertPresent(values: seq<Id>, v: Id, at: nat)
    requires StrictlySorted(values) && at < |values| && values[at] == v
    ensures InsertUnique(values, v) == values
  {
    if at < |values| - 1 {
      InsertPresent(values[..|values| - 1], v, at);
      assert values == values[..|values| - 1] + [values[|values| - 1]];
    }
  }

  lemma {:induction false} InsertAbsent(values: seq<Id>, v: Id, at: nat)
    requires at <= |values|
    requires at > 0 ==> values[at - 1] < v
    requires forall i :: at <= i < |values| ==> values[i] > v
    ensures InsertUnique(values, v) == values[..at] + [v] + values[at..]
  {
    if at < |values| {
      var init := values[..|values| - 1];
      InsertAbsent(init, v, at);
      assert values[..at] + [v] + values[at..] == init[..at] + [v] + init[at..] + [values[|values| - 1]];
    } else {
      assert values[..at] + [v] + values[at..] == values + [v];
    }
  }

  lemma {:induction false} InsertUniqueKeeps(values: seq<Id>, v: Id)
    requires StrictlySorted(values)
    ensures forall x :: x in InsertUnique(values, v) <==> x in values || x == v
    ensures StrictlySorted(InsertUnique(values, v))
  {
    if values != [] && values[|values| - 1] > v {
      var init, last := values[..|values| - 1], values[|values| - 1];
      InsertUniqueKeeps(init, v);
      var r := InsertUnique(init, v);
      assert values == init + [last];
      forall i | 0 <= i < |r|
        ensures r[i] < last
      {
        assert r[i] in r;
      }
    }
  }

  /** Binary search, then insertion unless the value is already there. */
  method InsertSortedUnique(values: seq<Id>, v: Id) returns (r: seq<Id>)
    requires StrictlySorted(values)
    ensures r == InsertUnique(values, v)
    ensures StrictlySorted(r)
  {
    InsertUniqueKeeps(values, v);
    var low, high := 0, |values|;
    while low < high
      invariant 0 <= low <= high <= |values|
      invariant forall i :: 0 <= i < low ==> values[i] < v
      invariant forall i :: high <= i < |values| ==> values[i] >= v
    {
      var middle := (low + high) / 2;
      if values[middle] < v {
        low := middle + 1;
      } else {
        high := middle;
      }
    }
    if low < |values| && values[low] == v {
      InsertPresent(values, v, low);
      r := values;
    } else {
      InsertAbsent(values, v, low);
      r := values[..low] + [v] + values[low..];
    }
  }

  /** Sorting distinct identifiers. */
  function SortIds(ids: seq<Id>): seq<Id> {
    if ids == [] then [] else InsertUnique(SortIds(ids[..|ids| - 1]), ids[|ids| - 1])
  }

  lemma {:induction false} SortIdsKeeps(ids: seq<Id>)
    ensures StrictlySorted(SortIds(ids))
    ensures forall x :: x in SortIds(ids) <==> x in ids
  {
    if ids != [] {
      var init := ids[..|ids| - 1];
      SortIdsKeeps(init);
      InsertUniqueKeeps(SortIds(init), ids[|ids| - 1]);
      assert ids == init + [ids[|ids| - 1]];
    }
  }
}
