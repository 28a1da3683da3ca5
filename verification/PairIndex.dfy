/** The as-of index of one pair. */
module PairIndex {
  // Published states are sorted by timestamp, each entry carrying the latest state in chain order among the entries
  // up to it. Block timestamps need not be monotone, so the newest entry by time is not always the newest by chain
  // order.

  import opened Domain

  datatype PriceSource = ActiveBinQuote | TrustedToken | Mixed

  datatype PairState = PairState(ident: PairIdentity, reserveX: int, reserveY: int, tvlUsd: Option<int>,
                                 priceUsd: Option<int>, priceSource: PriceSource, quoteToken: Id,
                                 activeId: Option<int>, binStep: Option<int>, marketPriceQuote: Option<int>,
                                 missing: set<Id>, block: int, blockHash: Id, timestamp: int)

  /** A published state and its position in chain order. */
  datatype Stamp = Stamp(state: PairState, ordinal: nat)

  datatype Entry = Entry(state: PairState, ordinal: nat, prefixBest: PairState, prefixBestOrdinal: nat)

  function Fresh(s: Stamp): Entry {
    Entry(s.state, s.ordinal, s.state, s.ordinal)
  }

  /** Number of leading entries at or before `t` in a sorted index. */
  function UpTo(entries: seq<Entry>, t: int): (n: nat)
    ensures n <= |entries|
  {
    if entries == [] || entries[|entries| - 1].state.timestamp <= t then |entries|
    else UpTo(entries[..|entries| - 1], t)
  }

  /** The prefix-best fields of an entry that follows `front`. */
  function Repaired(front: seq<Entry>, e: Entry): Entry {
    if front != [] && front[|front| - 1].prefixBestOrdinal > e.ordinal then
      e.(prefixBest := front[|front| - 1].prefixBest, prefixBestOrdinal := front[|front| - 1].prefixBestOrdinal)
    else e.(prefixBest := e.state, prefixBestOrdinal := e.ordinal)
  }

  function Repair(entries: seq<Entry>, from: nat): (r: seq<Entry>)
    ensures |r| == |entries|
  {
    if |entries| <= from then entries
    else
      var front := Repair(entries[..|entries| - 1], from);
      front + [Repaired(front, entries[|entries| - 1])]
  }

  function Indexed(entries: seq<Entry>, s: Stamp): seq<Entry> {
    var p := UpTo(entries, s.state.timestamp);
    Repair(entries[..p] + [Fresh(s)] + entries[p..], p)
  }

  /** The index after a chain-order history of publications. */
  function BuildIndex(history: seq<Stamp>): seq<Entry> {
    if history == [] then [] else Indexed(BuildIndex(history[..|history| - 1]), history[|history| - 1])
  }

  /** What the as-of lookup reads off the index. */
  function StateAt(entries: seq<Entry>, t: int): Option<PairState> {
    var n := UpTo(entries, t);
    if n == 0 then None else Some(entries[n - 1].prefixBest)
  }

  /** The reference: scan the history backwards for the last state published at or before `t`. */
  function LastPublishedAt(history: seq<Stamp>, t: int): Option<PairState> {
    if history == [] then None
    else if history[|history| - 1].state.timestamp <= t then Some(history[|history| - 1].state)
    else LastPublishedAt(history[..|history| - 1], t)
  }

  ghost predicate InChainOrder(history: seq<Stamp>) {
    forall i, j :: 0 <= i < j < |history| ==> history[i].ordinal < history[j].ordinal
  }

  ghost predicate SortedByTime(entries: seq<Entry>) {
    forall i, j :: 0 <= i < j < |entries| ==> entries[i].state.timestamp <= entries[j].state.timestamp
  }

  /** Entry `b` is the latest in chain order among the first `n` entries. */
  ghost predicate IsBest(entries: seq<Entry>, n: nat, b: nat)
    requires n <= |entries|
  {
    b < n && forall i :: 0 <= i < n ==> entries[i].ordinal <= entries[b].ordinal
  }

  ghost predicate BestKnown(entries: seq<Entry>, k: nat)
    requires k < |entries|
  {
    exists b: nat :: IsBest(entries, k + 1, b)
                     && entries[k].prefixBest == entries[b].state && entries[k].prefixBestOrdinal == entries[b].ordinal
  }

  ghost predicate IndexValid(entries: seq<Entry>) {
    SortedByTime(entries) && BestUpTo(entries, |entries|)
  }

  lemma {:induction false} UpToSplits(entries: seq<Entry>, t: int)
    requires SortedByTime(entries)
    ensures forall i :: 0 <= i < UpTo(entries, t) ==> entries[i].state.timestamp <= t
    ensures forall i :: UpTo(entries, t) <= i < |entries| ==> entries[i].state.timestamp > t
  {
    if entries != [] {
      var last := entries[|entries| - 1];
      if last.state.timestamp > t {
        UpToSplits(entries[..|entries| - 1], t);
      }
    }
  }

  lemma {:induction false} UpToUnique(entries: seq<Entry>, t: int, n: nat)
    requires n <= |entries|
    requires n > 0 ==> entries[n - 1].state.timestamp <= t
    requires forall i :: n <= i < |entries| ==> entries[i].state.timestamp > t
    ensures UpTo(entries, t) == n
  {
    if n < |entries| {
      UpToUnique(entries[..|entries| - 1], t, n);
    }
  }

  /** Repairing leaves states, ordinals and everything before the starting point alone. */
  lemma {:induction false} RepairKeeps(entries: seq<Entry>, from: nat)
    ensures forall i :: 0 <= i < |entries| ==> Repair(entries, from)[i].state == entries[i].state
                                               && Repair(entries, from)[i].ordinal == entries[i].ordinal
    ensures forall i :: 0 <= i < |entries| && i < from ==> Repair(entries, from)[i] == entries[i]
  {
    if |entries| > from {
      RepairKeeps(entries[..|entries| - 1], from);
    }
  }

  lemma BestOfPrefix(entries: seq<Entry>, longer: seq<Entry>, k: nat)
    requires k < |entries| <= |longer| && longer[..|entries|] == entries && BestKnown(entries, k)
    ensures BestKnown(longer, k)
  {
    var b: nat :| IsBest(entries, k + 1, b)
                  && entries[k].prefixBest == entries[b].state && entries[k].prefixBestOrdinal == entries[b].ordinal;
    assert forall i :: 0 <= i < |entries| ==> longer[i] == entries[i];
    assert IsBest(longer, k + 1, b);
  }

  ghost predicate BestUpTo(entries: seq<Entry>, n: nat)
    requires n <= |entries|
  {
    forall k: nat :: k < n ==> BestKnown(entries, k)
  }

  lemma BestUpToExtends(entries: seq<Entry>, longer: seq<Entry>, n: nat)
    requires n <= |entries| <= |longer| && longer[..|entries|] == entries
    ensures BestUpTo(entries, n) <==> BestUpTo(longer, n)
  {
    if BestUpTo(entries, n) {
      forall k: nat | k < n
        ensures BestKnown(longer, k)
      {
        BestOfPrefix(entries, longer, k);
      }
    }
    if BestUpTo(longer, n) {
      forall k: nat | k < n
        ensures BestKnown(entries, k)
      {
        BestOnPrefix(longer, |entries|, k);
      }
    }
  }

  /** Repairing from the first stale entry makes every entry's prefix best right. */
  lemma {:induction false} RepairRestores(entries: seq<Entry>, from: nat)
    requires from <= |entries| && BestUpTo(entries, from)
    ensures BestUpTo(Repair(entries, from), |entries|)
  {
    if |entries| > from {
      var init, last := entries[..|entries| - 1], entries[|entries| - 1];
      BestUpToExtends(init, entries, from);
      RepairRestores(init, from);
      RepairStep(Repair(init, from), last);
    }
  }

  lemma RepairStep(front: seq<Entry>, e: Entry)
    requires BestUpTo(front, |front|)
    ensures BestUpTo(front + [Repaired(front, e)], |front| + 1)
  {
    var r := front + [Repaired(front, e)];
    BestUpToExtends(front, r, |front|);
    LastBest(front, e);
  }

  lemma BestOnPrefix(entries: seq<Entry>, n: nat, k: nat)
    requires k < n <= |entries| && BestKnown(entries, k)
    ensures BestKnown(entries[..n], k)
  {
    var b: nat :| IsBest(entries, k + 1, b)
                  && entries[k].prefixBest == entries[b].state && entries[k].prefixBestOrdinal == entries[b].ordinal;
    assert IsBest(entries[..n], k + 1, b);
  }

  lemma LastBest(front: seq<Entry>, e: Entry)
    requires front != [] ==> BestKnown(front, |front| - 1)
    ensures BestKnown(front + [Repaired(front, e)], |front|)
  {
    var r := front + [Repaired(front, e)];
    assert forall i :: 0 <= i < |front| ==> r[i] == front[i];
    if front == [] {
      assert IsBest(r, 1, 0);
    } else {
      var b: nat :| IsBest(front, |front|, b) && front[|front| - 1].prefixBest == front[b].state
                    && front[|front| - 1].prefixBestOrdinal == front[b].ordinal;
      if front[b].ordinal > e.ordinal {
        assert IsBest(r, |front| + 1, b);
      } else {
        assert IsBest(r, |front| + 1, |front|);
      }
    }
  }

  lemma SpliceKeepsOrder(entries: seq<Entry>, e: Entry, p: nat)
    requires SortedByTime(entries) && p <= |entries|
    requires forall i :: 0 <= i < p ==> entries[i].state.timestamp <= e.state.timestamp
    requires forall i :: p <= i < |entries| ==> entries[i].state.timestamp > e.state.timestamp
    ensures SortedByTime(entries[..p] + [e] + entries[p..])
  {
    var r := entries[..p] + [e] + entries[p..];
    forall i, j | 0 <= i < j < |r|
      ensures r[i].state.timestamp <= r[j].state.timestamp
    {
      assert r[i] == if i < p then entries[i] else if i == p then e else entries[i - 1];
      assert r[j] == if j < p then entries[j] else if j == p then e else entries[j - 1];
    }
  }

  lemma IndexedKeepsValid(entries: seq<Entry>, s: Stamp)
    requires IndexValid(entries)
    ensures IndexValid(Indexed(entries, s))
  {
    var p := UpTo(entries, s.state.timestamp);
    UpToSplits(entries, s.state.timestamp);
    var r := entries[..p] + [Fresh(s)] + entries[p..];
    SpliceKeepsOrder(entries, Fresh(s), p);
    BestUpToExtends(entries[..p], entries, p);
    assert r[..p] == entries[..p];
    BestUpToExtends(entries[..p], r, p);
    RepairRestores(r, p);
    RepairKeeps(r, p);
  }

  /** The entries hold exactly the stamps of the history. */
  ghost predicate Holds(entries: seq<Entry>, history: seq<Stamp>) {
    && (forall i :: 0 <= i < |entries| ==> Stamp(entries[i].state, entries[i].ordinal) in history)
    && (forall s :: s in history ==> HasStamp(entries, s))
  }

  ghost predicate HasStamp(entries: seq<Entry>, s: Stamp) {
    exists i :: 0 <= i < |entries| && Stamp(entries[i].state, entries[i].ordinal) == s
  }

  lemma {:induction false} BuildIndexValid(history: seq<Stamp>)
    ensures IndexValid(BuildIndex(history))
    ensures Holds(BuildIndex(history), history)
  {
    if history != [] {
      var init, last := history[..|history| - 1], history[|history| - 1];
      BuildIndexValid(init);
      IndexedKeepsValid(BuildIndex(init), last);
      assert history == init + [last];
      IndexedHolds(BuildIndex(init), init, last);
    }
  }

  lemma IndexedHolds(entries: seq<Entry>, history: seq<Stamp>, s: Stamp)
    requires Holds(entries, history)
    ensures Holds(Indexed(entries, s), history + [s])
  {
    var p := UpTo(entries, s.state.timestamp);
    var plain := entries[..p] + [Fresh(s)] + entries[p..];
    RepairKeeps(plain, p);
    var r := Indexed(entries, s);
    forall i | 0 <= i < |r|
      ensures Stamp(r[i].state, r[i].ordinal) in history + [s]
    {
      assert plain[i] == if i < p then entries[i] else if i == p then Fresh(s) else entries[i - 1];
    }
    forall x | x in history + [s]
      ensures HasStamp(r, x)
    {
      if x == s {
        assert plain[p] == Fresh(s);
      } else {
        assert HasStamp(entries, x);
        var i :| 0 <= i < |entries| && Stamp(entries[i].state, entries[i].ordinal) == x;
        var k := if i < p then i else i + 1;
        assert plain[k] == entries[i];
        assert Stamp(r[k].state, r[k].ordinal) == x;
      }
    }
  }

  /** The scan returns the state of the history's latest stamp at or before `t`. */
  lemma {:induction false} ScanFindsLatest(history: seq<Stamp>, t: int, s: Stamp)
    requires InChainOrder(history) && s in history && s.state.timestamp <= t
    requires forall x :: x in history && x.state.timestamp <= t ==> x.ordinal <= s.ordinal
    ensures LastPublishedAt(history, t) == Some(s.state)
  {
    var init, last := history[..|history| - 1], history[|history| - 1];
    var i :| 0 <= i < |history| && history[i] == s;
    if last.state.timestamp <= t {
      assert i < |history| - 1 ==> s.ordinal < last.ordinal;
      assert last in history;
    } else {
      assert init[i] == s;
      ScanFindsLatest(init, t, s);
    }
  }

  lemma {:induction false} ScanFindsNone(history: seq<Stamp>, t: int)
    requires forall x :: x in history ==> x.state.timestamp > t
    ensures LastPublishedAt(history, t) == None
  {
    if history != [] {
      assert history[|history| - 1] in history;
      ScanFindsNone(history[..|history| - 1], t);
    }
  }

  /** Main result: for any history, whatever its timestamps, the as-of lookup through the index finds
      the state that a backwards scan of the chain-order history finds. */
  lemma LookupRefinesScan(history: seq<Stamp>, t: int)
    requires InChainOrder(history)
    ensures StateAt(BuildIndex(history), t) == LastPublishedAt(history, t)
  {
    BuildIndexValid(history);
    LookupFindsLatest(BuildIndex(history), history, t);
  }

  lemma LookupFindsLatest(entries: seq<Entry>, history: seq<Stamp>, t: int)
    requires IndexValid(entries) && Holds(entries, history) && InChainOrder(history)
    ensures StateAt(entries, t) == LastPublishedAt(history, t)
  {
    UpToSplits(entries, t);
    var n := UpTo(entries, t);
    if n == 0 {
      NoneBefore(entries, history, t);
      ScanFindsNone(history, t);
    } else {
      var b := BestAt(entries, n - 1);
      LatestDominates(entries, history, t, n, b);
      var s := Stamp(entries[b].state, entries[b].ordinal);
      assert s in history && s.state.timestamp <= t;
      ScanFindsLatest(history, t, s);
    }
  }

  lemma BestAt(entries: seq<Entry>, k: nat) returns (b: nat)
    requires k < |entries| && IndexValid(entries)
    ensures b <= k && IsBest(entries, k + 1, b) && entries[k].prefixBest == entries[b].state
  {
    assert BestKnown(entries, k);
    b :| IsBest(entries, k + 1, b)
         && entries[k].prefixBest == entries[b].state && entries[k].prefixBestOrdinal == entries[b].ordinal;
  }

  lemma NoneBefore(entries: seq<Entry>, history: seq<Stamp>, t: int)
    requires Holds(entries, history)
    requires forall i :: 0 <= i < |entries| ==> entries[i].state.timestamp > t
    ensures forall x :: x in history ==> x.state.timestamp > t
  {
    forall x | x in history
      ensures x.state.timestamp > t
    {
      assert HasStamp(entries, x);
    }
  }

  lemma LatestDominates(entries: seq<Entry>, history: seq<Stamp>, t: int, n: nat, b: nat)
    requires Holds(entries, history) && n <= |entries| && IsBest(entries, n, b)
    requires forall i :: n <= i < |entries| ==> entries[i].state.timestamp > t
    ensures forall x :: x in history && x.state.timestamp <= t ==> x.ordinal <= entries[b].ordinal
  {
    forall x | x in history && x.state.timestamp <= t
      ensures x.ordinal <= entries[b].ordinal
    {
      assert HasStamp(entries, x);
      var i :| 0 <= i < |entries| && Stamp(entries[i].state, entries[i].ordinal) == x;
      assert i < n;
    }
  }

  method UpperBoundPairSnapshotTimestamp(entries: seq<Entry>, t: int) returns (low: nat)
    requires SortedByTime(entries)
    ensures low == UpTo(entries, t)
  {
    low := 0;
    var high := |entries|;
    while low < high
      invariant low <= high <= |entries|
      invariant forall i :: 0 <= i < low ==> entries[i].state.timestamp <= t
      invariant forall i :: high <= i < |entries| ==> entries[i].state.timestamp > t
    {
      var middle := (low + high) / 2;
      if entries[middle].state.timestamp <= t {
        low := middle + 1;
      } else {
        high := middle;
      }
    }
    UpToUnique(entries, t, low);
  }

  /** Mid-array insertion followed by repair of the entries behind it. */
  method IndexPairState(entries: seq<Entry>, state: PairState, ordinal: nat) returns (snapshots: seq<Entry>)
    requires IndexValid(entries)
    ensures snapshots == Indexed(entries, Stamp(state, ordinal))
  {
    hide Repair;
    var insertionIndex := UpperBoundPairSnapshotTimestamp(entries, state.timestamp);
    snapshots := entries[..insertionIndex] + [Entry(state, ordinal, state, ordinal)] + entries[insertionIndex..];
    ghost var plain := snapshots;
    var index := insertionIndex;
    NothingRepaired(plain, insertionIndex);
    while index < |snapshots|
      invariant insertionIndex <= index <= |snapshots| == |plain|
      invariant snapshots[..index] == Repair(plain[..index], insertionIndex)
      invariant snapshots[index..] == plain[index..]
    {
      RepairOneMore(plain, insertionIndex, index);
      ghost var front := snapshots[..index];
      var entry := snapshots[index];
      assert entry == plain[index];
      if index > 0 && snapshots[index - 1].prefixBestOrdinal > entry.ordinal {
        var previous := snapshots[index - 1];
        entry := entry.(prefixBest := previous.prefixBest, prefixBestOrdinal := previous.prefixBestOrdinal);
      } else {
        entry := entry.(prefixBest := entry.state, prefixBestOrdinal := entry.ordinal);
      }
      assert entry == Repaired(front, plain[index]);
      snapshots := snapshots[..index] + [entry] + snapshots[index + 1..];
      assert snapshots[..index + 1] == front + [entry];
      assert snapshots[index + 1..] == plain[index + 1..];
      index := index + 1;
    }
    assert plain[..index] == plain && snapshots[..index] == snapshots;
  }

  lemma NothingRepaired(plain: seq<Entry>, from: nat)
    requires from <= |plain|
    ensures Repair(plain[..from], from) == plain[..from]
  {
  }

  lemma RepairOneMore(plain: seq<Entry>, from: nat, index: nat)
    requires from <= index < |plain|
    ensures var front := Repair(plain[..index], from);
            Repair(plain[..index + 1], from) == front + [Repaired(front, plain[index])]
  {
    assert plain[..index + 1][..index] == plain[..index];
  }

  /** The as-of lookup. For a history's index it is the backwards scan, by `LookupRefinesScan`. */
  method PairStateAt(entries: seq<Entry>, timestamp: int) returns (r: Option<PairState>)
    requires IndexValid(entries)
    ensures r == StateAt(entries, timestamp)
  {
    var low := UpperBoundPairSnapshotTimestamp(entries, timestamp);
    r := if low == 0 then None else Some(entries[low - 1].prefixBest);
  }
}
