/** Merging whole journals: identifiers survive up to eviction of terminal records, bounding is idempotent, and a
    journal merged with itself is unchanged.
    Both record lists are walked in order; a record meets its namesake by id and is replaced by their merge, and the
    result is bounded. The same is done for the hash evidence of one record. */
module JournalJoin {
  import opened Domain
  import opened Journal
  import opened JournalRuns
  import opened JournalMerge

  function IndexOf(records: seq<Record>, id: Id): (r: Option<nat>)
    ensures r.Some? ==> r.value < |records| && records[r.value].id == id
    ensures r.None? ==> forall i :: 0 <= i < |records| ==> records[i].id != id
  {
    if records == [] then None
    else
      var earlier := IndexOf(records[..|records| - 1], id);
      if earlier.Some? then earlier
      else if records[|records| - 1].id == id then Some(|records| - 1)
      else None
  }

  /** Filing a record under its id: a later one of the same id takes the place of the earlier. */
  function Filed(records: seq<Record>, r: Record): seq<Record> {
    var i := IndexOf(records, r.id);
    if i.None? then records + [r] else records[i.value := r]
  }

  function FiledAll(records: seq<Record>): seq<Record> {
    if records == [] then [] else Filed(FiledAll(records[..|records| - 1]), records[|records| - 1])
  }

  function Joined(records: seq<Record>, incoming: Record): seq<Record> {
    var i := IndexOf(records, incoming.id);
    if i.None? then records + [incoming] else records[i.value := MergedRecord(records[i.value], incoming)]
  }

  function JoinedAll(start: seq<Record>, incoming: seq<Record>): seq<Record> {
    if incoming == [] then start else Joined(JoinedAll(start, incoming[..|incoming| - 1]), incoming[|incoming| - 1])
  }

  function MergedStates(left: State, right: State): Option<State> {
    var bounded := Bounded(JoinedAll(FiledAll(left.records), right.records));
    if bounded.None? then None
    else Some(State(bounded.value, if right.revision > left.revision then right.revision else left.revision))
  }

  predicate HasId(records: seq<Record>, id: Id) {
    exists r :: r in records && r.id == id
  }

  // Identifiers

  lemma MergedRecordId(existing: Record, incoming: Record)
    requires existing.id == incoming.id
    ensures MergedRecord(existing, incoming).id == existing.id
  {
    hide MergedHashes;
  }

  lemma ReplacedIds(records: seq<Record>, i: nat, r: Record, id: Id)
    requires i < |records| && records[i].id == r.id
    ensures HasId(records[i := r], id) <==> HasId(records, id)
    ensures DistinctIds(records) ==> DistinctIds(records[i := r])
  {
    var after := records[i := r];
    assert after[i] in after && records[i] in records;
    if HasId(records, id) {
      var x :| x in records && x.id == id;
      var k :| 0 <= k < |records| && records[k] == x;
      assert after[k] in after;
    }
    if HasId(after, id) {
      var x :| x in after && x.id == id;
      var k :| 0 <= k < |after| && after[k] == x;
      assert records[k] in records;
    }
  }

  lemma AppendedIds(records: seq<Record>, r: Record, id: Id)
    ensures HasId(records + [r], id) <==> HasId(records, id) || r.id == id
  {
    assert r in records + [r];
    if HasId(records, id) {
      var x :| x in records && x.id == id;
      assert x in records + [r];
    }
  }

  lemma {:induction false} FiledIds(records: seq<Record>, id: Id)
    ensures HasId(FiledAll(records), id) <==> HasId(records, id)
    ensures DistinctIds(FiledAll(records))
  {
    hide HasId;
    if records == [] {
      NoIds(id);
    } else {
      var init, last := records[..|records| - 1], records[|records| - 1];
      FiledIds(init, id);
      assert records == init + [last];
      AppendedIds(init, last, id);
      var i := IndexOf(FiledAll(init), last.id);
      if i.Some? {
        ReplacedIds(FiledAll(init), i.value, last, id);
        HasIdAt(FiledAll(init), i.value);
      } else {
        AppendedIds(FiledAll(init), last, id);
        AbsentId(FiledAll(init), last);
      }
    }
  }

  lemma NoIds(id: Id)
    ensures !HasId([], id)
  {
  }

  lemma HasIdAt(records: seq<Record>, i: nat)
    requires i < |records|
    ensures HasId(records, records[i].id)
  {
    assert records[i] in records;
  }

  lemma AbsentId(records: seq<Record>, r: Record)
    requires DistinctIds(records) && IndexOf(records, r.id).None?
    ensures DistinctIds(records + [r])
  {
    AppendDistinct(records, r);
  }

  lemma {:induction false} JoinedIds(start: seq<Record>, incoming: seq<Record>, id: Id)
    requires DistinctIds(start)
    ensures HasId(JoinedAll(start, incoming), id) <==> HasId(start, id) || HasId(incoming, id)
    ensures DistinctIds(JoinedAll(start, incoming))
  {
    hide HasId, MergedRecord;
    if incoming == [] {
      NoIds(id);
    } else {
      var init, last := incoming[..|incoming| - 1], incoming[|incoming| - 1];
      JoinedIds(start, init, id);
      assert incoming == init + [last];
      AppendedIds(init, last, id);
      var so := JoinedAll(start, init);
      var i := IndexOf(so, last.id);
      if i.Some? {
        MergedRecordId(so[i.value], last);
        ReplacedIds(so, i.value, MergedRecord(so[i.value], last), id);
        HasIdAt(so, i.value);
      } else {
        AppendedIds(so, last, id);
        AbsentId(so, last);
      }
    }
  }

  /** Main result on merging: the merged list has exactly the ids of both journals, each once, and bounding it keeps
      every record that is open, so only terminal records can be evicted. It fails only on more open records than fit. */
  lemma MergeKeepsIds(left: State, right: State)
    ensures var all := JoinedAll(FiledAll(left.records), right.records);
            && DistinctIds(all)
            && (forall id :: HasId(all, id) <==> HasId(left.records, id) || HasId(right.records, id))
            && (MergedStates(left, right).None? <==> |OpenOf(all)| > MAX_RECORDS)
            && (MergedStates(left, right).Some? ==>
                  forall r :: r in all && !IsTerminal(r) ==> r in MergedStates(left, right).value.records)
  {
    hide HasId, FiledAll, JoinedAll, Bounded, NeedsMonitoring;
    var all := JoinedAll(FiledAll(left.records), right.records);
    FiledIds(left.records, 0);
    JoinedIds(FiledAll(left.records), right.records, 0);
    forall id
      ensures HasId(all, id) <==> HasId(left.records, id) || HasId(right.records, id)
    {
      FiledIds(left.records, id);
      JoinedIds(FiledAll(left.records), right.records, id);
    }
    BoundedKeeps(all);
  }

  // Self merge

  ghost predicate SortedByObserved(hashes: seq<HashRecord>) {
    forall i, j :: 0 <= i < j < |hashes| ==> hashes[i].observedAt <= hashes[j].observedAt
  }

  lemma {:induction false} SortObservedFixed(hashes: seq<HashRecord>)
    requires SortedByObserved(hashes)
    ensures SortByObserved(hashes) == hashes
  {
    if hashes != [] {
      SortObservedFixed(hashes[..|hashes| - 1]);
      assert hashes == hashes[..|hashes| - 1] + [hashes[|hashes| - 1]];
    }
  }

  lemma {:induction false} PutPresent(merged: seq<HashRecord>, i: nat)
    requires DistinctHashes(merged) && i < |merged|
    ensures PutEvidence(merged, merged[i]) == merged
  {
    if i > 0 {
      PutPresent(merged[1..], i - 1);
      assert merged == [merged[0]] + merged[1..];
    }
  }

  lemma {:induction false} PutAbsent(merged: seq<HashRecord>, h: HashRecord)
    requires forall x :: x in merged ==> x.hash != h.hash
    ensures PutEvidence(merged, h) == merged + [h]
  {
    if merged != [] {
      assert merged[0] in merged;
      PutAbsent(merged[1..], h);
      assert merged + [h] == [merged[0]] + (merged[1..] + [h]);
    }
  }

  lemma {:induction false} PutAllDistinct(hashes: seq<HashRecord>)
    requires DistinctHashes(hashes)
    ensures PutAllEvidence(hashes) == hashes
  {
    if hashes != [] {
      var init, last := hashes[..|hashes| - 1], hashes[|hashes| - 1];
      PutAllDistinct(init);
      PutAbsent(init, last);
      assert hashes == init + [last];
    }
  }

  lemma PutAllStep(items: seq<HashRecord>, last: HashRecord)
    ensures PutAllEvidence(items + [last]) == PutEvidence(PutAllEvidence(items), last)
  {
    assert (items + [last])[..|items|] == items;
  }

  lemma {:induction false} PutAllAgain(hashes: seq<HashRecord>, n: nat)
    requires DistinctHashes(hashes) && n <= |hashes|
    ensures PutAllEvidence(hashes + hashes[..n]) == hashes
    decreases n
  {
    hide PutEvidence, PutAllEvidence;
    if n == 0 {
      assert hashes + hashes[..0] == hashes;
      PutAllDistinct(hashes);
    } else {
      PutAllAgain(hashes, n - 1);
      assert hashes + hashes[..n] == (hashes + hashes[..n - 1]) + [hashes[n - 1]];
      PutAllStep(hashes + hashes[..n - 1], hashes[n - 1]);
      PutPresent(hashes, n - 1);
    }
  }

  /** A record as the loader and the transitions keep it: each hash once, in order of observation, and no hash under
      a status that says there is none. */
  ghost predicate WellFormed(r: Record) {
    && DistinctHashes(r.hashes) && SortedByObserved(r.hashes)
    && (r.status == AwaitingWallet || r.status == UnknownSubmission || r.status == Rejected || r.status == Aborted ==>
          r.activeHash.None?)
  }

  lemma MergedWithSelf(r: Record)
    requires WellFormed(r)
    ensures MergedRecord(r, r) == r
  {
    hide PutAllEvidence, SortByObserved;
    assert r.hashes[..|r.hashes|] == r.hashes;
    PutAllAgain(r.hashes, |r.hashes|);
    SortObservedFixed(r.hashes);
  }

  lemma {:induction false} IndexAbsent(records: seq<Record>, id: Id)
    requires forall r :: r in records ==> r.id != id
    ensures IndexOf(records, id).None?
  {
    if records != [] {
      IndexAbsent(records[..|records| - 1], id);
      assert records[|records| - 1] in records;
    }
  }

  lemma {:induction false} FiledDistinct(records: seq<Record>)
    requires DistinctIds(records)
    ensures FiledAll(records) == records
  {
    hide IndexOf;
    if records != [] {
      var init, last := records[..|records| - 1], records[|records| - 1];
      FiledDistinct(init);
      FreshLast(records);
      IndexAbsent(init, last.id);
      assert records == init + [last];
    }
  }

  lemma IndexOfOwn(records: seq<Record>, n: nat)
    requires DistinctIds(records) && n < |records|
    ensures IndexOf(records, records[n].id) == Some(n)
  {
    var i := IndexOf(records, records[n].id);
    assert i.Some?;
    assert !(i.value < n) && !(n < i.value);
  }

  lemma {:induction false} JoinedWithSelf(records: seq<Record>, n: nat)
    requires DistinctIds(records) && n <= |records| && forall r :: r in records ==> WellFormed(r)
    ensures JoinedAll(records, records[..n]) == records
    decreases n
  {
    hide MergedRecord, WellFormed, IndexOf, DistinctIds;
    if n > 0 {
      JoinedWithSelf(records, n - 1);
      assert records[..n][..n - 1] == records[..n - 1];
      IndexOfOwn(records, n - 1);
      assert records[n - 1] in records;
      MergedWithSelf(records[n - 1]);
    }
  }

  // Bounding is idempotent

  ghost predicate SortedByCreated(records: seq<Record>) {
    forall i, j :: 0 <= i < j < |records| ==> records[i].createdAt <= records[j].createdAt
  }

  lemma {:induction false} InsertSorted(sorted: seq<Record>, r: Record)
    requires SortedByCreated(sorted)
    ensures SortedByCreated(InsertByCreated(sorted, r))
  {
    if sorted != [] && sorted[|sorted| - 1].createdAt > r.createdAt {
      var init, last := sorted[..|sorted| - 1], sorted[|sorted| - 1];
      InsertSorted(init, r);
      InsertByCreatedMembers(init, r);
      var s := InsertByCreated(init, r);
      forall i | 0 <= i < |s|
        ensures s[i].createdAt <= last.createdAt
      {
        assert s[i] in s;
        if s[i] in init {
          var k :| 0 <= k < |init| && init[k] == s[i];
        }
      }
    }
  }

  lemma {:induction false} SortIsSorted(records: seq<Record>)
    ensures SortedByCreated(SortByCreated(records))
  {
    if records != [] {
      SortIsSorted(records[..|records| - 1]);
      InsertSorted(SortByCreated(records[..|records| - 1]), records[|records| - 1]);
    }
  }

  lemma {:induction false} SortFixed(records: seq<Record>)
    requires SortedByCreated(records)
    ensures SortByCreated(records) == records
  {
    if records != [] {
      SortFixed(records[..|records| - 1]);
      assert records == records[..|records| - 1] + [records[|records| - 1]];
    }
  }

  /** Insertions of records with different creation times commute. */
  lemma {:induction false} InsertsCommute(sorted: seq<Record>, a: Record, b: Record)
    requires SortedByCreated(sorted) && a.createdAt < b.createdAt
    ensures InsertByCreated(InsertByCreated(sorted, a), b) == InsertByCreated(InsertByCreated(sorted, b), a)
  {
    if sorted == [] {
      assert [a, b][..1] == [a] && [b][..0] == [];
    } else {
      var init, last := sorted[..|sorted| - 1], sorted[|sorted| - 1];
      var ia, ib := InsertByCreated(sorted, a), InsertByCreated(sorted, b);
      if last.createdAt <= a.createdAt {
        assert ia == sorted + [a] && ib == sorted + [b] && ib[..|ib| - 1] == sorted;
      } else if last.createdAt <= b.createdAt {
        assert ia == InsertByCreated(init, a) + [last] && ib == sorted + [b] && ib[..|ib| - 1] == sorted;
      } else {
        InsertsCommute(init, a, b);
        assert ia[..|ia| - 1] == InsertByCreated(init, a) && ib[..|ib| - 1] == InsertByCreated(init, b);
      }
    }
  }

  lemma SortAppend(records: seq<Record>, r: Record)
    ensures SortByCreated(records + [r]) == InsertByCreated(SortByCreated(records), r)
  {
    assert (records + [r])[..|records|] == records;
  }

  lemma SortNone()
    ensures SortByCreated([]) == []
  {
  }

  /** Sorting the front first changes nothing. */
  lemma {:induction false} SortFront(a: seq<Record>, b: seq<Record>)
    ensures SortByCreated(SortByCreated(a) + b) == SortByCreated(a + b)
  {
    if b == [] {
      SortIsSorted(a);
      SortFixed(SortByCreated(a));
      assert SortByCreated(a) + b == SortByCreated(a) && a + b == a;
    } else {
      var init, last := b[..|b| - 1], b[|b| - 1];
      SortFront(a, init);
      assert SortByCreated(a) + b == SortByCreated(a) + init + [last] && a + b == a + init + [last];
      SortAppend(SortByCreated(a) + init, last);
      SortAppend(a + init, last);
    }
  }

  lemma {:induction false} SortInserted(a: seq<Record>, sorted: seq<Record>, r: Record)
    ensures SortByCreated(a + InsertByCreated(sorted, r)) == InsertByCreated(SortByCreated(a + sorted), r)
  {
    hide SortByCreated;
    if sorted == [] || sorted[|sorted| - 1].createdAt <= r.createdAt {
      assert a + (sorted + [r]) == (a + sorted) + [r];
      SortAppend(a + sorted, r);
    } else {
      var init, last := sorted[..|sorted| - 1], sorted[|sorted| - 1];
      assert sorted == init + [last];
      InsertBeforeLater(init, last, r);
      SortInserted(a, init, r);
      SortInsertedStep(a, init, last, r);
    }
  }

  lemma SortInsertedStep(a: seq<Record>, init: seq<Record>, last: Record, r: Record)
    requires last.createdAt > r.createdAt
    requires SortByCreated(a + InsertByCreated(init, r)) == InsertByCreated(SortByCreated(a + init), r)
    ensures SortByCreated(a + (InsertByCreated(init, r) + [last]))
            == InsertByCreated(SortByCreated(a + (init + [last])), r)
  {
    hide SortByCreated, InsertByCreated;
    assert a + (InsertByCreated(init, r) + [last]) == (a + InsertByCreated(init, r)) + [last];
    SortAppend(a + InsertByCreated(init, r), last);
    assert a + (init + [last]) == (a + init) + [last];
    SortAppend(a + init, last);
    SortIsSorted(a + init);
    InsertsCommute(SortByCreated(a + init), r, last);
  }

  lemma {:induction false} SortBack(a: seq<Record>, b: seq<Record>)
    ensures SortByCreated(a + SortByCreated(b)) == SortByCreated(a + b)
  {
    hide SortByCreated, InsertByCreated;
    if b == [] {
      SortNone();
    } else {
      var init, last := b[..|b| - 1], b[|b| - 1];
      SortBack(a, init);
      SortInserted(a, SortByCreated(init), last);
      assert b == init + [last] && a + b == (a + init) + [last];
      SortAppend(init, last);
      SortAppend(a + init, last);
    }
  }

  lemma {:induction false} InsertParts(sorted: seq<Record>, r: Record)
    requires SortedByCreated(sorted)
    ensures OpenOf(InsertByCreated(sorted, r)) == if IsTerminal(r) then OpenOf(sorted) else InsertByCreated(OpenOf(sorted), r)
    ensures ClosedOf(InsertByCreated(sorted, r))
            == if IsTerminal(r) then InsertByCreated(ClosedOf(sorted), r) else ClosedOf(sorted)
  {
    hide NeedsMonitoring;
    var s := InsertByCreated(sorted, r);
    if sorted == [] || sorted[|sorted| - 1].createdAt <= r.createdAt {
      assert s[..|s| - 1] == sorted;
      LastNotLater(sorted, r);
    } else {
      var init, last := sorted[..|sorted| - 1], sorted[|sorted| - 1];
      InsertParts(init, r);
      assert s[..|s| - 1] == InsertByCreated(init, r);
      InsertBeforeLater(OpenOf(init), last, r);
      InsertBeforeLater(ClosedOf(init), last, r);
    }
  }

  lemma InsertBeforeLater(init: seq<Record>, last: Record, r: Record)
    requires last.createdAt > r.createdAt
    ensures InsertByCreated(init + [last], r) == InsertByCreated(init, r) + [last]
  {
    assert (init + [last])[..|init|] == init;
  }

  lemma LastNotLater(sorted: seq<Record>, r: Record)
    requires SortedByCreated(sorted) && (sorted == [] || sorted[|sorted| - 1].createdAt <= r.createdAt)
    ensures InsertByCreated(OpenOf(sorted), r) == OpenOf(sorted) + [r]
    ensures InsertByCreated(ClosedOf(sorted), r) == ClosedOf(sorted) + [r]
  {
    hide NeedsMonitoring;
    OpenOfMembers(sorted);
    ClosedOfMembers(sorted);
    AllNotLater(sorted, r);
    if OpenOf(sorted) != [] {
      assert OpenOf(sorted)[|OpenOf(sorted)| - 1] in sorted;
    }
    if ClosedOf(sorted) != [] {
      assert ClosedOf(sorted)[|ClosedOf(sorted)| - 1] in sorted;
    }
  }

  lemma AllNotLater(sorted: seq<Record>, r: Record)
    requires SortedByCreated(sorted) && (sorted == [] || sorted[|sorted| - 1].createdAt <= r.createdAt)
    ensures forall x :: x in sorted ==> x.createdAt <= r.createdAt
  {
  }

  /** Filtering commutes with the stable sort. */
  lemma {:induction false} SortParts(records: seq<Record>)
    ensures OpenOf(SortByCreated(records)) == SortByCreated(OpenOf(records))
    ensures ClosedOf(SortByCreated(records)) == SortByCreated(ClosedOf(records))
  {
    hide NeedsMonitoring;
    if records != [] {
      var init, last := records[..|records| - 1], records[|records| - 1];
      SortParts(init);
      SortIsSorted(init);
      InsertParts(SortByCreated(init), last);
      SortAppend(OpenOf(init), last);
      SortAppend(ClosedOf(init), last);
    }
  }

  lemma PartsAppend(records: seq<Record>, r: Record)
    ensures OpenOf(records + [r]) == if IsTerminal(r) then OpenOf(records) else OpenOf(records) + [r]
    ensures ClosedOf(records + [r]) == if IsTerminal(r) then ClosedOf(records) + [r] else ClosedOf(records)
  {
    hide NeedsMonitoring;
    assert (records + [r])[..|records|] == records;
  }

  lemma {:induction false} PartsOfOpen(open: seq<Record>)
    requires forall r :: r in open ==> !IsTerminal(r)
    ensures OpenOf(open) == open && ClosedOf(open) == []
  {
    hide NeedsMonitoring;
    if open != [] {
      PartsOfOpen(open[..|open| - 1]);
      assert open == open[..|open| - 1] + [open[|open| - 1]];
    }
  }

  lemma {:induction false} PartsOfConcat(open: seq<Record>, closed: seq<Record>)
    requires forall r :: r in open ==> !IsTerminal(r)
    requires forall r :: r in closed ==> IsTerminal(r)
    ensures OpenOf(open + closed) == open && ClosedOf(open + closed) == closed
  {
    hide NeedsMonitoring, OpenOf, ClosedOf;
    if closed == [] {
      PartsOfOpen(open);
      assert open + closed == open;
    } else {
      var init, last := closed[..|closed| - 1], closed[|closed| - 1];
      PartsOfConcat(open, init);
      PartsAppend(open + init, last);
      assert open + closed == (open + init) + [last] && closed == init + [last];
    }
  }

  /** Bounding a bounded journal changes nothing. */
  lemma BoundedIdempotent(records: seq<Record>)
    requires Bounded(records).Some?
    ensures Bounded(Bounded(records).value) == Bounded(records)
  {
    hide NeedsMonitoring;
    var open := OpenOf(records);
    var kept := LastOf(ClosedOf(records), MAX_RECORDS - |open|);
    OpenOfMembers(records);
    ClosedOfMembers(records);
    PartsOfConcat(open, kept);
    SortParts(open + kept);
    var b := SortByCreated(open + kept);
    assert OpenOf(b) == SortByCreated(open) && ClosedOf(b) == SortByCreated(kept);
    assert LastOf(ClosedOf(b), MAX_RECORDS - |open|) == ClosedOf(b);
    SortFront(open, SortByCreated(kept));
    SortBack(open, kept);
  }

  /** Main result: a journal that bounding produced, with distinct ids and well-formed records, is unchanged by
      merging it with itself. */
  lemma SelfMergeIdentity(s: State, unbounded: seq<Record>)
    requires Bounded(unbounded) == Some(s.records)
    requires DistinctIds(s.records) && forall r :: r in s.records ==> WellFormed(r)
    ensures MergedStates(s, s) == Some(s)
  {
    hide Bounded, WellFormed, FiledAll, JoinedAll;
    FiledDistinct(s.records);
    assert s.records[..|s.records|] == s.records;
    JoinedWithSelf(s.records, |s.records|);
    BoundedIdempotent(unbounded);
  }

  // The loops

  method MergeHashEvidence(left: seq<HashRecord>, right: seq<HashRecord>) returns (r: seq<HashRecord>)
    ensures r == MergedHashes(left, right)
  {
    var items := left + right;
    var merged: seq<HashRecord> := [];
    var i := 0;
    while i < |items|
      invariant i <= |items|
      invariant merged == PutAllEvidence(items[..i])
    {
      assert items[..i + 1][..i] == items[..i];
      merged := PutEvidence(merged, items[i]);
      i := i + 1;
    }
    assert items[..i] == items;
    r := SortByObserved(merged);
  }

  method MergeTransactionJournals(left: State, right: State) returns (r: Option<State>)
    ensures r == MergedStates(left, right)
  {
    var byId: seq<Record> := [];
    var i := 0;
    while i < |left.records|
      invariant i <= |left.records|
      invariant byId == FiledAll(left.records[..i])
    {
      assert left.records[..i + 1][..i] == left.records[..i];
      byId := Filed(byId, left.records[i]);
      i := i + 1;
    }
    assert left.records[..i] == left.records;
    ghost var start := byId;
    i := 0;
    while i < |right.records|
      invariant i <= |right.records|
      invariant byId == JoinedAll(start, right.records[..i])
    {
      assert right.records[..i + 1][..i] == right.records[..i];
      byId := Joined(byId, right.records[i]);
      i := i + 1;
    }
    assert right.records[..i] == right.records;
    var bounded := Bounded(byId);
    if bounded.None? {
      return None;
    }
    r := Some(State(bounded.value, if right.revision > left.revision then right.revision else left.revision));
  }
}
