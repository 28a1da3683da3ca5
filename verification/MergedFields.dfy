/** What merging two copies of the journal makes of each record and of each hash, field by field. */
module MergedFields {
  import opened Domain
  import opened Journal
  import opened JournalRuns
  import opened JournalMerge
  import opened JournalJoin

  // Hash evidence

  /** The first of the items about the hash that knows what replaced it decides. */
  ghost predicate FirstReplacedBy(items: seq<HashRecord>, hash: Id, known: Option<Id>) {
    if known.None? then forall x :: x in items && x.hash == hash ==> x.replacedByHash.None?
    else exists i :: 0 <= i < |items| && items[i].hash == hash && items[i].replacedByHash == known
                     && forall j :: 0 <= j < i && items[j].hash == hash ==> items[j].replacedByHash.None?
  }

  /** The first of the items about the hash that knows what it replaced decides. */
  ghost predicate FirstReplaces(items: seq<HashRecord>, hash: Id, known: Option<Id>) {
    if known.None? then forall x :: x in items && x.hash == hash ==> x.replacesHash.None?
    else exists i :: 0 <= i < |items| && items[i].hash == hash && items[i].replacesHash == known
                     && forall j :: 0 <= j < i && items[j].hash == hash ==> items[j].replacesHash.None?
  }

  /** A hash counts as a replacement once one item says so. */
  ghost predicate AnyReplacement(items: seq<HashRecord>, hash: Id, role: Role) {
    role == Replacement <==> exists x :: x in items && x.hash == hash && x.role == Replacement
  }

  ghost predicate CombinesLinks(items: seq<HashRecord>, e: HashRecord) {
    && FirstReplacedBy(items, e.hash, e.replacedByHash)
    && FirstReplaces(items, e.hash, e.replacesHash)
    && AnyReplacement(items, e.hash, e.role)
  }

  lemma ReplacedByMore(init: seq<HashRecord>, last: HashRecord, hash: Id, known: Option<Id>)
    requires FirstReplacedBy(init, hash, known)
    ensures FirstReplacedBy(init + [last], hash, if last.hash == hash then known.Or(last.replacedByHash) else known)
  {
    var all := init + [last];
    assert forall j :: 0 <= j < |init| ==> all[j] == init[j] && init[j] in init;
    assert all[|init|] == last;
  }

  lemma ReplacesMore(init: seq<HashRecord>, last: HashRecord, hash: Id, known: Option<Id>)
    requires FirstReplaces(init, hash, known)
    ensures FirstReplaces(init + [last], hash, if last.hash == hash then known.Or(last.replacesHash) else known)
  {
    var all := init + [last];
    assert forall j :: 0 <= j < |init| ==> all[j] == init[j] && init[j] in init;
    assert all[|init|] == last;
  }

  lemma RoleMore(init: seq<HashRecord>, last: HashRecord, hash: Id, role: Role)
    requires AnyReplacement(init, hash, role)
    ensures AnyReplacement(init + [last], hash,
                           if last.hash == hash && last.role == Replacement then Replacement else role)
  {
    assert forall x :: x in init + [last] <==> x in init || x == last;
  }

  lemma {:induction false} EvidenceLinks(items: seq<HashRecord>, hash: Id)
    requires EvidenceOf(items, hash).Some?
    ensures EvidenceOf(items, hash).value.hash == hash && CombinesLinks(items, EvidenceOf(items, hash).value)
  {
    hide FirstReplacedBy, FirstReplaces, AnyReplacement;
    var init, last := items[..|items| - 1], items[|items| - 1];
    var before := EvidenceOf(init, hash);
    assert items == init + [last];
    if before.Some? {
      EvidenceLinks(init, hash);
      ReplacedByMore(init, last, hash, before.value.replacedByHash);
      ReplacesMore(init, last, hash, before.value.replacesHash);
      RoleMore(init, last, hash, before.value.role);
    } else {
      NoneBefore(init, hash);
      ReplacedByMore(init, last, hash, None);
      ReplacesMore(init, last, hash, None);
      RoleMore(init, last, hash, FirstSubmitted);
    }
  }

  lemma NoneBefore(items: seq<HashRecord>, hash: Id)
    requires EvidenceOf(items, hash).None?
    ensures FirstReplacedBy(items, hash, None) && FirstReplaces(items, hash, None)
    ensures AnyReplacement(items, hash, FirstSubmitted)
  {
    EvidenceEarliest(items, hash);
  }

  /** Main result on evidence: the merged list, in order of time, knows of each hash whatever either list knew: its
      earliest observation, and what it replaced and was replaced by, where the left list comes first. */
  lemma MergedHashesAre(left: seq<HashRecord>, right: seq<HashRecord>)
    ensures var merged := MergedHashes(left, right);
            && DistinctHashes(merged) && SortedByObserved(merged)
            && (forall hash :: HasHash(merged, hash) <==> HasHash(left, hash) || HasHash(right, hash))
            && forall m :: m in merged ==>
                 && CombinesLinks(left + right, m) && ObservedIn(left + right, m)
                 && forall x :: x in left + right && x.hash == m.hash ==> m.observedAt <= x.observedAt
  {
    var merged := MergedHashes(left, right);
    hide MergedHashes, SortedByObserved, CombinesLinks, ObservedIn;
    EvidenceUnion(left, right);
    MergedSorted(left, right);
    forall m | m in merged
      ensures CombinesLinks(left + right, m)
    {
      MergedFinds(left, right, m.hash);
      FindHashDistinct(merged, m);
      EvidenceLinks(left + right, m.hash);
    }
  }

  lemma MergedSorted(left: seq<HashRecord>, right: seq<HashRecord>)
    ensures SortedByObserved(MergedHashes(left, right))
  {
    SortsByObserved(PutAllEvidence(left + right));
  }

  lemma {:induction false} SortsByObserved(hashes: seq<HashRecord>)
    ensures SortedByObserved(SortByObserved(hashes))
  {
    if hashes != [] {
      SortsByObserved(hashes[..|hashes| - 1]);
      InsertsSorted(SortByObserved(hashes[..|hashes| - 1]), hashes[|hashes| - 1]);
    }
  }

  lemma {:induction false} InsertsSorted(sorted: seq<HashRecord>, h: HashRecord)
    requires SortedByObserved(sorted)
    ensures SortedByObserved(InsertByObserved(sorted, h))
  {
    if sorted != [] && sorted[|sorted| - 1].observedAt > h.observedAt {
      var init, last := sorted[..|sorted| - 1], sorted[|sorted| - 1];
      assert sorted == init + [last];
      InsertsSorted(init, h);
      var r := InsertByObserved(init, h);
      forall i | 0 <= i < |r| ensures r[i].observedAt <= last.observedAt {
        InsertByObservedKeeps(init, h);
        assert r[i] in r;
        if r[i] in init {
          var k :| 0 <= k < |init| && init[k] == r[i];
          assert sorted[k] == r[i];
        }
      }
    }
  }

  // Records

  /** The evidence says that the second hash replaced the first. */
  predicate TookOver(hashes: seq<HashRecord>, hash: Id, next: Id) {
    exists h :: h in hashes && h.hash == hash && h.replacedByHash == Some(next)
  }

  /** The copy with more of the lifecycle behind it, then the one updated later, then the first. */
  predicate IsLater(later: Record, other: Record, existing: Record) {
    || later.revision > other.revision
    || (later.revision == other.revision && later.updatedAt > other.updatedAt)
    || (later.revision == other.revision && later.updatedAt == other.updatedAt && later == existing)
  }

  /** The hash that both copies can agree on: the one of them that has any, or the one that replaced the other's. */
  predicate AgreesOn(existing: Record, incoming: Record, hashes: seq<HashRecord>, agreed: Option<Id>) {
    if existing.activeHash.None? then agreed == incoming.activeHash
    else if incoming.activeHash.None? || incoming.activeHash == existing.activeHash then agreed == existing.activeHash
    else
      var mine, theirs := existing.activeHash.value, incoming.activeHash.value;
      agreed == if TookOver(hashes, mine, theirs) then incoming.activeHash
                else if TookOver(hashes, theirs, mine) then existing.activeHash else None
  }

  predicate Earliest(a: Option<int>, b: Option<int>, r: Option<int>) {
    if a.None? || b.None? then r == (if a.None? then b else a)
    else r.Some? && (r == a || r == b) && r.value <= a.value && r.value <= b.value
  }

  /** Main result on records: two copies of one intent merge into the later one, completed by what only the other
      knows; it has the hash that the evidence lets both agree on and otherwise reconciles, and it counts as
      submitted once a hash is known. */
  lemma MergedRecordIs(existing: Record, incoming: Record) returns (later: Record, other: Record)
    requires existing.reviewed == incoming.reviewed
    ensures IsLater(later, other, existing)
    ensures (later == existing && other == incoming) || (later == incoming && other == existing)
    ensures var m := MergedRecord(existing, incoming);
            var lost := existing.activeHash.Some? && incoming.activeHash.Some? && m.activeHash.None?;
            && m.hashes == MergedHashes(existing.hashes, incoming.hashes)
            && AgreesOn(existing, incoming, m.hashes, m.activeHash)
            && m.status == (if lost then Reconciling
                            else if m.activeHash.Some?
                                 && later.status in {AwaitingWallet, UnknownSubmission, Rejected, Aborted}
                            then Submitted else later.status)
            && m.reason == (if lost then Some(UnlinkedHashes) else later.reason)
            && m.actualNonce == (if later.actualNonce.Some? then later.actualNonce else other.actualNonce)
            && m.receipt == (if later.receipt.Some? then later.receipt else other.receipt)
            && m.compatibility == (if later.compatibility.Some? then later.compatibility else other.compatibility)
            && Earliest(existing.submittedAt, incoming.submittedAt, m.submittedAt)
            && m.timeoutAt in {existing.timeoutAt, incoming.timeoutAt}
            && existing.timeoutAt <= m.timeoutAt && incoming.timeoutAt <= m.timeoutAt
            && m == later.(hashes := m.hashes, activeHash := m.activeHash, status := m.status, reason := m.reason,
                           actualNonce := m.actualNonce, receipt := m.receipt, compatibility := m.compatibility,
                           submittedAt := m.submittedAt, timeoutAt := m.timeoutAt)
  {
    var incomingFirst := Prefers(incoming, existing);
    later, other := if incomingFirst then incoming else existing, if incomingFirst then existing else incoming;
    var hashes := MergedHashes(existing.hashes, incoming.hashes);
    MergedFinds(existing.hashes, incoming.hashes, 0);
    hide MergedHashes;
    if existing.activeHash.Some? && incoming.activeHash.Some? {
      TookOverIff(hashes, existing.activeHash.value, incoming.activeHash.value);
      TookOverIff(hashes, incoming.activeHash.value, existing.activeHash.value);
    }
    hide TookOver, DistinctHashes;
  }

  lemma TookOverIff(hashes: seq<HashRecord>, hash: Id, next: Id)
    requires DistinctHashes(hashes)
    ensures TookOver(hashes, hash, next) <==>
            FindHash(hashes, hash).Some? && FindHash(hashes, hash).value.replacedByHash == Some(next)
  {
    FindHashMember(hashes, hash);
    if h :| h in hashes && h.hash == hash && h.replacedByHash == Some(next) {
      FindHashDistinct(hashes, h);
    }
  }

  /** Copies of different intents under one id do not merge: the first stays. */
  lemma DifferentIntentsStay(existing: Record, incoming: Record)
    ensures existing.reviewed != incoming.reviewed ==> MergedRecord(existing, incoming) == existing
  {
    hide MergedHashes;
  }

  // Journals

  /** Every record of either journal is there: merged with its namesake if it has one, else as it is. */
  ghost predicate HoldsBoth(left: seq<Record>, right: seq<Record>, all: seq<Record>) {
    && (forall l, r :: l in left && r in right && l.id == r.id ==> MergedRecord(l, r) in all)
    && (forall l :: l in left && !HasId(right, l.id) ==> l in all)
    && (forall r :: r in right && !HasId(left, r.id) ==> r in all)
  }

  lemma SameId(records: seq<Record>, a: Record, b: Record)
    requires DistinctIds(records) && a in records && b in records && a.id == b.id
    ensures a == b
  {
    var i :| 0 <= i < |records| && records[i] == a;
    var j :| 0 <= j < |records| && records[j] == b;
    assert i == j;
  }

  lemma JoinOneMore(left: seq<Record>, init: seq<Record>, last: Record, all: seq<Record>)
    requires DistinctIds(left) && DistinctIds(all) && !HasId(init, last.id) && HoldsBoth(left, init, all)
    requires HasId(all, last.id) <==> HasId(left, last.id)
    ensures HoldsBoth(left, init + [last], Joined(all, last))
  {
    hide MergedRecord;
    var i := IndexOf(all, last.id);
    var after := Joined(all, last);
    assert forall x :: x in init + [last] <==> x in init || x == last;
    assert forall id :: HasId(init + [last], id) <==> HasId(init, id) || id == last.id by {
      forall id ensures HasId(init + [last], id) <==> HasId(init, id) || id == last.id {
        AppendedIds(init, last, id);
      }
    }
    if i.None? {
      NoneHasId(all, last.id);
    } else {
      assert all[i.value] in all;
      assert HasId(all, last.id);
      var l :| l in left && l.id == last.id;
      assert l in all;
      SameId(all, l, all[i.value]);
      assert after[i.value] == MergedRecord(l, last);
      forall x | x in left && x.id == last.id ensures x == l {
        SameId(left, x, l);
      }
      OthersStay(all, i.value, after[i.value]);
      forall x, r | x in left && r in init && x.id == r.id ensures MergedRecord(x, r) in after {
        MergedRecordId(x, r);
      }
    }
  }

  lemma NoneHasId(records: seq<Record>, id: Id)
    requires IndexOf(records, id).None?
    ensures !HasId(records, id)
  {
  }

  lemma OthersStay(records: seq<Record>, i: nat, r: Record)
    requires i < |records|
    ensures r in records[i := r]
    ensures forall x :: x in records && x.id != records[i].id ==> x in records[i := r]
  {
    var after := records[i := r];
    assert after[i] == r;
    forall x | x in records && x.id != records[i].id ensures x in after {
      var k :| 0 <= k < |records| && records[k] == x;
      assert after[k] == x;
    }
  }

  lemma {:induction false} JoinedHoldsBoth(left: seq<Record>, right: seq<Record>)
    requires DistinctIds(left) && DistinctIds(right)
    ensures HoldsBoth(left, right, JoinedAll(left, right))
  {
    hide MergedRecord, Joined, HasId, HoldsBoth;
    if right == [] {
      NothingJoins(left);
    } else {
      var init, last := right[..|right| - 1], right[|right| - 1];
      JoinedHoldsBoth(left, init);
      JoinedIds(left, init, last.id);
      assert right == init + [last];
      LastIdIsNew(init, last);
      JoinOneMore(left, init, last, JoinedAll(left, init));
    }
  }

  lemma NothingJoins(left: seq<Record>)
    ensures HoldsBoth(left, [], left)
  {
  }

  lemma LastIdIsNew(init: seq<Record>, last: Record)
    requires DistinctIds(init + [last])
    ensures !HasId(init, last.id)
  {
    forall r | r in init ensures r.id != last.id {
      var i :| 0 <= i < |init| && init[i] == r;
      assert (init + [last])[i] == r && (init + [last])[|init|] == last;
    }
  }

  /** Main result on journals: before bounding, the merge has every id of either journal once, with the two records of
      an id merged, and with any other record as it was; its revision is the greater one. */
  lemma MergeIs(left: State, right: State)
    requires DistinctIds(left.records) && DistinctIds(right.records)
    ensures var all, merged := JoinedAll(FiledAll(left.records), right.records), MergedStates(left, right);
            && DistinctIds(all) && HoldsBoth(left.records, right.records, all)
            && (forall id :: HasId(all, id) <==> HasId(left.records, id) || HasId(right.records, id))
            && (merged.Some? ==>
                  && Bounded(all) == Some(merged.value.records)
                  && merged.value.revision in {left.revision, right.revision}
                  && left.revision <= merged.value.revision && right.revision <= merged.value.revision)
  {
    hide HasId, HoldsBoth, Bounded;
    FiledDistinct(left.records);
    JoinedHoldsBoth(left.records, right.records);
    MergeKeepsIds(left, right);
  }
}
