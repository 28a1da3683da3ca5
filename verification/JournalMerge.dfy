/** Merging two copies of the journal: hash evidence, active hashes, and what a merge keeps. */
module JournalMerge {
  import opened Domain
  import opened Journal

  // Hash evidence

  /** The items about one hash, combined in order. */
  function Combined(e: HashRecord, x: HashRecord): HashRecord {
    HashRecord(e.hash, if x.observedAt < e.observedAt then x.observedAt else e.observedAt,
               e.replacedByHash.Or(x.replacedByHash), e.replacesHash.Or(x.replacesHash),
               if e.role == Replacement || x.role == Replacement then Replacement else FirstSubmitted)
  }

  function FindHash(hashes: seq<HashRecord>, hash: Id): Option<HashRecord> {
    if hashes == [] then None
    else if hashes[0].hash == hash then Some(hashes[0])
    else FindHash(hashes[1..], hash)
  }

  /** The evidence about a hash in a list, all its items combined. */
  function EvidenceOf(items: seq<HashRecord>, hash: Id): Option<HashRecord> {
    if items == [] then None
    else
      var before, last := EvidenceOf(items[..|items| - 1], hash), items[|items| - 1];
      if last.hash != hash then before
      else if before.None? then Some(last)
      else Some(Combined(before.value, last))
  }

  function PutEvidence(merged: seq<HashRecord>, item: HashRecord): seq<HashRecord> {
    if merged == [] then [item]
    else if merged[0].hash == item.hash then [Combined(merged[0], item)] + merged[1..]
    else [merged[0]] + PutEvidence(merged[1..], item)
  }

  function PutAllEvidence(items: seq<HashRecord>): seq<HashRecord> {
    if items == [] then [] else PutEvidence(PutAllEvidence(items[..|items| - 1]), items[|items| - 1])
  }

  function InsertByObserved(sorted: seq<HashRecord>, h: HashRecord): seq<HashRecord> {
    if sorted == [] || sorted[|sorted| - 1].observedAt <= h.observedAt then sorted + [h]
    else InsertByObserved(sorted[..|sorted| - 1], h) + [sorted[|sorted| - 1]]
  }

  function SortByObserved(hashes: seq<HashRecord>): seq<HashRecord> {
    if hashes == [] then [] else InsertByObserved(SortByObserved(hashes[..|hashes| - 1]), hashes[|hashes| - 1])
  }

  function MergedHashes(left: seq<HashRecord>, right: seq<HashRecord>): seq<HashRecord> {
    SortByObserved(PutAllEvidence(left + right))
  }

  ghost predicate DistinctHashes(hashes: seq<HashRecord>) {
    forall i, j :: 0 <= i < j < |hashes| ==> hashes[i].hash != hashes[j].hash
  }

  lemma {:induction false} FindHashMember(hashes: seq<HashRecord>, hash: Id)
    ensures FindHash(hashes, hash).None? <==> forall h :: h in hashes ==> h.hash != hash
    ensures FindHash(hashes, hash).Some? ==>
              FindHash(hashes, hash).value in hashes && FindHash(hashes, hash).value.hash == hash
  {
    if hashes != [] {
      FindHashMember(hashes[1..], hash);
      assert hashes == [hashes[0]] + hashes[1..];
    }
  }

  lemma FindHashDistinct(hashes: seq<HashRecord>, h: HashRecord)
    requires DistinctHashes(hashes) && h in hashes
    ensures FindHash(hashes, h.hash) == Some(h)
  {
    FindHashMember(hashes, h.hash);
    var i :| 0 <= i < |hashes| && hashes[i] == h;
    var j :| 0 <= j < |hashes| && hashes[j] == FindHash(hashes, h.hash).value;
    assert !(i < j) && !(j < i);
  }

  lemma {:induction false} PutEvidenceFinds(merged: seq<HashRecord>, item: HashRecord, hash: Id)
    requires DistinctHashes(merged)
    ensures DistinctHashes(PutEvidence(merged, item))
    ensures forall h :: h in PutEvidence(merged, item) ==> h.hash == item.hash || h in merged
    ensures FindHash(PutEvidence(merged, item), hash)
            == if hash != item.hash then FindHash(merged, hash)
               else if FindHash(merged, hash).None? then Some(item)
               else Some(Combined(FindHash(merged, hash).value, item))
  {
    if merged != [] && merged[0].hash != item.hash {
      var rest := merged[1..];
      PutEvidenceFinds(rest, item, hash);
      var r := PutEvidence(merged, item);
      assert r[1..] == PutEvidence(rest, item);
      forall j | 0 < j < |r|
        ensures r[0].hash != r[j].hash
      {
        assert r[j] in r[1..];
        if r[j] in rest {
          var k :| 0 <= k < |rest| && rest[k] == r[j];
          assert merged[k + 1] == r[j];
        }
      }
    } else if merged != [] {
      var r := PutEvidence(merged, item);
      assert r[1..] == merged[1..];
    }
  }

  /** The merged list holds, for each hash, exactly the combined evidence. */
  lemma {:induction false} PutAllFinds(items: seq<HashRecord>, hash: Id)
    ensures DistinctHashes(PutAllEvidence(items))
    ensures FindHash(PutAllEvidence(items), hash) == EvidenceOf(items, hash)
  {
    if items != [] {
      PutAllFinds(items[..|items| - 1], hash);
      PutEvidenceFinds(PutAllEvidence(items[..|items| - 1]), items[|items| - 1], hash);
    }
  }

  lemma {:induction false} InsertByObservedKeeps(sorted: seq<HashRecord>, h: HashRecord)
    ensures forall x :: x in InsertByObserved(sorted, h) <==> x in sorted || x == h
    ensures DistinctHashes(sorted) && (forall x :: x in sorted ==> x.hash != h.hash) ==>
              DistinctHashes(InsertByObserved(sorted, h))
  {
    if sorted != [] && sorted[|sorted| - 1].observedAt > h.observedAt {
      var init, last := sorted[..|sorted| - 1], sorted[|sorted| - 1];
      assert sorted == init + [last];
      InsertByObservedKeeps(init, h);
      var r := InsertByObserved(init, h);
      forall i | 0 <= i < |r| && DistinctHashes(sorted) && last.hash != h.hash
        ensures r[i].hash != last.hash
      {
        assert r[i] in r;
      }
    }
  }

  lemma {:induction false} SortByObservedKeeps(hashes: seq<HashRecord>)
    requires DistinctHashes(hashes)
    ensures DistinctHashes(SortByObserved(hashes))
    ensures forall x :: x in SortByObserved(hashes) <==> x in hashes
  {
    if hashes != [] {
      var init, last := hashes[..|hashes| - 1], hashes[|hashes| - 1];
      SortByObservedKeeps(init);
      assert hashes == init + [last];
      InsertByObservedKeeps(SortByObserved(init), last);
    }
  }

  lemma SortFinds(hashes: seq<HashRecord>, hash: Id)
    requires DistinctHashes(hashes)
    ensures FindHash(SortByObserved(hashes), hash) == FindHash(hashes, hash)
  {
    SortByObservedKeeps(hashes);
    FindHashMember(hashes, hash);
    FindHashMember(SortByObserved(hashes), hash);
    if FindHash(hashes, hash).Some? {
      FindHashDistinct(SortByObserved(hashes), FindHash(hashes, hash).value);
    }
  }

  /** Merged evidence about a hash is that of both lists combined in order. */
  lemma MergedFinds(left: seq<HashRecord>, right: seq<HashRecord>, hash: Id)
    ensures DistinctHashes(MergedHashes(left, right))
    ensures FindHash(MergedHashes(left, right), hash) == EvidenceOf(left + right, hash)
  {
    PutAllFinds(left + right, hash);
    SortFinds(PutAllEvidence(left + right), hash);
    SortByObservedKeeps(PutAllEvidence(left + right));
  }

  /** Evidence exists for a hash exactly if an item names it, and carries the earliest of its observation times. */
  lemma {:induction false} EvidenceEarliest(items: seq<HashRecord>, hash: Id)
    ensures EvidenceOf(items, hash).Some? <==> exists x :: x in items && x.hash == hash
    ensures EvidenceOf(items, hash).Some? ==>
              && EvidenceOf(items, hash).value.hash == hash
              && (forall x :: x in items && x.hash == hash ==> EvidenceOf(items, hash).value.observedAt <= x.observedAt)
              && (exists x :: x in items && x.hash == hash && x.observedAt == EvidenceOf(items, hash).value.observedAt)
  {
    if items != [] {
      var init, last := items[..|items| - 1], items[|items| - 1];
      assert items == init + [last];
      EvidenceEarliest(init, hash);
      if last.hash == hash {
        assert last in items;
      }
      if EvidenceOf(init, hash).Some? {
        var x :| x in init && x.hash == hash && x.observedAt == EvidenceOf(init, hash).value.observedAt;
        assert x in items;
      }
    }
  }

  /** Main result on evidence: the merged list names exactly the hashes of either list, each once, with the earliest
      time at which either list observed it. */
  lemma EvidenceUnion(left: seq<HashRecord>, right: seq<HashRecord>)
    ensures DistinctHashes(MergedHashes(left, right))
    ensures forall hash :: HasHash(MergedHashes(left, right), hash) <==> HasHash(left, hash) || HasHash(right, hash)
    ensures forall m, x :: m in MergedHashes(left, right) && (x in left || x in right) && x.hash == m.hash ==>
                             m.observedAt <= x.observedAt
    ensures forall m :: m in MergedHashes(left, right) ==> ObservedIn(left + right, m)
  {
    var merged := MergedHashes(left, right);
    MergedFinds(left, right, 0);
    forall hash
      ensures HasHash(merged, hash) <==> HasHash(left, hash) || HasHash(right, hash)
    {
      MergedFinds(left, right, hash);
      FindHashMember(merged, hash);
      EvidenceEarliest(left + right, hash);
    }
    forall m | m in merged
      ensures ObservedIn(left + right, m)
      ensures forall x :: (x in left || x in right) && x.hash == m.hash ==> m.observedAt <= x.observedAt
    {
      MergedFinds(left, right, m.hash);
      FindHashDistinct(merged, m);
      EvidenceEarliest(left + right, m.hash);
    }
  }

  ghost predicate ObservedIn(items: seq<HashRecord>, m: HashRecord) {
    exists x :: x in items && x.hash == m.hash && x.observedAt == m.observedAt
  }

  // Records

  function MergedActiveHash(left: Option<Id>, right: Option<Id>, hashes: seq<HashRecord>): Option<Id> {
    if left.None? then right
    else if right.None? || left == right then left
    else
      var l, r := FindHash(hashes, left.value), FindHash(hashes, right.value);
      if l.Some? && l.value.replacedByHash == right then right
      else if r.Some? && r.value.replacedByHash == left then left
      else None
  }

  function MergedStatus(preferred: Record, activeHash: Option<Id>, ambiguous: bool): Status {
    if ambiguous then Reconciling
    else if activeHash.Some? && (preferred.status == AwaitingWallet || preferred.status == UnknownSubmission
                                 || preferred.status == Rejected || preferred.status == Aborted) then Submitted
    else preferred.status
  }

  function MinNullable(a: Option<int>, b: Option<int>): Option<int> {
    if a.None? then b else if b.None? then a else Some(if b.value < a.value then b.value else a.value)
  }

  predicate SameSemantics(a: Reviewed, b: Reviewed) {
    && a.intent == b.intent && a.contracts == b.contracts && a.pool == b.pool && a.target == b.target
    && a.recipient == b.recipient && a.refundRecipient == b.refundRecipient && a.calldata == b.calldata
    && a.value == b.value && a.settings == b.settings && a.execution == b.execution && a.scope == b.scope
  }

  predicate Prefers(incoming: Record, existing: Record) {
    incoming.revision > existing.revision
    || (incoming.revision == existing.revision && incoming.updatedAt > existing.updatedAt)
  }

  function MergedRecord(existing: Record, incoming: Record): Record {
    if !SameSemantics(existing.reviewed, incoming.reviewed) then existing
    else
      var preferred := if Prefers(incoming, existing) then incoming else existing;
      var other := if Prefers(incoming, existing) then existing else incoming;
      var hashes := MergedHashes(existing.hashes, incoming.hashes);
      var activeHash := MergedActiveHash(existing.activeHash, incoming.activeHash, hashes);
      var ambiguous := existing.activeHash.Some? && incoming.activeHash.Some? && activeHash.None?;
      preferred.(actualNonce := preferred.actualNonce.Or(other.actualNonce), activeHash := activeHash,
                 receipt := preferred.receipt.Or(other.receipt), hashes := hashes,
                 reason := if ambiguous then Some(UnlinkedHashes) else preferred.reason,
                 compatibility := preferred.compatibility.Or(other.compatibility),
                 status := MergedStatus(preferred, activeHash, ambiguous),
                 submittedAt := MinNullable(existing.submittedAt, incoming.submittedAt),
                 timeoutAt := if incoming.timeoutAt > existing.timeoutAt then incoming.timeoutAt else existing.timeoutAt)
  }

  /** Merging keeps the identity, all evidence, and the greater lifecycle revision. */
  lemma MergedRecordKeeps(existing: Record, incoming: Record)
    requires SameSemantics(existing.reviewed, incoming.reviewed) && existing.id == incoming.id
    ensures var m := MergedRecord(existing, incoming);
            && m.id == existing.id && m.reviewed == existing.reviewed
            && m.revision == (if incoming.revision > existing.revision then incoming.revision else existing.revision)
            && (forall hash :: HasHash(m.hashes, hash) <==> HasHash(existing.hashes, hash) || HasHash(incoming.hashes, hash))
  {
    hide MergedHashes, HasHash;
    EvidenceUnion(existing.hashes, incoming.hashes);
  }

  // A step and its persisted merge

  lemma {:induction false} EvidenceConcat(a: seq<HashRecord>, b: seq<HashRecord>, hash: Id)
    requires DistinctHashes(b)
    ensures EvidenceOf(a + b, hash)
            == if FindHash(b, hash).None? then EvidenceOf(a, hash)
               else if EvidenceOf(a, hash).None? then FindHash(b, hash)
               else Some(Combined(EvidenceOf(a, hash).value, FindHash(b, hash).value))
  {
    if b == [] {
      assert a + b == a;
    } else {
      var init, last := b[..|b| - 1], b[|b| - 1];
      assert (a + b)[..|a + b| - 1] == a + init;
      EvidenceConcat(a, init, hash);
      assert b == init + [last];
      FindHashMember(init, hash);
      FindHashMember(b, hash);
      if last.hash == hash {
        FindHashDistinct(b, last);
        assert FindHash(init, hash).None?;
      } else if FindHash(init, hash).Some? {
        FindHashDistinct(b, FindHash(init, hash).value);
      }
    }
  }

  lemma EvidenceDistinct(hashes: seq<HashRecord>, hash: Id)
    requires DistinctHashes(hashes)
    ensures EvidenceOf(hashes, hash) == FindHash(hashes, hash)
  {
    assert [] + hashes == hashes;
    EvidenceConcat([], hashes, hash);
  }

  lemma {:induction false} FindAppended(hashes: seq<HashRecord>, h: HashRecord, hash: Id)
    ensures FindHash(hashes + [h], hash)
            == if FindHash(hashes, hash).Some? then FindHash(hashes, hash)
               else if h.hash == hash then Some(h) else None
  {
    if hashes != [] {
      FindAppended(hashes[1..], h, hash);
      assert (hashes + [h])[1..] == hashes[1..] + [h];
    } else {
      assert (hashes + [h])[1..] == [];
    }
  }

  lemma {:induction false} FindLinked(hashes: seq<HashRecord>, replaced: Id, replacement: Id, hash: Id)
    ensures FindHash(LinkReplaced(hashes, replaced, replacement), hash)
            == match FindHash(hashes, hash)
               case None => None
               case Some(h) => Some(if hash == replaced then h.(replacedByHash := Some(replacement)) else h)
  {
    if hashes != [] {
      FindLinked(hashes[1..], replaced, replacement, hash);
      assert LinkReplaced(hashes, replaced, replacement)[1..] == LinkReplaced(hashes[1..], replaced, replacement);
    }
  }

  lemma ReplacementDistinct(hashes: seq<HashRecord>, replaced: Id, replacement: Id, now: int)
    requires DistinctHashes(hashes)
    ensures DistinctHashes(AppendReplacement(hashes, replaced, replacement, now))
  {
    var linked := LinkReplaced(hashes, replaced, replacement);
    assert forall i :: 0 <= i < |hashes| ==> linked[i].hash == hashes[i].hash;
  }

  lemma ReplacementFinds(hashes: seq<HashRecord>, replaced: Id, replacement: Id, now: int, hash: Id)
    requires hash == replaced || hash == replacement
    requires replaced != replacement && HasHash(hashes, replaced)
    ensures var found := FindHash(AppendReplacement(hashes, replaced, replacement, now), hash);
            && found.Some?
            && (hash == replaced ==> found.value.replacedByHash == Some(replacement))
            && (hash == replacement ==>
                  found.value.replacedByHash
                  == match FindHash(hashes, hash) case None => None case Some(h) => h.replacedByHash)
  {
    var linked := LinkReplaced(hashes, replaced, replacement);
    FindLinked(hashes, replaced, replacement, hash);
    FindHashMember(hashes, hash);
    FindHashMember(linked, hash);
    FindHashMember(linked, replacement);
    FindAppended(linked, HashRecord(replacement, now, None, Some(replaced), Replacement), hash);
  }

  /** The hash that earlier evidence says replaced `hash`. */
  function ReplacedBy(hashes: seq<HashRecord>, hash: Id): Option<Id> {
    match FindHash(hashes, hash)
    case None => None
    case Some(h) => h.replacedByHash
  }

  /** A step that replaces the active hash `a` by `b`, merged with the copy from before the step, keeps `b` active
      exactly when no other replacement of `a` was recorded before. Otherwise the stale `a` comes back if `b` was
      once recorded as replaced by `a`, and else no active hash is left and the record reconciles. */
  lemma PersistedActiveHashIff(r: Record, next: Record, now: int)
    requires r.activeHash.Some? && next.activeHash.Some? && r.activeHash != next.activeHash
    requires DistinctHashes(r.hashes) && HasHash(r.hashes, r.activeHash.value)
    requires next.hashes == AppendReplacement(r.hashes, r.activeHash.value, next.activeHash.value, now)
    requires SameSemantics(r.reviewed, next.reviewed)
    ensures var m := MergedRecord(r, next);
            var recorded := ReplacedBy(r.hashes, r.activeHash.value);
            && (m.activeHash == next.activeHash <==> recorded.None? || recorded == next.activeHash)
            && (recorded.Some? && recorded != next.activeHash ==>
                  m.activeHash == (if ReplacedBy(r.hashes, next.activeHash.value) == r.activeHash then r.activeHash else None)
                  && (m.activeHash.None? ==> m.status == Reconciling))
  {
    hide AppendReplacement, MergedHashes;
    var a, b := r.activeHash.value, next.activeHash.value;
    StepEvidence(r.hashes, a, b, now, a);
    StepEvidence(r.hashes, a, b, now, b);
  }

  lemma StepEvidence(hashes: seq<HashRecord>, a: Id, b: Id, now: int, hash: Id)
    requires DistinctHashes(hashes) && HasHash(hashes, a) && a != b && (hash == a || hash == b)
    ensures var found := FindHash(MergedHashes(hashes, AppendReplacement(hashes, a, b, now)), hash);
            && found.Some?
            && (hash == a ==> found.value.replacedByHash == ReplacedBy(hashes, a).Or(Some(b)))
            && (hash == b ==> found.value.replacedByHash == ReplacedBy(hashes, b))
  {
    hide AppendReplacement, MergedHashes;
    var after := AppendReplacement(hashes, a, b, now);
    MergedFinds(hashes, after, hash);
    ReplacementDistinct(hashes, a, b, now);
    EvidenceConcat(hashes, after, hash);
    EvidenceDistinct(hashes, hash);
    ReplacementFinds(hashes, a, b, now, hash);
  }
}
