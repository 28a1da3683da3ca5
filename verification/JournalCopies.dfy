/** Copies of journal records: what the loader gives back, when two copies are of one lifecycle revision, and what
    merging and stepping such copies can do.
    A step or a merge keeps identity and reviewed intent, a resolved or awaiting record stays without a hash, and a
    record joined from two lists is one of theirs or the merge of two of one id. */
module JournalCopies {
  import opened Domain
  import opened Journal
  import opened JournalRuns
  import opened JournalMerge
  import opened JournalJoin

  // Loading

  function Accepted(records: seq<Record>): seq<Record> {
    if records == [] then []
    else
      var rest, last := Accepted(records[..|records| - 1]), records[|records| - 1];
      if LoaderAccepts(last) then rest + [last] else rest
  }

  /** What storage gives back: records the loader accepts, bounded; nothing at all when bounding throws. */
  function Loaded(s: State): State {
    var bounded := Bounded(SortByCreated(Accepted(s.records)));
    if bounded.None? then EMPTY else State(bounded.value, s.revision)
  }

  lemma {:induction false} AcceptedMembers(records: seq<Record>)
    requires DistinctIds(records)
    ensures forall r :: r in Accepted(records) ==> r in records
    ensures DistinctIds(Accepted(records)) && |Accepted(records)| <= |records|
  {
    hide LoaderAccepts;
    if records != [] {
      var init := records[..|records| - 1];
      AcceptedMembers(init);
      FreshLast(records);
      AppendDistinct(Accepted(init), records[|records| - 1]);
    }
  }

  lemma LoadedMembers(s: State)
    requires DistinctIds(s.records)
    ensures forall r :: r in Loaded(s).records ==> r in s.records
    ensures DistinctIds(Loaded(s).records) && |Loaded(s).records| <= MAX_RECORDS
  {
    hide DistinctIds, Bounded, LoaderAccepts;
    NoRecordsDistinct();
    AcceptedMembers(s.records);
    SortByCreatedMembers(Accepted(s.records));
    SortByCreatedDistinct(Accepted(s.records));
    BoundedKeeps(SortByCreated(Accepted(s.records)));
  }

  lemma {:induction false} AcceptedOnly(records: seq<Record>)
    ensures forall r :: r in Accepted(records) ==> LoaderAccepts(r)
  {
    hide LoaderAccepts;
    if records != [] {
      AcceptedOnly(records[..|records| - 1]);
    }
  }

  /** Whatever storage gives back, the loader accepted. */
  lemma LoadedAccepted(s: State)
    requires DistinctIds(s.records)
    ensures forall r :: r in Loaded(s).records ==> r in s.records && LoaderAccepts(r)
  {
    hide DistinctIds, Bounded, LoaderAccepts;
    LoadedMembers(s);
    AcceptedMembers(s.records);
    AcceptedOnly(s.records);
    SortByCreatedMembers(Accepted(s.records));
    SortByCreatedDistinct(Accepted(s.records));
    BoundedKeeps(SortByCreated(Accepted(s.records)));
  }

  lemma NoRecordsDistinct()
    ensures DistinctIds([])
  {
  }

  // The protocol as functions

  /** Checks and deferrals are dropped when the record is gone or has moved on. */
  predicate Applies(s: State, a: Action) {
    match a
    case Check(id, revision, _) => exists r :: r in s.records && r.id == id && r.revision == revision
    case Defer(id, revision, _) => exists r :: r in s.records && r.id == id && r.revision == revision
    case _ => true
  }

  function Persisted(storage: State, next: State): Option<State> {
    MergedStates(Loaded(storage), next)
  }

  /** A record as it was begun: no wallet result, no check, no hash. The loader always gives it back. */
  predicate Pristine(r: Record) {
    && r.status == AwaitingWallet && r.activeHash.None? && r.actualNonce.None? && r.hashes == []
    && r.receipt.None? && r.submittedAt.None? && !r.finalized
  }

  lemma PristineLoads(r: Record)
    requires Pristine(r)
    ensures LoaderAccepts(r) && NeedsMonitoring(r)
  {
  }

  lemma PristineMerge(r: Record)
    requires Pristine(r)
    ensures Pristine(MergedRecord(r, r))
  {
    assert [] + r.hashes == [];
    assert MergedHashes([], []) == [];
  }

  /** The loader keeps every open record that it accepts. */
  lemma LoadedKeeps(s: State, r: Record)
    requires DistinctIds(s.records) && |s.records| <= MAX_RECORDS && r in s.records && LoaderAccepts(r)
    ensures r in Loaded(s).records
  {
    hide LoaderAccepts, DistinctIds, NeedsMonitoring, Bounded;
    AcceptedMembers(s.records);
    AcceptedHas(s.records, r);
    var sorted := SortByCreated(Accepted(s.records));
    SortByCreatedMembers(Accepted(s.records));
    SortByCreatedDistinct(Accepted(s.records));
    BoundedKeeps(sorted);
    OpenOfMembers(sorted);
  }

  lemma {:induction false} AcceptedHas(records: seq<Record>, r: Record)
    requires r in records && LoaderAccepts(r)
    ensures r in Accepted(records)
  {
    hide LoaderAccepts;
    var init, last := records[..|records| - 1], records[|records| - 1];
    assert records == init + [last];
    if r in init {
      AcceptedHas(init, r);
    }
  }

  // Copies of one record

  /** Resolved and awaiting records carry no hash. */
  predicate ClosedHashless(r: Record) {
    r.status == Rejected || r.status == Aborted || r.status == AwaitingWallet ==> r.activeHash.None?
  }

  /** A hash is known or being looked for. */
  predicate Pending(s: Status) {
    s == Submitted || s == UnknownSubmission
  }

  /** Copies of one lifecycle revision: at most one of them says "unknown" where the other says "submitted". */
  predicate Twin(t: Record, s: Record) {
    && t.id == s.id && t.reviewed == s.reviewed && t.activeHash == s.activeHash && t.revision == s.revision
    && t.updatedAt == s.updatedAt && t.compatibility == s.compatibility && t.confirmations == s.confirmations
    && t.finalized == s.finalized
    && (t.status == s.status || (t.activeHash.Some? && Pending(t.status) && Pending(s.status)))
  }

  lemma TwinChain(a: Record, b: Record, c: Record)
    requires Twin(a, b) && Twin(b, c)
    ensures Twin(a, c)
  {
  }

  lemma TwinSame(t: Record, s: Record)
    requires Twin(t, s)
    ensures Twin(s, t) && t.id == s.id && t.reviewed == s.reviewed && t.revision == s.revision
    ensures ClosedHashless(t) <==> ClosedHashless(s)
    ensures BlocksFamily(t) <==> BlocksFamily(s)
    ensures NeedsMonitoring(t) <==> NeedsMonitoring(s)
    ensures t.status == AwaitingWallet <==> s.status == AwaitingWallet
  {
  }

  lemma TwinMerge(t: Record, s: Record)
    requires Twin(t, s) && ClosedHashless(t)
    ensures Twin(MergedRecord(t, s), s) && ClosedHashless(MergedRecord(t, s))
  {
    hide MergedHashes;
  }

  lemma MergedClosedHashless(l: Record, n: Record)
    requires ClosedHashless(l)
    ensures ClosedHashless(MergedRecord(l, n))
  {
    hide MergedHashes, MergedActiveHash;
  }

  lemma StepClosedHashless(s: State, a: Action, r: Record)
    requires Possible(s, a) && r in s.records && ClosedHashless(r)
    ensures ClosedHashless(RecordStep(r, a))
  {
    hide Observed, AppendHash;
    if a.Check? && a.id == r.id {
      ObservedStatus(r, a.observation);
    }
  }

  predicate IsLive(s: Status) {
    s != Rejected && s != Aborted && s != AwaitingWallet
  }

  lemma ObservedStatus(r: Record, o: Report)
    requires IsLive(r.status)
    ensures IsLive(Observed(r, o, CONFIRMATIONS).status)
  {
    hide WithReceipt, WithIncompatibleReceipt, Bound, Waited, MatchesIdentity, MatchesReviewed, WasReceived, Checked;
    CheckedStatus(r, o);
    ReceiptStatus(Checked(r, o), o);
    if o.transaction.Some? {
      BoundStatus(r, o, o.transaction.value);
      ReceiptStatus(Bound(r, o, o.transaction.value), o);
    }
    WaitedStatus(r, Checked(r, o), o);
  }

  lemma CheckedStatus(r: Record, o: Report)
    ensures Checked(r, o).status == r.status && Checked(r, o).activeHash == r.activeHash
  {
  }

  lemma ReceiptStatus(r: Record, o: Report)
    requires IsLive(r.status)
    ensures IsLive(WithReceipt(r, o, CONFIRMATIONS).status)
    ensures r.activeHash.Some? ==> IsLive(WithIncompatibleReceipt(r, o, CONFIRMATIONS).status)
  {
  }

  lemma BoundStatus(r: Record, o: Report, t: Transaction)
    requires IsLive(r.status)
    ensures IsLive(Bound(r, o, t).status) && Bound(r, o, t).activeHash.Some?
  {
    hide AppendHash, AppendReplacement;
  }

  lemma WaitedStatus(r: Record, base: Record, o: Report)
    ensures IsLive(Waited(r, base, o).status)
  {
  }

  /** Only records that block their family are ever changed, and every change moves their revision on. */
  lemma ChangedWasOpen(s: State, a: Action, r: Record)
    requires Possible(s, a) && r in s.records && RecordStep(r, a) != r
    ensures BlocksFamily(r)
  {
    hide Observed, AppendHash;
    BlocksFamilyIffMonitored(r);
  }

  /** A step that changes a record moves its revision on. */
  lemma StepAdvances(r: Record, a: Action)
    ensures RecordStep(r, a) == r || RecordStep(r, a).revision == r.revision + 1
  {
    hide Observed, AppendHash, WalletResultAllowed;
    if a.Check? {
      ObservedAdvances(r, a.observation, CONFIRMATIONS);
    }
  }

  lemma MergedIdentity(l: Record, n: Record)
    requires l.id == n.id && l.reviewed == n.reviewed
    ensures MergedRecord(l, n).id == l.id && MergedRecord(l, n).reviewed == l.reviewed
    ensures MergedRecord(l, n).revision == if n.revision > l.revision then n.revision else l.revision
  {
    hide MergedHashes, MergedActiveHash;
  }

  // Joining lists of copies

  ghost predicate AllClosedHashless(records: seq<Record>) {
    forall r :: r in records ==> ClosedHashless(r)
  }

  /** Every record of `copies` has a twin among `records`. */
  ghost predicate Covers(records: seq<Record>, copies: seq<Record>) {
    forall s :: s in copies ==> HasTwin(records, s)
  }

  ghost predicate HasTwin(records: seq<Record>, s: Record) {
    exists t :: t in records && Twin(t, s)
  }

  lemma SameRecord(records: seq<Record>, a: Record, b: Record)
    requires DistinctIds(records) && a in records && b in records && a.id == b.id
    ensures a == b
  {
    var i :| 0 <= i < |records| && records[i] == a;
    var j :| 0 <= j < |records| && records[j] == b;
    OneIndex(records, i, j);
  }

  lemma OneIndex(records: seq<Record>, i: nat, k: nat)
    requires DistinctIds(records) && i < |records| && k < |records| && records[i].id == records[k].id
    ensures i == k
  {
  }

  /** Copies of the same id are twins of each other. */
  lemma CoveredTwins(known: seq<Record>, a: seq<Record>, b: seq<Record>, x: Record, y: Record)
    requires DistinctIds(known) && AllClosedHashless(known) && Covers(known, a) && Covers(known, b)
    requires x in a && y in b && x.id == y.id
    ensures Twin(x, y) && ClosedHashless(x) && ClosedHashless(y)
  {
    hide Twin, ClosedHashless, DistinctIds;
    assert HasTwin(known, x) && HasTwin(known, y);
    var t :| t in known && Twin(t, x);
    var u :| u in known && Twin(u, y);
    TwinSame(t, x);
    TwinSame(u, y);
    SameRecord(known, t, u);
    TwinChain(x, t, y);
  }

  /** Joining two lists of copies gives copies. */
  lemma JoinedCovered(known: seq<Record>, left: seq<Record>, right: seq<Record>)
    requires DistinctIds(known) && AllClosedHashless(known) && Covers(known, left) && Covers(known, right)
    requires DistinctIds(left) && DistinctIds(right)
    ensures Covers(known, JoinedAll(left, right))
  {
    hide Twin, ClosedHashless, DistinctIds, MergedRecord;
    forall p | p in JoinedAll(left, right)
      ensures HasTwin(known, p)
    {
      JoinedFrom(left, right, p);
      if p in left || p in right {
        assert HasTwin(known, p);
      } else {
        var l, n :| l in left && n in right && l.id == n.id && p == MergedRecord(l, n);
        MergedCovered(known, left, right, l, n);
      }
    }
  }

  lemma MergedCovered(known: seq<Record>, left: seq<Record>, right: seq<Record>, l: Record, n: Record)
    requires DistinctIds(known) && AllClosedHashless(known) && Covers(known, left) && Covers(known, right)
    requires l in left && n in right && l.id == n.id
    ensures HasTwin(known, MergedRecord(l, n)) && Twin(MergedRecord(l, n), n)
  {
    hide Twin, ClosedHashless, DistinctIds, MergedRecord;
    CoveredTwins(known, left, right, l, n);
    TwinMerge(l, n);
    assert HasTwin(known, n);
    var t :| t in known && Twin(t, n);
    TwinSame(MergedRecord(l, n), n);
    TwinChain(t, n, MergedRecord(l, n));
  }

  lemma PrefixDistinct(records: seq<Record>)
    requires DistinctIds(records) && records != []
    ensures DistinctIds(records[..|records| - 1])
  {
  }

  lemma FreshCopy(records: seq<Record>)
    requires DistinctIds(records) && records != []
    ensures forall x :: x in records[..|records| - 1] ==> x.id != records[|records| - 1].id
  {
    FreshLast(records);
  }

  /** What a joined list can hold. */
  ghost predicate FromEither(p: Record, left: seq<Record>, right: seq<Record>) {
    || p in left || p in right
    || (exists l, n :: l in left && n in right && l.id == n.id && p == MergedRecord(l, n))
  }

  lemma {:induction false} JoinedFrom(left: seq<Record>, right: seq<Record>, p: Record)
    requires DistinctIds(left) && DistinctIds(right) && p in JoinedAll(left, right)
    ensures FromEither(p, left, right)
    ensures p in left || exists n :: n in right && n.id == p.id
    decreases |right|
  {
    hide MergedRecord, DistinctIds, FromEither;
    if right == [] {
      LeftOnly(p, left);
    } else {
      var init, last := right[..|right| - 1], right[|right| - 1];
      PrefixDistinct(right);
      FreshCopy(right);
      assert right == init + [last];
      var so := JoinedAll(left, init);
      var i := IndexOf(so, last.id);
      if p in so {
        JoinedFrom(left, init, p);
        EitherGrows(p, left, init, last);
      } else if i.Some? {
        JoinedFrom(left, init, so[i.value]);
        assert p == MergedRecord(so[i.value], last);
        MergedRecordId(so[i.value], last);
        MergedFromLeft(p, so[i.value], left, init, last);
      } else {
        assert p == last;
        RightOnly(p, left, right);
      }
    }
  }

  lemma LeftOnly(p: Record, left: seq<Record>)
    requires p in left
    ensures FromEither(p, left, [])
  {
  }

  lemma RightOnly(p: Record, left: seq<Record>, right: seq<Record>)
    requires p in right
    ensures FromEither(p, left, right)
  {
  }

  lemma EitherGrows(p: Record, left: seq<Record>, right: seq<Record>, last: Record)
    requires FromEither(p, left, right)
    ensures FromEither(p, left, right + [last])
  {
    hide MergedRecord;
    if !(p in left || p in right) {
      var l, n :| l in left && n in right && l.id == n.id && p == MergedRecord(l, n);
      assert n in right + [last];
    }
  }

  lemma MergedFromLeft(p: Record, l: Record, left: seq<Record>, init: seq<Record>, last: Record)
    requires l in left || exists n :: n in init && n.id == l.id
    requires forall x :: x in init ==> x.id != last.id
    requires l.id == last.id && p == MergedRecord(l, last) && p.id == l.id
    ensures FromEither(p, left, init + [last])
    ensures exists n :: n in init + [last] && n.id == p.id
  {
    hide MergedRecord;
    assert l in left;
    assert last in init + [last];
  }
}
