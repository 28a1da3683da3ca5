/** The journal provider of one tab: every change is made under the lock to the merge of memory and storage, and
    persisted by merging it with storage once more. The protocol keeps at most one open remove-liquidity record
    per family, although memory can be behind storage, stored copies can be behind memory, and the loader drops
    some of them. An archive of all the tab has seen, which no code holds, ties these copies together. */
module JournalProvider {
  import opened Domain
  import opened Journal
  import opened JournalRuns
  import opened JournalMerge
  import opened JournalJoin
  import opened JournalCopies

  // Filing over an archive

  /** The archive with the given records filed over it, one per id. */
  ghost function FiledOver(known: seq<Record>, records: seq<Record>): seq<Record> {
    if records == [] then known
    else Filed(FiledOver(known, records[..|records| - 1]), records[|records| - 1])
  }

  lemma FiledOne(known: seq<Record>, r: Record)
    requires DistinctIds(known)
    ensures DistinctIds(Filed(known, r))
    ensures forall k :: k in Filed(known, r) <==> k == r || (k in known && k.id != r.id)
  {
    var i := IndexOf(known, r.id);
    if i.Some? {
      ReplacedIds(known, i.value, r, r.id);
      var filed := known[i.value := r];
      assert filed[i.value] == r;
      forall k
        ensures k in filed <==> k == r || (k in known && k.id != r.id)
      {
        if k in known && k.id != r.id {
          var n :| 0 <= n < |known| && known[n] == k;
          assert filed[n] == k;
        }
        if k in filed && k != r {
          var n :| 0 <= n < |filed| && filed[n] == k;
          OtherId(known, n, i.value);
        }
      }
    } else {
      AppendDistinct(known, r);
    }
  }

  lemma OtherId(records: seq<Record>, n: nat, i: nat)
    requires DistinctIds(records) && n < |records| && i < |records| && n != i
    ensures records[n].id != records[i].id
  {
  }

  /** The filed archive holds the records, and what it held under other ids. */
  lemma {:induction false} FiledOverHolds(known: seq<Record>, records: seq<Record>)
    requires DistinctIds(known) && DistinctIds(records)
    ensures DistinctIds(FiledOver(known, records))
    ensures forall k :: k in FiledOver(known, records) <==>
                        k in records || (k in known && !HasId(records, k.id))
  {
    hide DistinctIds, Filed, HasId;
    if records == [] {
      NoneHeld(known);
    } else {
      var init, last := records[..|records| - 1], records[|records| - 1];
      assert records == init + [last];
      PrefixDistinct(records);
      FreshCopy(records);
      FiledOverHolds(known, init);
      FiledOne(FiledOver(known, init), last);
      forall k
        ensures k in FiledOver(known, records) <==> k in records || (k in known && !HasId(records, k.id))
      {
        AppendedIds(init, last, k.id);
        OwnId(init, k);
      }
    }
  }

  lemma OwnId(records: seq<Record>, k: Record)
    ensures k in records ==> HasId(records, k.id)
  {
  }

  lemma NoneHeld(known: seq<Record>)
    ensures forall k: Record :: !HasId([], k.id)
  {
  }

  // The invariant

  ghost predicate ArchiveOk(known: seq<Record>) {
    && DistinctIds(known) && FamiliesUnique(known) && AllClosedHashless(known)
    && |OpenOf(known)| <= MAX_RECORDS
  }

  ghost predicate PristineIn(records: seq<Record>, id: Id) {
    exists r :: r in records && r.id == id && Pristine(r)
  }

  /** An open record of the archive is in memory, or storage gives it back as it was begun. */
  ghost predicate Visible(known: seq<Record>, memory: seq<Record>, given: seq<Record>) {
    forall k :: k in known && NeedsMonitoring(k) ==> HasId(memory, k.id) || PristineIn(given, k.id)
  }

  /** Memory and what storage gives back hold copies of archived records, and merging them shows every open one. */
  ghost predicate ProviderOk(known: seq<Record>, state: State, storage: State) {
    && ArchiveOk(known)
    && DistinctIds(state.records) && DistinctIds(storage.records) && |storage.records| <= MAX_RECORDS
    && Covers(known, state.records) && Covers(known, Loaded(storage).records)
    && Visible(known, state.records, Loaded(storage).records)
  }

  /** Each record belongs to an archived one: it blocks a family only if that did, and it is a twin or of a later
      revision. */
  ghost predicate Grown(known: seq<Record>, p: Record) {
    exists k :: k in known && GrownFrom(k, p)
  }

  predicate GrownFrom(k: Record, p: Record) {
    && k.id == p.id && k.reviewed == p.reviewed && (BlocksFamily(p) ==> BlocksFamily(k))
    && (Twin(k, p) || p.revision > k.revision)
  }

  ghost predicate AllGrown(known: seq<Record>, records: seq<Record>) {
    forall p :: p in records ==> Grown(known, p)
  }

  lemma GrownFamilies(known: seq<Record>, records: seq<Record>)
    requires AllGrown(known, records) && FamiliesUnique(known)
    ensures FamiliesUnique(records)
  {
    hide BlocksFamily, SameFamily, Twin;
    forall a, b | a in records && b in records && SameFamily(a.reviewed, b.reviewed)
                  && BlocksFamily(a) && BlocksFamily(b)
      ensures a.id == b.id
    {
      assert Grown(known, a) && Grown(known, b);
      var x :| x in known && GrownFrom(x, a);
      var y :| y in known && GrownFrom(y, b);
    }
  }

  lemma CoveredGrown(known: seq<Record>, p: Record)
    requires HasTwin(known, p)
    ensures Grown(known, p)
  {
    hide Twin, BlocksFamily;
    var t :| t in known && Twin(t, p);
    TwinSame(t, p);
    assert GrownFrom(t, p);
  }

  /** Copies of a good archive hold one open record per family. */
  lemma CoveredFamilies(known: seq<Record>, records: seq<Record>)
    requires ArchiveOk(known) && Covers(known, records)
    ensures FamiliesUnique(records) && AllClosedHashless(records)
  {
    hide Twin, ClosedHashless, FamiliesUnique, GrownFrom, DistinctIds;
    forall p | p in records
      ensures Grown(known, p) && ClosedHashless(p)
    {
      assert HasTwin(known, p);
      CoveredGrown(known, p);
      var t :| t in known && Twin(t, p);
      TwinSame(t, p);
    }
    GrownFamilies(known, records);
  }

  // Counting open records

  ghost function IdsIn(records: seq<Record>): set<Id> {
    set r | r in records :: r.id
  }

  lemma {:induction false} DistinctCount(records: seq<Record>)
    requires DistinctIds(records)
    ensures |IdsIn(records)| == |records|
  {
    if records != [] {
      var init, last := records[..|records| - 1], records[|records| - 1];
      assert records == init + [last];
      FreshCopy(records);
      DistinctCount(init);
      assert IdsIn(records) == IdsIn(init) + {last.id};
    }
  }

  lemma {:induction false} SmallerSubset(a: set<Id>, b: set<Id>)
    requires a <= b
    ensures |a| <= |b|
    decreases |a|
  {
    if a != {} {
      var x :| x in a;
      SmallerSubset(a - {x}, b - {x});
    }
  }

  /** If every open record of one list has an open namesake in another, the other has no fewer open ones. */
  lemma OpenCount(a: seq<Record>, b: seq<Record>)
    requires DistinctIds(a) && DistinctIds(b)
    requires forall x :: x in a && NeedsMonitoring(x) ==> OpenIn(b, x.id)
    ensures |OpenOf(a)| <= |OpenOf(b)|
  {
    hide NeedsMonitoring, DistinctIds;
    OpenOfMembers(a);
    OpenOfMembers(b);
    PartsDistinct(a);
    PartsDistinct(b);
    DistinctCount(OpenOf(a));
    DistinctCount(OpenOf(b));
    forall id | id in IdsIn(OpenOf(a))
      ensures id in IdsIn(OpenOf(b))
    {
      var x :| x in OpenOf(a) && x.id == id;
      assert OpenIn(b, x.id);
      var y :| y in b && y.id == x.id && NeedsMonitoring(y);
      assert y in OpenOf(b);
    }
    SmallerSubset(IdsIn(OpenOf(a)), IdsIn(OpenOf(b)));
  }

  ghost predicate OpenIn(records: seq<Record>, id: Id) {
    exists r :: r in records && r.id == id && NeedsMonitoring(r)
  }

  // Memory merged with what storage gives back

  /** The merge holds copies of archived records, all open ones among them. */
  ghost predicate Shows(known: seq<Record>, records: seq<Record>) {
    && DistinctIds(records) && |records| <= MAX_RECORDS && Covers(known, records)
    && (forall k :: k in known && NeedsMonitoring(k) ==> OpenIn(records, k.id))
  }

  lemma OpenTwin(known: seq<Record>, x: Record)
    requires HasTwin(known, x) && NeedsMonitoring(x)
    ensures OpenIn(known, x.id)
  {
    hide Twin;
    var t :| t in known && Twin(t, x);
    TwinSame(t, x);
  }

  lemma CurrentOk(known: seq<Record>, state: State, storage: State)
    requires ProviderOk(known, state, storage)
    ensures var current := MergedStates(state, Loaded(storage));
            && current.Some? && Shows(known, current.value.records)
            && FamiliesUnique(current.value.records) && AllClosedHashless(current.value.records)
  {
    hide DistinctIds, FamiliesUnique, AllClosedHashless, Loaded, Bounded, NeedsMonitoring, HasId, OpenIn, HasTwin,
         PristineIn;
    LoadedMembers(storage);
    var given := Loaded(storage).records;
    FiledDistinct(state.records);
    var joined := JoinedAll(state.records, given);
    JoinedIds(state.records, given, 0);
    JoinedCovered(known, state.records, given);
    forall x | x in joined && NeedsMonitoring(x)
      ensures OpenIn(known, x.id)
    {
      OpenTwin(known, x);
    }
    OpenCount(joined, known);
    BoundedKeeps(joined);
    var current := Bounded(joined).value;
    forall k | k in known && NeedsMonitoring(k)
      ensures OpenIn(current, k.id)
    {
      JoinedIds(state.records, given, k.id);
      GivenId(given, k.id);
      OpenShown(known, joined, current, k);
    }
    CoveredFamilies(known, current);
  }

  lemma GivenId(given: seq<Record>, id: Id)
    ensures PristineIn(given, id) ==> HasId(given, id)
  {
  }

  lemma OpenShown(known: seq<Record>, joined: seq<Record>, current: seq<Record>, k: Record)
    requires DistinctIds(known) && Covers(known, joined) && k in known && NeedsMonitoring(k) && HasId(joined, k.id)
    requires forall r :: r in joined && !IsTerminal(r) ==> r in current
    ensures OpenIn(current, k.id)
  {
    hide Twin, NeedsMonitoring, DistinctIds;
    var x :| x in joined && x.id == k.id;
    assert HasTwin(known, x);
    var t :| t in known && Twin(t, x);
    TwinSame(t, x);
    SameRecord(known, t, k);
  }

  // Persisting

  /** What becomes of the archive when stepped records are persisted as `all`. */
  ghost function Archived(known: seq<Record>, stepped: seq<Record>, all: seq<Record>): seq<Record> {
    FiledOver(FiledOver(known, stepped), all)
  }

  lemma ArchivedHolds(known: seq<Record>, stepped: seq<Record>, all: seq<Record>)
    requires DistinctIds(known) && DistinctIds(stepped) && DistinctIds(all)
    ensures DistinctIds(Archived(known, stepped, all))
    ensures forall k :: k in Archived(known, stepped, all) <==>
                        || k in all
                        || (k in stepped && !HasId(all, k.id))
                        || (k in known && !HasId(stepped, k.id) && !HasId(all, k.id))
  {
    hide DistinctIds, HasId, Filed;
    FiledOverHolds(known, stepped);
    FiledOverHolds(FiledOver(known, stepped), all);
  }

  /** What a join can hold has the property that both lists and their merges have. */
  ghost predicate Fit(base: seq<Record>, p: Record) {
    ClosedHashless(p) && Grown(base, p)
  }

  ghost predicate MergesFit(base: seq<Record>, stored: seq<Record>, next: seq<Record>) {
    forall l, n :: l in stored && n in next && l.id == n.id ==> Fit(base, MergedRecord(l, n))
  }

  ghost predicate AllFit(base: seq<Record>, records: seq<Record>) {
    forall p :: p in records ==> Fit(base, p)
  }

  lemma JoinFits(base: seq<Record>, stored: seq<Record>, next: seq<Record>)
    requires DistinctIds(stored) && DistinctIds(next)
    requires AllFit(base, stored) && AllFit(base, next) && MergesFit(base, stored, next)
    ensures AllFit(base, JoinedAll(stored, next))
  {
    hide Fit, DistinctIds, MergedRecord;
    forall p | p in JoinedAll(stored, next)
      ensures Fit(base, p)
    {
      JoinedFrom(stored, next, p);
    }
  }

  /** The next list keeps of the stepped records all that are open. */
  ghost predicate KeepsOpen(stepped: seq<Record>, next: seq<Record>) {
    && DistinctIds(next) && (forall n :: n in next ==> n in stepped)
    && (forall n :: n in stepped && NeedsMonitoring(n) ==> n in next)
  }

  /** Once persisted, the stepped records are in memory and storage alike, and the archive is good again. */
  lemma PersistOk(known: seq<Record>, base: seq<Record>, stepped: seq<Record>, stored: seq<Record>, next: seq<Record>,
                  revision: nat)
    requires ArchiveOk(known) && AllFit(base, known) && FamiliesUnique(base)
    requires DistinctIds(stepped) && DistinctIds(stored) && KeepsOpen(stepped, next)
    requires AllFit(base, stored) && AllFit(base, stepped) && MergesFit(base, stored, next)
    requires forall k :: k in known && NeedsMonitoring(k) ==> HasId(stepped, k.id)
    requires Bounded(JoinedAll(stored, next)).Some?
    ensures var all := JoinedAll(stored, next);
            var s := State(Bounded(all).value, revision);
            ProviderOk(Archived(known, stepped, all), s, s) && AllFit(base, Archived(known, stepped, all))
  {
    hide Fit, DistinctIds, FamiliesUnique, Bounded, Archived, Loaded, Twin, NeedsMonitoring, HasId, MergesFit;
    var all := JoinedAll(stored, next);
    JoinFits(base, stored, next);
    JoinedIds(stored, next, 0);
    ArchivedHolds(known, stepped, all);
    var after := Archived(known, stepped, all);
    BoundedKeeps(all);
    var kept := Bounded(all).value;
    forall k | k in after && NeedsMonitoring(k)
      ensures k in kept
    {
      OpenAfter(known, stepped, stored, next, k);
    }
    KeptArchive(base, after, kept, revision);
  }

  lemma OpenAfter(known: seq<Record>, stepped: seq<Record>, stored: seq<Record>, next: seq<Record>, k: Record)
    requires DistinctIds(stored) && KeepsOpen(stepped, next) && NeedsMonitoring(k)
    requires forall x :: x in known && NeedsMonitoring(x) ==> HasId(stepped, x.id)
    requires var all := JoinedAll(stored, next);
             || k in all || (k in stepped && !HasId(all, k.id))
             || (k in known && !HasId(stepped, k.id) && !HasId(all, k.id))
    ensures k in JoinedAll(stored, next)
  {
    hide DistinctIds, NeedsMonitoring, MergedRecord, JoinedAll;
    JoinedIds(stored, next, k.id);
    OwnId(next, k);
  }

  lemma KeptArchive(base: seq<Record>, after: seq<Record>, kept: seq<Record>, revision: nat)
    requires DistinctIds(after) && DistinctIds(kept) && |kept| <= MAX_RECORDS
    requires AllFit(base, after) && FamiliesUnique(base)
    requires forall k :: k in kept ==> k in after
    requires forall k :: k in after && NeedsMonitoring(k) ==> k in kept
    ensures ProviderOk(after, State(kept, revision), State(kept, revision))
  {
    hide DistinctIds, FamiliesUnique, Loaded, NeedsMonitoring, GrownFrom, ClosedHashless, HasTwin, OpenIn, HasId,
         PristineIn;
    LoadedMembers(State(kept, revision));
    assert AllGrown(base, after) && AllClosedHashless(after);
    GrownFamilies(base, after);
    OpenOfMembers(kept);
    forall k | k in after && NeedsMonitoring(k)
      ensures OpenIn(kept, k.id) && HasId(kept, k.id)
    {
      OwnOpen(kept, k);
    }
    OpenCount(after, kept);
    forall k | k in kept
      ensures HasTwin(after, k)
    {
      SelfTwin(after, k);
    }
  }

  lemma OwnOpen(records: seq<Record>, k: Record)
    requires k in records && NeedsMonitoring(k)
    ensures OpenIn(records, k.id) && HasId(records, k.id)
  {
  }

  lemma SelfTwin(records: seq<Record>, k: Record)
    requires k in records
    ensures HasTwin(records, k)
  {
    assert Twin(k, k);
  }

  // Steps on records

  lemma StepFits(known: seq<Record>, current: State, a: Action, c: Record)
    requires Possible(current, a) && c in current.records && HasTwin(known, c) && ClosedHashless(c)
    ensures Fit(known, RecordStep(c, a))
  {
    hide Twin, RecordStep, BlocksFamily, ClosedHashless, Possible;
    var k :| k in known && Twin(k, c);
    TwinSame(k, c);
    StepKeepsIdentity(c, a);
    StepClosedHashless(current, a, c);
    StepAdvances(c, a);
    if BlocksFamily(RecordStep(c, a)) {
      NeverReopens(current, a, c);
    }
    assert GrownFrom(k, RecordStep(c, a));
  }

  lemma StepMergeFits(known: seq<Record>, current: State, a: Action, c: Record, l: Record)
    requires Possible(current, a) && c in current.records && HasTwin(known, c)
    requires ClosedHashless(c) && ClosedHashless(l) && Twin(l, c)
    ensures Fit(known, MergedRecord(l, RecordStep(c, a)))
  {
    hide Twin, RecordStep, BlocksFamily, ClosedHashless, MergedRecord, Possible;
    var k :| k in known && Twin(k, c);
    var n := RecordStep(c, a);
    TwinSame(k, c);
    TwinSame(l, c);
    StepKeepsIdentity(c, a);
    StepAdvances(c, a);
    MergedClosedHashless(l, n);
    MergedIdentity(l, n);
    if n == c {
      TwinMerge(l, c);
      TwinSame(MergedRecord(l, c), c);
      TwinChain(k, c, MergedRecord(l, c));
    } else {
      ChangedWasOpen(current, a, c);
    }
    assert GrownFrom(k, MergedRecord(l, n));
  }

  lemma NextKeepsOpen(current: State, a: Action, next: State)
    requires DistinctIds(current.records) && !a.Begin? && After(current, a) == Some(next)
    ensures DistinctIds(StepAll(current.records, a)) && KeepsOpen(StepAll(current.records, a), next.records)
  {
    hide RecordStep, Bounded, NeedsMonitoring;
    var stepped := StepAll(current.records, a);
    forall i | 0 <= i < |stepped|
      ensures stepped[i].id == current.records[i].id
    {
      StepKeepsIdentity(current.records[i], a);
    }
    BoundedKeeps(stepped);
  }

  lemma SteppedFrom(records: seq<Record>, a: Action, n: Record) returns (c: Record)
    requires n in StepAll(records, a)
    ensures c in records && n == RecordStep(c, a)
  {
    var i :| 0 <= i < |records| && StepAll(records, a)[i] == n;
    c := records[i];
  }

  lemma SteppedIds(records: seq<Record>, a: Action, id: Id)
    ensures OpenIn(records, id) ==> HasId(StepAll(records, a), id)
  {
    hide RecordStep, NeedsMonitoring;
    if OpenIn(records, id) {
      var c :| c in records && c.id == id && NeedsMonitoring(c);
      var i :| 0 <= i < |records| && records[i] == c;
      StepKeepsIdentity(c, a);
      assert StepAll(records, a)[i] in StepAll(records, a);
    }
  }

  lemma SelfFits(known: seq<Record>)
    requires AllClosedHashless(known)
    ensures AllFit(known, known)
  {
    hide BlocksFamily, ClosedHashless;
    forall k | k in known
      ensures Fit(known, k)
    {
      SelfTwin(known, k);
      CoveredGrown(known, k);
    }
  }

  lemma CoveredFits(known: seq<Record>, records: seq<Record>)
    requires Covers(known, records) && AllClosedHashless(known)
    ensures AllFit(known, records)
  {
    hide BlocksFamily, ClosedHashless, Twin, GrownFrom;
    forall p | p in records
      ensures Fit(known, p)
    {
      assert HasTwin(known, p);
      CoveredGrown(known, p);
      var t :| t in known && Twin(t, p);
      TwinSame(t, p);
    }
  }

  /** A step on what memory and storage show, persisted over what storage gives back. */
  lemma CommitOk(known: seq<Record>, current: State, stored: seq<Record>, a: Action, next: State, revision: nat)
    requires ArchiveOk(known) && Shows(known, current.records) && DistinctIds(stored) && Covers(known, stored)
    requires Possible(current, a) && !a.Begin? && After(current, a) == Some(next)
    requires Bounded(JoinedAll(stored, next.records)).Some?
    ensures var all := JoinedAll(stored, next.records);
            var after := Archived(known, StepAll(current.records, a), all);
            var s := State(Bounded(all).value, revision);
            ProviderOk(after, s, s) && AllFit(known, after)
  {
    hide DistinctIds, FamiliesUnique, Bounded, RecordStep, MergedRecord, Fit, NeedsMonitoring, Possible, ProviderOk,
         Archived, HasId, HasTwin, After, StepAll, OpenIn;
    var stepped := StepAll(current.records, a);
    SelfFits(known);
    CoveredFits(known, stored);
    CoveredFamilies(known, current.records);
    NextKeepsOpen(current, a, next);
    forall n | n in stepped
      ensures Fit(known, n)
    {
      var c := SteppedFrom(current.records, a, n);
      StepFits(known, current, a, c);
    }
    forall l, n | l in stored && n in next.records && l.id == n.id
      ensures Fit(known, MergedRecord(l, n))
    {
      var c := SteppedFrom(current.records, a, n);
      StepKeepsIdentity(c, a);
      CoveredTwins(known, stored, current.records, l, c);
      StepMergeFits(known, current, a, c, l);
    }
    forall k | k in known && NeedsMonitoring(k)
      ensures HasId(stepped, k.id)
    {
      SteppedIds(current.records, a, k.id);
    }
    PersistOk(known, known, stepped, stored, next.records, revision);
  }

  // Admission

  lemma FamiliesWith(known: seq<Record>, current: State, r: Record)
    requires ArchiveOk(known) && Shows(known, current.records) && !FamilyBlocked(current, r.reviewed)
    ensures FamiliesUnique(known + [r])
  {
    hide BlocksFamily, SameFamily, DistinctIds, Twin;
    forall k | k in known && BlocksFamily(k)
      ensures !SameFamily(k.reviewed, r.reviewed) && !SameFamily(r.reviewed, k.reviewed)
    {
      BlocksFamilyIffMonitored(k);
      var c :| c in current.records && c.id == k.id && NeedsMonitoring(c);
      BlocksFamilyIffMonitored(c);
      assert HasTwin(known, c);
      var t :| t in known && Twin(t, c);
      TwinSame(t, c);
      SameRecord(known, t, k);
      FamilySymmetric(k.reviewed, r.reviewed);
    }
  }

  /** The archive with an admitted intent still covers the records that it covered. */
  lemma CoversMore(known: seq<Record>, r: Record, records: seq<Record>)
    requires Covers(known, records)
    ensures Covers(known + [r], records)
  {
    hide Twin;
    forall s | s in records
      ensures HasTwin(known + [r], s)
    {
      assert HasTwin(known, s);
      var t :| t in known && Twin(t, s);
      assert t in known + [r];
    }
  }

  lemma CoversAdmitted(known: seq<Record>, r: Record, records: seq<Record>)
    requires Covers(known, records)
    ensures Covers(known + [r], records + [r])
  {
    hide Twin;
    CoversMore(known, r, records);
    SelfTwin(known + [r], r);
  }

  lemma BaseOk(known: seq<Record>, r: Record)
    requires DistinctIds(known) && AllClosedHashless(known) && ClosedHashless(r)
    requires forall k :: k in known ==> k.id != r.id
    ensures DistinctIds(known + [r]) && AllClosedHashless(known + [r])
    ensures Covers(known + [r], known)
  {
    hide ClosedHashless, Twin;
    AppendDistinct(known, r);
    forall k | k in known
      ensures HasTwin(known + [r], k)
    {
      SelfTwin(known + [r], k);
    }
  }

  lemma MergesCovered(base: seq<Record>, stored: seq<Record>, next: seq<Record>)
    requires DistinctIds(base) && AllClosedHashless(base) && Covers(base, stored) && Covers(base, next)
    ensures MergesFit(base, stored, next)
  {
    hide DistinctIds, ClosedHashless, Twin, GrownFrom, MergedRecord;
    forall l, n | l in stored && n in next && l.id == n.id
      ensures Fit(base, MergedRecord(l, n))
    {
      CoveredTwins(base, stored, next, l, n);
      MergedCovered(base, stored, next, l, n);
      CoveredGrown(base, MergedRecord(l, n));
      MergedClosedHashless(l, n);
    }
  }

  /** The records of the protocol while an intent is admitted. */
  ghost predicate Admits(known: seq<Record>, current: State, stored: seq<Record>, r: Record, next: seq<Record>) {
    && ArchiveOk(known) && Shows(known, current.records) && DistinctIds(stored) && Covers(known, stored)
    && Pristine(r) && (forall k :: k in known ==> k.id != r.id) && !FamilyBlocked(current, r.reviewed)
    && Bounded(current.records + [r]) == Some(next)
    && Bounded(JoinedAll(stored, next)).Some?
  }

  lemma OtherIds(known: seq<Record>, copies: seq<Record>, id: Id)
    requires Covers(known, copies) && forall k :: k in known ==> k.id != id
    ensures forall c :: c in copies ==> c.id != id
  {
    forall c | c in copies
      ensures c.id != id
    {
      assert HasTwin(known, c);
    }
  }

  lemma AdmittedNext(known: seq<Record>, current: State, stored: seq<Record>, r: Record, next: seq<Record>)
    requires Admits(known, current, stored, r, next)
    ensures DistinctIds(current.records + [r]) && KeepsOpen(current.records + [r], next) && r in next
    ensures DistinctIds(known + [r]) && AllClosedHashless(known + [r]) && FamiliesUnique(known + [r])
    ensures Covers(known + [r], known) && Covers(known + [r], current.records + [r])
    ensures Covers(known + [r], next) && Covers(known + [r], stored)
    ensures forall c :: c in current.records || c in stored ==> c.id != r.id
  {
    hide DistinctIds, FamiliesUnique, Bounded, Twin, FamilyBlocked, NeedsMonitoring, OpenIn;
    PristineLoads(r);
    OtherIds(known, current.records, r.id);
    OtherIds(known, stored, r.id);
    AppendDistinct(current.records, r);
    BoundedKeeps(current.records + [r]);
    BaseOk(known, r);
    FamiliesWith(known, current, r);
    CoversAdmitted(known, r, current.records);
    CoversMore(known, r, stored);
  }

  /** An admitted intent, persisted over what storage gives back. */
  lemma BeginOk(known: seq<Record>, current: State, stored: seq<Record>, r: Record, next: seq<Record>, revision: nat)
    requires Admits(known, current, stored, r, next)
    ensures var all := JoinedAll(stored, next);
            var after := Archived(known, current.records + [r], all);
            var s := State(Bounded(all).value, revision);
            ProviderOk(after, s, s) && AllFit(known + [r], after)
  {
    hide DistinctIds, FamiliesUnique, Bounded, MergedRecord, Fit, NeedsMonitoring, ProviderOk, Archived, HasTwin,
         OpenIn, FamilyBlocked;
    var base := known + [r];
    AdmittedNext(known, current, stored, r, next);
    CoveredFits(base, known);
    CoveredFits(base, stored);
    CoveredFits(base, current.records + [r]);
    MergesCovered(base, stored, next);
    forall k | k in known && NeedsMonitoring(k)
      ensures HasId(current.records + [r], k.id)
    {
      AppendedIds(current.records, r, k.id);
      OpenHasId(current.records, k.id);
    }
    PersistOk(known, base, current.records + [r], stored, next, revision);
  }

  lemma OpenHasId(records: seq<Record>, id: Id)
    requires OpenIn(records, id)
    ensures HasId(records, id)
  {
  }

  // A durable check that fails

  /** Every record of the new archive is a copy of an old one or of the admitted one. */
  lemma ArchiveCovered(known: seq<Record>, current: State, stored: seq<Record>, r: Record, next: seq<Record>)
    requires Admits(known, current, stored, r, next)
    ensures Covers(known + [r], Archived(known, current.records + [r], JoinedAll(stored, next)))
  {
    hide DistinctIds, FamiliesUnique, Bounded, HasTwin, FamilyBlocked, NeedsMonitoring, Archived, OpenIn, HasId;
    AdmittedNext(known, current, stored, r, next);
    JoinedIds(stored, next, 0);
    JoinedCovered(known + [r], stored, next);
    ArchivedHolds(known, current.records + [r], JoinedAll(stored, next));
  }

  lemma ArchiveIds(known: seq<Record>, stepped: seq<Record>, all: seq<Record>, k: Record)
    requires DistinctIds(known) && DistinctIds(stepped) && DistinctIds(all) && k in known
    ensures HasId(Archived(known, stepped, all), k.id)
  {
    hide DistinctIds, Archived;
    ArchivedHolds(known, stepped, all);
    var after := Archived(known, stepped, all);
    if HasId(all, k.id) {
      var x :| x in all && x.id == k.id;
      assert x in after;
    } else if HasId(stepped, k.id) {
      var x :| x in stepped && x.id == k.id;
      assert x in after;
    } else {
      assert k in after;
    }
  }

  /** Copies of the old archive are copies of the new one. */
  lemma StillCovered(known: seq<Record>, current: State, stored: seq<Record>, r: Record, next: seq<Record>,
                     memory: seq<Record>)
    requires Admits(known, current, stored, r, next) && Covers(known, memory)
    ensures Covers(Archived(known, current.records + [r], JoinedAll(stored, next)), memory)
  {
    hide DistinctIds, FamiliesUnique, Bounded, FamilyBlocked, NeedsMonitoring, Archived, OpenIn, Twin;
    var after := Archived(known, current.records + [r], JoinedAll(stored, next));
    AdmittedNext(known, current, stored, r, next);
    JoinedIds(stored, next, 0);
    ArchiveCovered(known, current, stored, r, next);
    forall m | m in memory
      ensures HasTwin(after, m)
    {
      assert HasTwin(known, m);
      var k :| k in known && Twin(k, m);
      ArchiveIds(known, current.records + [r], JoinedAll(stored, next), k);
      var x :| x in after && x.id == k.id;
      assert HasTwin(known + [r], x);
      var t :| t in known + [r] && Twin(t, x);
      TwinSame(t, x);
      assert k in known + [r];
      SameRecord(known + [r], t, k);
      TwinSame(k, x);
      TwinChain(x, k, m);
    }
  }

  /** A record of the merge that is not in memory is one that storage gave back. */
  lemma MergedNotInMemory(memory: seq<Record>, given: seq<Record>, c: Record)
    requires DistinctIds(memory) && DistinctIds(given) && c in JoinedAll(memory, given) && !HasId(memory, c.id)
    ensures c in given
  {
    hide DistinctIds, MergedRecord;
    JoinedFrom(memory, given, c);
    if c !in given && c !in memory {
      var l, n :| l in memory && n in given && l.id == n.id && c == MergedRecord(l, n);
      MergedRecordId(l, n);
    }
  }

  /** An open record that is neither in memory nor begun now stays as it was begun. */
  lemma PristineStays(memory: seq<Record>, given: seq<Record>, current: seq<Record>, r: Record, next: seq<Record>,
                      k: Record)
    requires DistinctIds(memory) && DistinctIds(given) && k in JoinedAll(given, next) && DistinctIds(next)
    requires forall c :: c in current ==> c in JoinedAll(memory, given)
    requires forall n :: n in next ==> n in current + [r]
    requires !HasId(memory, k.id) && k.id != r.id && PristineIn(given, k.id)
    ensures Pristine(k)
  {
    hide DistinctIds, MergedRecord, Pristine, JoinedAll;
    var l :| l in given && l.id == k.id && Pristine(l);
    JoinedFrom(given, next, k);
    if k in given {
      SameRecord(given, l, k);
    } else if k in next {
      MergedNotInMemory(memory, given, k);
    } else {
      var x, n :| x in given && n in next && x.id == n.id && k == MergedRecord(x, n);
      MergedRecordId(x, n);
      MergedNotInMemory(memory, given, n);
      SameRecord(given, x, n);
      SameRecord(given, x, l);
      PristineMerge(x);
    }
  }

  /** The merge of memory and storage while an intent is admitted. */
  ghost predicate Between(memory: seq<Record>, given: seq<Record>, current: seq<Record>) {
    && DistinctIds(memory) && DistinctIds(given)
    && forall c :: c in current ==> c in JoinedAll(memory, given)
  }

  /** When the durable check fails, memory stays behind storage, and the two together still show every open record. */
  lemma StaleOk(known: seq<Record>, state: State, current: State, stored: seq<Record>, r: Record, next: seq<Record>,
                revision: nat)
    requires Admits(known, current, stored, r, next) && Between(state.records, stored, current.records)
    requires Covers(known, state.records) && Visible(known, state.records, stored)
    ensures var all := JoinedAll(stored, next);
            ProviderOk(Archived(known, current.records + [r], all), state, State(Bounded(all).value, revision))
  {
    hide FamiliesUnique, Bounded, FamilyBlocked, NeedsMonitoring, Archived, OpenIn, HasTwin, Loaded, DistinctIds,
         PristineIn, ArchiveOk, Pristine;
    var all := JoinedAll(stored, next);
    var after := Archived(known, current.records + [r], all);
    var s := State(Bounded(all).value, revision);
    BeginOk(known, current, stored, r, next, revision);
    StillCovered(known, current, stored, r, next, state.records);
    forall k | k in after && NeedsMonitoring(k)
      ensures HasId(state.records, k.id) || PristineIn(Loaded(s).records, k.id)
    {
      if !HasId(state.records, k.id) {
        StillGiven(known, state, current, stored, r, next, revision, k);
      }
    }
  }

  lemma StillGiven(known: seq<Record>, state: State, current: State, stored: seq<Record>, r: Record, next: seq<Record>,
                   revision: nat, k: Record)
    requires Admits(known, current, stored, r, next) && Between(state.records, stored, current.records)
    requires Visible(known, state.records, stored) && NeedsMonitoring(k) && !HasId(state.records, k.id)
    requires k in Archived(known, current.records + [r], JoinedAll(stored, next))
    ensures PristineIn(Loaded(State(Bounded(JoinedAll(stored, next)).value, revision)).records, k.id)
  {
    hide FamiliesUnique, Bounded, FamilyBlocked, NeedsMonitoring, Archived, HasTwin, Loaded, DistinctIds, Pristine,
         AllClosedHashless, MergedRecord, LoaderAccepts, JoinedAll;
    var all := JoinedAll(stored, next);
    AdmittedNext(known, current, stored, r, next);
    JoinedIds(stored, next, 0);
    ArchivedHolds(known, current.records + [r], all);
    forall x | x in known && NeedsMonitoring(x)
      ensures HasId(current.records + [r], x.id)
    {
      AppendedIds(current.records, r, x.id);
      OpenHasId(current.records, x.id);
    }
    OpenAfter(known, current.records + [r], stored, next, k);
    PristineOpen(known, state.records, current.records, stored, r, next, k);
    BoundedKeeps(all);
    PristineLoads(k);
    LoadedKeeps(State(Bounded(all).value, revision), k);
  }

  lemma PristineOpen(known: seq<Record>, memory: seq<Record>, current: seq<Record>, stored: seq<Record>, r: Record,
                     next: seq<Record>, k: Record)
    requires Pristine(r) && forall c :: c in current || c in stored ==> c.id != r.id
    requires DistinctIds(known + [r]) && AllClosedHashless(known + [r])
    requires Covers(known + [r], stored) && Covers(known + [r], next) && DistinctIds(next)
    requires Between(memory, stored, current) && Visible(known, memory, stored)
    requires forall n :: n in next ==> n in current + [r]
    requires k in JoinedAll(stored, next) && NeedsMonitoring(k) && !HasId(memory, k.id)
    ensures Pristine(k)
  {
    hide DistinctIds, Pristine, NeedsMonitoring, MergedRecord, Twin, AllClosedHashless, JoinedAll;
    JoinedFrom(stored, next, k);
    if k.id == r.id {
      BegunOnly(stored, r, next, current, k);
    } else {
      JoinedCovered(known + [r], stored, next);
      assert HasTwin(known + [r], k);
      var t :| t in known + [r] && Twin(t, k);
      TwinSame(t, k);
      assert t in known;
      PristineStays(memory, stored, current, r, next, k);
    }
  }

  lemma BegunOnly(stored: seq<Record>, r: Record, next: seq<Record>, current: seq<Record>, k: Record)
    requires Pristine(r) && FromEither(k, stored, next) && k.id == r.id
    requires forall c :: c in current || c in stored ==> c.id != r.id
    requires forall n :: n in next ==> n in current + [r]
    ensures Pristine(k)
  {
    hide MergedRecord, Pristine;
    if k !in next && k !in stored {
      var l, n :| l in stored && n in next && l.id == n.id && k == MergedRecord(l, n);
      MergedRecordId(l, n);
    }
  }

  // No room is ever lacking

  lemma FitBounded(base: seq<Record>, records: seq<Record>)
    requires DistinctIds(base) && |OpenOf(base)| <= MAX_RECORDS && DistinctIds(records) && AllFit(base, records)
    ensures Bounded(records).Some?
  {
    hide DistinctIds, NeedsMonitoring, BlocksFamily, Twin, Bounded;
    forall x | x in records && NeedsMonitoring(x)
      ensures OpenIn(base, x.id)
    {
      assert Fit(base, x);
      var k :| k in base && GrownFrom(k, x);
      BlocksFamilyIffMonitored(x);
      BlocksFamilyIffMonitored(k);
    }
    OpenCount(records, base);
    BoundedKeeps(records);
  }

  /** No step on what is shown makes bounding throw, neither before nor after it is merged with storage. */
  lemma CommitRuns(known: seq<Record>, current: State, stored: seq<Record>, a: Action)
    requires ArchiveOk(known) && Shows(known, current.records) && DistinctIds(stored) && Covers(known, stored)
    requires Possible(current, a) && !a.Begin?
    ensures After(current, a).Some?
    ensures Bounded(JoinedAll(stored, After(current, a).value.records)).Some?
  {
    hide DistinctIds, FamiliesUnique, Bounded, RecordStep, MergedRecord, Fit, NeedsMonitoring, Possible, HasId, HasTwin,
         StepAll, OpenIn;
    var stepped := StepAll(current.records, a);
    CoveredFits(known, stored);
    CoveredFamilies(known, current.records);
    forall n | n in stepped
      ensures Fit(known, n)
    {
      var c := SteppedFrom(current.records, a, n);
      StepFits(known, current, a, c);
    }
    SteppedDistinct(current.records, a);
    FitBounded(known, stepped);
    var next := After(current, a).value;
    NextKeepsOpen(current, a, next);
    forall l, n | l in stored && n in next.records && l.id == n.id
      ensures Fit(known, MergedRecord(l, n))
    {
      var c := SteppedFrom(current.records, a, n);
      StepKeepsIdentity(c, a);
      CoveredTwins(known, stored, current.records, l, c);
      StepMergeFits(known, current, a, c, l);
    }
    JoinFits(known, stored, next.records);
    JoinedIds(stored, next.records, 0);
    FitBounded(known, JoinedAll(stored, next.records));
  }

  lemma SteppedDistinct(records: seq<Record>, a: Action)
    requires DistinctIds(records)
    ensures DistinctIds(StepAll(records, a))
  {
    hide RecordStep;
    forall i | 0 <= i < |records|
      ensures StepAll(records, a)[i].id == records[i].id
    {
      StepKeepsIdentity(records[i], a);
    }
  }

  /** An intent that fits the bounded journal also fits once merged with storage. */
  lemma BeginRuns(known: seq<Record>, current: State, stored: seq<Record>, r: Record, next: seq<Record>)
    requires ArchiveOk(known) && Shows(known, current.records) && DistinctIds(stored) && Covers(known, stored)
    requires Pristine(r) && (forall k :: k in known ==> k.id != r.id)
    requires Bounded(current.records + [r]) == Some(next)
    ensures Bounded(JoinedAll(stored, next)).Some?
  {
    hide DistinctIds, FamiliesUnique, Bounded, MergedRecord, Fit, NeedsMonitoring, HasTwin, Twin;
    var base, stepped := known + [r], current.records + [r];
    PristineLoads(r);
    OtherIds(known, current.records, r.id);
    AppendDistinct(current.records, r);
    BoundedKeeps(stepped);
    BaseOk(known, r);
    CoversAdmitted(known, r, current.records);
    CoversMore(known, r, stored);
    forall x | x in base && NeedsMonitoring(x)
      ensures OpenIn(stepped, x.id)
    {
      OpenMore(current.records, r, x);
    }
    OpenCount(base, stepped);
    CoveredFits(base, stored);
    CoveredFits(base, next);
    MergesCovered(base, stored, next);
    JoinFits(base, stored, next);
    JoinedIds(stored, next, 0);
    FitBounded(base, JoinedAll(stored, next));
  }

  lemma OpenMore(records: seq<Record>, r: Record, x: Record)
    requires NeedsMonitoring(r) && (x == r || OpenIn(records, x.id))
    ensures OpenIn(records + [r], x.id)
  {
    hide NeedsMonitoring;
    if x == r {
      assert r in records + [r];
    } else {
      var y :| y in records && y.id == x.id && NeedsMonitoring(y);
      assert y in records + [r];
    }
  }

  // What was seen earlier

  /** The archived record is a twin of the one seen, or of a later revision. */
  predicate Later(seen: Record, k: Record) {
    seen.id == k.id && (Twin(seen, k) || k.revision > seen.revision)
  }

  ghost predicate Remembered(known: seq<Record>, seen: Record) {
    exists k :: k in known && Later(seen, k)
  }

  /** Lifecycle revisions never went back for anything that was ever seen. */
  ghost predicate Remembers(known: seq<Record>, history: set<Record>) {
    forall h :: h in history ==> Remembered(known, h)
  }

  lemma SeenRemembered(known: seq<Record>, records: seq<Record>)
    requires Covers(known, records)
    ensures forall r :: r in records ==> Remembered(known, r)
  {
    hide Twin;
    forall r | r in records
      ensures Remembered(known, r)
    {
      assert HasTwin(known, r);
      var k :| k in known && Twin(k, r);
      TwinSame(k, r);
      assert Later(r, k);
    }
  }

  /** An archive that grew remembers what the old one did. */
  lemma StillRemembered(base: seq<Record>, known: seq<Record>, after: seq<Record>, history: set<Record>)
    requires DistinctIds(base) && (forall k :: k in known ==> k in base && HasId(after, k.id))
    requires AllFit(base, after) && Remembers(known, history)
    ensures Remembers(after, history)
  {
    hide DistinctIds, Twin, BlocksFamily;
    forall h | h in history
      ensures Remembered(after, h)
    {
      assert Remembered(known, h);
      var k :| k in known && Later(h, k);
      var x :| x in after && x.id == k.id;
      assert Fit(base, x);
      var y :| y in base && GrownFrom(y, x);
      SameRecord(base, k, y);
      LaterChain(h, k, x);
      assert Later(h, x);
    }
  }

  lemma LaterChain(h: Record, k: Record, x: Record)
    requires Later(h, k) && GrownFrom(k, x)
    ensures Later(h, x)
  {
    hide BlocksFamily;
  }

  /** The action is on a record that was monitored when it was seen earlier, at the revision seen then. */
  ghost predicate Selected(history: set<Record>, a: Action) {
    match a
    case Check(id, revision, _) => SelectedAt(history, id, revision)
    case Defer(id, revision, _) => SelectedAt(history, id, revision)
    case _ => true
  }

  ghost predicate SelectedAt(history: set<Record>, id: Id, revision: nat) {
    exists h :: h in history && h.id == id && h.revision == revision && NeedsMonitoring(h) && h.status != AwaitingWallet
  }

  /** A record still at the revision at which it was selected is still monitored. */
  lemma SelectedPossible(known: seq<Record>, history: set<Record>, current: State, a: Action)
    requires ArchiveOk(known) && Shows(known, current.records) && Remembers(known, history)
    requires Selected(history, a) && Applies(current, a) && !a.Begin?
    ensures Possible(current, a)
  {
    hide NeedsMonitoring, DistinctIds, Twin, FamiliesUnique;
    match a
    case Check(id, revision, _) => SelectedMonitors(known, history, current, id, revision);
    case Defer(id, revision, _) => SelectedMonitors(known, history, current, id, revision);
    case _ =>
  }

  lemma SelectedMonitors(known: seq<Record>, history: set<Record>, current: State, id: Id, revision: nat)
    requires DistinctIds(known) && DistinctIds(current.records) && Covers(known, current.records)
    requires Remembers(known, history) && SelectedAt(history, id, revision)
    requires exists r :: r in current.records && r.id == id && r.revision == revision
    ensures Monitors(current, id, revision)
  {
    hide NeedsMonitoring, DistinctIds, Twin;
    var h :| h in history && h.id == id && h.revision == revision && NeedsMonitoring(h) && h.status != AwaitingWallet;
    var c :| c in current.records && c.id == id && c.revision == revision;
    assert Remembered(known, h) && HasTwin(known, c);
    var k :| k in known && Later(h, k);
    var t :| t in known && Twin(t, c);
    TwinSame(t, c);
    SameRecord(known, k, t);
    if Twin(h, k) {
      TwinSame(h, k);
    }
    forall r | r in current.records && r.id == id
      ensures r.revision == revision && NeedsMonitoring(r) && r.status != AwaitingWallet
    {
      SameRecord(current.records, r, c);
    }
  }

  // Parts of the protocol

  lemma ArchiveOf(known: seq<Record>, state: State, storage: State)
    requires ProviderOk(known, state, storage)
    ensures ArchiveOk(known) && DistinctIds(Loaded(storage).records) && Covers(known, Loaded(storage).records)
    ensures DistinctIds(state.records) && Covers(known, state.records)
    ensures Visible(known, state.records, Loaded(storage).records)
  {
    hide ArchiveOk, Covers, Visible, Loaded, DistinctIds;
    LoadedMembers(storage);
  }

  /** Once in memory, what the merge shows is enough. */
  lemma AdoptOk(known: seq<Record>, state: State, storage: State, current: State)
    requires ProviderOk(known, state, storage) && Shows(known, current.records)
    ensures ProviderOk(known, current, storage)
  {
    hide ArchiveOk, Loaded, HasTwin, NeedsMonitoring, OpenIn, HasId, DistinctIds, PristineIn;
    forall k | k in known && NeedsMonitoring(k)
      ensures HasId(current.records, k.id)
    {
      OpenHasId(current.records, k.id);
    }
  }

  lemma ActionRuns(known: seq<Record>, current: State, storage: State, a: Action)
    requires ArchiveOk(known) && Shows(known, current.records)
    requires DistinctIds(Loaded(storage).records) && Covers(known, Loaded(storage).records)
    requires Possible(current, a) && !a.Begin?
    ensures After(current, a).Some? && Persisted(storage, After(current, a).value).Some?
  {
    hide ArchiveOk, Loaded, After, Possible, DistinctIds, Bounded, Shows, Covers;
    CommitRuns(known, current, Loaded(storage).records, a);
    FiledDistinct(Loaded(storage).records);
  }

  lemma HashPossible(current: State, a: Action)
    requires a.HashReturned?
    ensures Possible(current, a)
  {
  }

  /** What persisting a step does to the archive, memory and storage. */
  lemma PersistedStep(known: seq<Record>, current: State, storage: State, a: Action, next: State, s: State,
                      history: set<Record>)
    requires ArchiveOk(known) && Shows(known, current.records) && Remembers(known, history)
    requires DistinctIds(Loaded(storage).records) && Covers(known, Loaded(storage).records)
    requires Possible(current, a) && !a.Begin? && After(current, a) == Some(next)
    requires Persisted(storage, next) == Some(s)
    ensures var after := Archived(known, StepAll(current.records, a), JoinedAll(Loaded(storage).records, next.records));
            ProviderOk(after, s, s) && Remembers(after, history) && forall r :: r in s.records ==> Remembered(after, r)
  {
    hide Loaded, After, Possible, DistinctIds, Bounded, Covers, FamiliesUnique, AllClosedHashless, Archived, ProviderOk,
         AllFit, Remembers, Remembered, JoinedAll, StepAll, NeedsMonitoring;
    var given := Loaded(storage).records;
    var stepped := StepAll(current.records, a);
    FiledDistinct(given);
    CommitOk(known, current, given, a, next, s.revision);
    var after := Archived(known, stepped, JoinedAll(given, next.records));
    NextKeepsOpen(current, a, next);
    JoinedIds(given, next.records, 0);
    forall k | k in known
      ensures k in known && HasId(after, k.id)
    {
      ArchiveIds(known, stepped, JoinedAll(given, next.records), k);
    }
    StillRemembered(known, known, after, history);
    MemorySeen(after, s, s);
  }

  lemma MemorySeen(known: seq<Record>, state: State, storage: State)
    requires ProviderOk(known, state, storage)
    ensures forall r :: r in state.records ==> Remembered(known, r)
  {
    hide Loaded, ArchiveOk, Visible, HasTwin;
    SeenRemembered(known, state.records);
  }

  lemma BeganIntent(reviewed: Reviewed, expectedNonce: nat, submissionBlock: nat, now: int, id: Id)
    ensures var r := Began(reviewed, expectedNonce, submissionBlock, now, id);
            r.reviewed == reviewed && r.id == id && Pristine(r)
  {
  }

  lemma NextAdmits(known: seq<Record>, current: State, storage: State, r: Record)
    requires ArchiveOk(known) && Shows(known, current.records)
    requires DistinctIds(Loaded(storage).records) && Covers(known, Loaded(storage).records)
    requires Pristine(r) && (forall k :: k in known ==> k.id != r.id) && !Refused(current, r.reviewed)
    ensures var next := WithRecords(current, current.records + [r]);
            && next.Some? && Admits(known, current, Loaded(storage).records, r, next.value.records)
            && next.value.records != [] && Persisted(storage, next.value).Some?
  {
    hide Loaded, DistinctIds, Bounded, ArchiveOk, RetryBlocked, FamilyBlocked, NeedsMonitoring, HasTwin, OpenIn, Pristine;
    var given := Loaded(storage).records;
    var all := current.records + [r];
    RoomForOne(current.records, r);
    BoundsTo(all);
    var next := Bounded(all).value;
    BeginRuns(known, current, given, r, next);
    AdmittedNext(known, current, given, r, next);
    FiledDistinct(given);
  }

  lemma BoundsTo(records: seq<Record>)
    requires |OpenOf(records)| <= MAX_RECORDS
    ensures Bounded(records).Some?
  {
  }

  lemma MergedBetween(state: State, storage: State, current: State)
    requires DistinctIds(state.records) && DistinctIds(Loaded(storage).records)
    requires MergedStates(state, Loaded(storage)) == Some(current)
    ensures Between(state.records, Loaded(storage).records, current.records)
  {
    hide Loaded, DistinctIds, Bounded, JoinedAll, NeedsMonitoring;
    FiledDistinct(state.records);
    JoinedIds(state.records, Loaded(storage).records, 0);
    BoundedKeeps(JoinedAll(state.records, Loaded(storage).records));
  }

  /** What persisting an admitted intent does, whether or not memory takes the result. */
  lemma PersistedIntent(known: seq<Record>, state: State, current: State, storage: State, r: Record, next: State,
                        s: State, history: set<Record>)
    requires ProviderOk(known, state, storage) && Remembers(known, history)
    requires MergedStates(state, Loaded(storage)) == Some(current)
    requires Admits(known, current, Loaded(storage).records, r, next.records)
    requires Persisted(storage, next) == Some(s)
    ensures var after := Archived(known, current.records + [r], JoinedAll(Loaded(storage).records, next.records));
            && ProviderOk(after, state, s) && ProviderOk(after, s, s) && Remembers(after, history)
            && forall x :: x in s.records ==> Remembered(after, x)
  {
    hide Loaded, DistinctIds, Bounded, Covers, FamiliesUnique, AllClosedHashless, Archived, AllFit, Remembers,
         Remembered, JoinedAll, NeedsMonitoring, Shows, Visible, Pristine, FamilyBlocked, Between, FiledAll, ProviderOk;
    var given := Loaded(storage).records;
    ArchiveOf(known, state, storage);
    FiledDistinct(given);
    MergedBetween(state, storage, current);
    BeginOk(known, current, given, r, next.records, s.revision);
    StaleOk(known, state, current, given, r, next.records, s.revision);
    AdmittedNext(known, current, given, r, next.records);
    JoinedIds(given, next.records, 0);
    var after := Archived(known, current.records + [r], JoinedAll(given, next.records));
    forall k | k in known
      ensures k in known + [r] && HasId(after, k.id)
    {
      ArchiveIds(known, current.records + [r], JoinedAll(given, next.records), k);
    }
    StillRemembered(known + [r], known, after, history);
    MemorySeen(after, s, s);
  }

  /** What storage gives back is a good archive by itself. */
  lemma ForgetOk(known: seq<Record>, state: State, storage: State)
    requires ProviderOk(known, state, storage)
    ensures var loaded := Loaded(storage).records; ArchiveOk(loaded) && Shows(loaded, loaded) && Covers(loaded, loaded)
    ensures var loaded := Loaded(storage).records; Remembers(loaded, set r | r in loaded)
  {
    hide Loaded, DistinctIds, FamiliesUnique, AllClosedHashless, HasTwin, NeedsMonitoring, HasId, PristineIn, Remembered;
    LoadedMembers(storage);
    var loaded := Loaded(storage).records;
    CoveredFamilies(known, loaded);
    OpenOfMembers(loaded);
    forall r | r in loaded
      ensures HasTwin(loaded, r) && (NeedsMonitoring(r) ==> OpenIn(loaded, r.id))
    {
      SelfTwin(loaded, r);
    }
    SeenRemembered(loaded, loaded);
  }

  // What a reload forgets

  lemma RecoveredOpen(r: Record, now: int)
    requires NeedsMonitoring(r) && ClosedHashless(r)
    ensures var n := RecordStep(r, Recover(now));
            n.id == r.id && NeedsMonitoring(n) && NeedsMonitoring(MergedRecord(r, n))
  {
    hide MergedHashes;
    if RecordStep(r, Recover(now)) == r {
      TwinMerge(r, r);
      TwinSame(MergedRecord(r, r), r);
    }
  }

  /** Records that the loader does not accept are not given back under any id. */
  lemma NotGivenBack(storage: State, r: Record)
    requires DistinctIds(storage.records) && r in storage.records && !LoaderAccepts(r)
    ensures !HasId(Loaded(storage).records, r.id)
  {
    hide LoaderAccepts, DistinctIds, Bounded, Loaded;
    LoadedAccepted(storage);
    if HasId(Loaded(storage).records, r.id) {
      var x :| x in Loaded(storage).records && x.id == r.id;
      SameRecord(storage.records, x, r);
    }
  }

  /** The merge of a given record with its recovered copy is open when the record is. */
  lemma GivenStaysOpen(given: seq<Record>, next: seq<Record>, now: int, r: Record)
    requires DistinctIds(given) && DistinctIds(next) && forall n :: n in next ==> n in StepAll(given, Recover(now))
    requires r in given && NeedsMonitoring(r) && ClosedHashless(r) && HasId(JoinedAll(given, next), r.id)
    ensures OpenIn(JoinedAll(given, next), r.id)
  {
    hide RecordStep, DistinctIds, NeedsMonitoring, MergedRecord, JoinedAll, ClosedHashless;
    var p :| p in JoinedAll(given, next) && p.id == r.id;
    JoinedFrom(given, next, p);
    RecoveredOpen(r, now);
    if p in given {
      SameRecord(given, p, r);
    } else if p in next {
      RecoveredOnly(given, now, r, p);
    } else {
      var l, n :| l in given && n in next && l.id == n.id && p == MergedRecord(l, n);
      MergedRecordId(l, n);
      SameRecord(given, l, r);
      RecoveredOnly(given, now, r, n);
    }
  }

  lemma RecoveredOnly(given: seq<Record>, now: int, r: Record, n: Record)
    requires DistinctIds(given) && r in given && n in StepAll(given, Recover(now)) && n.id == r.id
    ensures n == RecordStep(r, Recover(now))
  {
    hide RecordStep, DistinctIds;
    var c := SteppedFrom(given, Recover(now), n);
    StepKeepsIdentity(c, Recover(now));
    SameRecord(given, c, r);
  }

  /** Main result on reloading: an open stored record is open in the reloaded journal exactly when the loader accepts
      it. What the loader drops is forgotten, and with it that its family is blocked. */
  lemma SurvivesReloadIff(known: seq<Record>, state: State, storage: State, now: int, r: Record)
    requires ProviderOk(known, state, storage) && r in storage.records && NeedsMonitoring(r)
    ensures var next := After(Loaded(storage), Recover(now));
            && next.Some? && Persisted(storage, next.value).Some?
            && (OpenIn(Persisted(storage, next.value).value.records, r.id) <==> LoaderAccepts(r))
  {
    hide ProviderOk, Possible, After, Loaded, ArchiveOk, Shows, DistinctIds, Covers, Visible, StepAll, JoinedAll,
         RecordStep, NeedsMonitoring, LoaderAccepts, Bounded, HasTwin, Remembers, FiledAll;
    var given := Loaded(storage);
    ArchiveOf(known, state, storage);
    ForgetOk(known, state, storage);
    RecoverPossible(given, now);
    ActionRuns(given.records, given, storage, Recover(now));
    var next := After(given, Recover(now)).value;
    NextKeepsOpen(given, Recover(now), next);
    MergeKeepsIds(given, next);
    FiledDistinct(given.records);
    var all := JoinedAll(given.records, next.records);
    BoundedKeeps(all);
    StorageDistinct(known, state, storage);
    if LoaderAccepts(r) {
      LoadedKeeps(storage, r);
      GivenClosedHashless(given.records, r);
      GivenStaysOpen(given.records, next.records, now, r);
    } else {
      NotGivenBack(storage, r);
      SteppedNone(given.records, Recover(now), r.id);
    }
  }

  lemma StorageDistinct(known: seq<Record>, state: State, storage: State)
    requires ProviderOk(known, state, storage)
    ensures DistinctIds(storage.records) && |storage.records| <= MAX_RECORDS
  {
    hide ArchiveOk, Covers, Visible, Loaded, DistinctIds;
  }

  lemma GivenClosedHashless(given: seq<Record>, r: Record)
    requires ArchiveOk(given) && r in given
    ensures ClosedHashless(r)
  {
    hide ClosedHashless, DistinctIds, FamiliesUnique;
  }

  lemma SteppedNone(records: seq<Record>, a: Action, id: Id)
    requires !HasId(records, id)
    ensures !HasId(StepAll(records, a), id)
  {
    hide RecordStep;
    if HasId(StepAll(records, a), id) {
      var n :| n in StepAll(records, a) && n.id == id;
      var c := SteppedFrom(records, a, n);
      StepKeepsIdentity(c, a);
    }
  }

  /** The durable check: storage gives the record back at its revision. */
  predicate GivesBack(storage: State, record: Record) {
    exists r :: r in Loaded(storage).records && r.id == record.id && r.revision == record.revision
  }

  // The provider

  datatype Handle = Handle(id: Id, revision: nat)

  /** Memory and storage of one tab. The archive and the history of records seen are for the proof only. */
  class TransactionJournalProvider {
    var state: State
    var storage: State
    ghost var known: seq<Record>
    ghost var history: set<Record>

    ghost predicate Valid()
      reads this
    {
      && ProviderOk(known, state, storage) && Remembers(known, history)
      && forall r :: r in state.records ==> r in history
    }

    constructor ()
      ensures Valid() && state == EMPTY && storage == EMPTY && known == [] && history == {}
    {
      state, storage, known, history := EMPTY, EMPTY, [], {};
    }

    /** Takes over what merging memory with storage shows. */
    method Adopt(current: State)
      requires Valid() && MergedStates(state, Loaded(storage)) == Some(current)
      modifies `state, `history
      ensures Valid() && state == current && old(history) <= history
    {
      hide ProviderOk, Loaded, MergedStates, Remembered;
      CurrentOk(known, state, storage);
      AdoptOk(known, state, storage, current);
      MemorySeen(known, current, storage);
      history := history + set r | r in current.records;
      state := current;
    }

    /** A wallet failure, an abort, a recovery, or the check or deferral of a record that was selected earlier. It is
        dropped when the record has moved on, and it never throws. */
    method Commit(a: Action)
      requires Valid() && !a.Begin? && !a.HashReturned? && Selected(history, a)
      modifies this
      ensures Valid() && old(history) <= history
      ensures var current := MergedStates(old(state), Loaded(old(storage)));
              && current.Some?
              && var next := if Applies(current.value, a) then After(current.value, a) else current;
                 && next.Some?
                 && (if next == current then state == current.value && storage == old(storage)
                     else Persisted(old(storage), next.value) == Some(state) && storage == state)
    {
      hide ProviderOk, Possible, After, Loaded, MergedStates, Applies, ArchiveOk, Selected, Remembers, Shows, Persisted,
           DistinctIds, Covers, Visible;
      CurrentOk(known, state, storage);
      ArchiveOf(known, state, storage);
      var merged := MergeTransactionJournals(state, Loaded(storage));
      var current := merged.value;
      if !Applies(current, a) {
        Adopt(current);
        return;
      }
      SelectedPossible(known, history, current, a);
      ActionRuns(known, current, storage, a);
      var next := After(current, a).value;
      if next == current {
        Adopt(current);
        return;
      }
      Persist(current, a, next);
    }

    /** The wallet's hash is persisted even when it no longer applies. */
    method Submitted(id: Id, revision: nat, hash: Id, now: int)
      requires Valid()
      modifies this
      ensures Valid() && old(history) <= history
      ensures var current := MergedStates(old(state), Loaded(old(storage)));
              && current.Some?
              && var next := After(current.value, HashReturned(id, revision, hash, now));
                 next.Some? && Persisted(old(storage), next.value) == Some(state) && storage == state
    {
      hide ProviderOk, Possible, After, Loaded, MergedStates, ArchiveOk, Remembers, Shows, Persisted, DistinctIds, Covers,
           Visible;
      CurrentOk(known, state, storage);
      ArchiveOf(known, state, storage);
      var merged := MergeTransactionJournals(state, Loaded(storage));
      var current := merged.value;
      var a := HashReturned(id, revision, hash, now);
      HashPossible(current, a);
      ActionRuns(known, current, storage, a);
      Persist(current, a, After(current, a).value);
    }

    /** Persists a step and takes the result into memory. */
    method Persist(current: State, a: Action, next: State)
      requires Valid() && MergedStates(state, Loaded(storage)) == Some(current)
      requires !a.Begin? && Possible(current, a) && After(current, a) == Some(next)
      modifies this
      ensures Valid() && old(history) <= history
      ensures Persisted(old(storage), next) == Some(state) && storage == state
    {
      hide ProviderOk, Possible, After, Loaded, MergedStates, ArchiveOk, Remembered, Shows, DistinctIds, Covers, Visible,
           Archived, StepAll, JoinedAll;
      CurrentOk(known, state, storage);
      ArchiveOf(known, state, storage);
      ActionRuns(known, current, storage, a);
      var persisted := MergeTransactionJournals(Loaded(storage), next);
      PersistedStep(known, current, storage, a, next, persisted.value, history);
      known := Archived(known, StepAll(current.records, a), JoinedAll(Loaded(storage).records, next.records));
      history := history + set r | r in persisted.value.records;
      storage := persisted.value;
      state := persisted.value;
    }

    /** Admits a new intent under the lock. It is refused while a matching one is unresolved, and it is handed to the
        wallet only once the stored journal gives the record back. Where that check throws, the intent is stored but
        memory stays as it was. */
    method Begin(reviewed: Reviewed, expectedNonce: nat, submissionBlock: nat, now: int, id: Id)
      returns (handle: Option<Handle>)
      requires Valid() && forall k :: k in known ==> k.id != id
      modifies this
      ensures Valid() && old(history) <= history
      ensures var r := Began(reviewed, expectedNonce, submissionBlock, now, id);
              var current := MergedStates(old(state), Loaded(old(storage)));
              && current.Some?
              && if Refused(current.value, reviewed) then handle.None? && state == old(state) && storage == old(storage)
                 else
                   var next := WithRecords(current.value, current.value.records + [r]);
                   && next.Some? && next.value.records != [] && Persisted(old(storage), next.value) == Some(storage)
                   && var last := next.value.records[|next.value.records| - 1];
                      && handle == (if GivesBack(storage, last) then Some(Handle(last.id, last.revision)) else None)
                      && state == if handle.Some? then storage else old(state)
    {
      hide ProviderOk, Loaded, MergedStates, ArchiveOk, Remembered, Shows, DistinctIds, Covers, Visible, Archived,
           JoinedAll, FamilyBlocked, RetryBlocked, GivesBack, Began, WithRecords, Admits, NeedsMonitoring, Pristine;
      CurrentOk(known, state, storage);
      ArchiveOf(known, state, storage);
      var merged := MergeTransactionJournals(state, Loaded(storage));
      var current := merged.value;
      if RetryBlocked(current, reviewed) || FamilyBlocked(current, reviewed) {
        return None;
      }
      if |current.records| >= MAX_RECORDS && forall r :: r in current.records ==> !IsTerminal(r) {
        return None;
      }
      var record := Began(reviewed, expectedNonce, submissionBlock, now, id);
      BeganIntent(reviewed, expectedNonce, submissionBlock, now, id);
      NextAdmits(known, current, storage, record);
      var next := WithRecords(current, current.records + [record]).value;
      var last := next.records[|next.records| - 1];
      var persisted := MergeTransactionJournals(Loaded(storage), next);
      PersistedIntent(known, state, current, storage, record, next, persisted.value, history);
      known := Archived(known, current.records + [record], JoinedAll(Loaded(storage).records, next.records));
      storage := persisted.value;
      if !GivesBack(storage, last) {
        return None;
      }
      history := history + set r | r in persisted.value.records;
      state := persisted.value;
      handle := Some(Handle(last.id, last.revision));
    }

    /** After a reload only storage is left; awaiting intents whose lease ran out are recovered. */
    method Reload(now: int)
      requires Valid()
      modifies this
      ensures Valid()
      ensures var loaded := Loaded(old(storage));
              var next := After(loaded, Recover(now));
              next.Some? && Persisted(old(storage), next.value) == Some(state) && storage == state
      ensures forall r :: r in old(storage.records) && NeedsMonitoring(r) ==>
                (OpenIn(state.records, r.id) <==> LoaderAccepts(r))
    {
      hide ProviderOk, Possible, After, Loaded, MergedStates, ArchiveOk, Remembered, Shows, DistinctIds, Covers, Visible,
           Archived, StepAll, JoinedAll, NeedsMonitoring, LoaderAccepts, OpenIn;
      ArchiveOf(known, state, storage);
      ForgetOk(known, state, storage);
      var loaded := Loaded(storage);
      RecoverPossible(loaded, now);
      ActionRuns(loaded.records, loaded, storage, Recover(now));
      var next := After(loaded, Recover(now)).value;
      forall r | r in storage.records && NeedsMonitoring(r)
        ensures OpenIn(Persisted(storage, next).value.records, r.id) <==> LoaderAccepts(r)
      {
        SurvivesReloadIff(known, state, storage, now, r);
      }
      var persisted := MergeTransactionJournals(Loaded(storage), next);
      ghost var seen := set r | r in loaded.records;
      PersistedStep(loaded.records, loaded, storage, Recover(now), next, persisted.value, seen);
      known := Archived(loaded.records, StepAll(loaded.records, Recover(now)), JoinedAll(loaded.records, next.records));
      history := seen + set r | r in persisted.value.records;
      storage := persisted.value;
      state := persisted.value;
    }
  }

  lemma RecoverPossible(s: State, now: int)
    ensures Possible(s, Recover(now))
  {
  }

  /** Main result on the protocol: memory, what storage gives back, and their merge hold at most one open record per
      remove-liquidity family, and the merge holds every open one that either of them holds. */
  lemma OneOpenPerFamily(p: TransactionJournalProvider)
    requires p.Valid()
    ensures FamiliesUnique(p.state.records) && FamiliesUnique(Loaded(p.storage).records)
    ensures var current := MergedStates(p.state, Loaded(p.storage));
            && current.Some? && FamiliesUnique(current.value.records)
            && forall r :: (r in p.state.records || r in Loaded(p.storage).records) && NeedsMonitoring(r) ==>
                 OpenIn(current.value.records, r.id)
  {
    hide Loaded, MergedStates, NeedsMonitoring, FamiliesUnique, DistinctIds, AllClosedHashless, HasTwin, PristineIn;
    CurrentOk(p.known, p.state, p.storage);
    CoveredFamilies(p.known, p.state.records);
    CoveredFamilies(p.known, Loaded(p.storage).records);
    forall r | (r in p.state.records || r in Loaded(p.storage).records) && NeedsMonitoring(r)
      ensures OpenIn(MergedStates(p.state, Loaded(p.storage)).value.records, r.id)
    {
      OpenTwin(p.known, r);
      var k :| k in p.known && k.id == r.id && NeedsMonitoring(k);
    }
  }
}
