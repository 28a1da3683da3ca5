/** Runs of the journal that reach the corners which the exact conditions single out.
    After a clock that moved back, the last record of the journal is not the intent begun last. A receipt reported
    with an older head gives a record that the loader drops. A hash that is replaced, comes back and is replaced by
    a third one is lost when the step is merged with the copy from before it. */
module JournalWitnesses {
  import opened Domain
  import opened Journal
  import opened JournalRuns
  import opened JournalMerge
  import opened JournalJoin
  import opened JournalCopies
  import opened JournalProvider

  const REVIEWED := Reviewed(Scope(1, 1, 1, 1), RemoveLiquidity, 2, 3, 4, 5, None, None, None, 6, 0)
  const OTHER := REVIEWED.(intent := CreatePool)

  /** The transactions of the account with the reviewed nonce, target and calldata. */
  function Sent(hash: Id): Transaction {
    Transaction(hash, 1, 3, Some(6), 5, 0)
  }

  const FIRST := Began(REVIEWED, 3, 10, 20, 1)

  // One record

  lemma BoundedOne(r: Record)
    ensures Bounded([r]) == Some([r])
  {
    hide NeedsMonitoring;
    var none: seq<Record> := [];
    assert [r][..0] == none && none + [r] == [r] && [r] + none == [r];
    assert OpenOf([r]) == (if IsTerminal(r) then none else [r]);
    assert ClosedOf([r]) == (if IsTerminal(r) then [r] else none);
    assert LastOf([r], MAX_RECORDS) == [r] && LastOf(none, MAX_RECORDS - 1) == none;
    assert SortByCreated([r]) == InsertByCreated(none, r) == [r];
  }

  lemma BoundedPair(a: Record, b: Record)
    requires NeedsMonitoring(a) && NeedsMonitoring(b)
    ensures Bounded([a, b]) == Some(if a.createdAt <= b.createdAt then [a, b] else [b, a])
  {
    hide NeedsMonitoring;
    var none: seq<Record>, both := [], [a, b];
    assert both[..1] == [a] && [a][..0] == none && both + none == both && none + [a] == [a];
    assert OpenOf(none) == none && ClosedOf(none) == none;
    assert OpenOf([a]) == [a] && ClosedOf([a]) == none;
    assert OpenOf(both) == both && ClosedOf(both) == none;
    assert SortByCreated(none) == none && SortByCreated([a]) == InsertByCreated(none, a) == [a];
    assert InsertByCreated(none, b) == [b] && [a] + [b] == [a, b] && [b] + [a] == [b, a];
    assert [a][..0] == none && InsertByCreated([a], b) == if a.createdAt <= b.createdAt then [a, b] else [b, a];
    assert SortByCreated(both) == InsertByCreated([a], b);
    assert LastOf(none, MAX_RECORDS - 2) == none;
  }

  /** A run goes on with a possible action. */
  lemma GoesOn(world: World, actions: seq<Action>, s: State, a: Action, next: State)
    requires Reaches(world, actions, s) && Possible(s, a) && TruthfulAction(world, a) && After(s, a) == Some(next)
    ensures Reaches(world, actions + [a], next)
  {
    hide After, Possible;
    var more := actions + [a];
    assert more[..|more| - 1] == actions && more[|more| - 1] == a;
  }

  /** A run of one record: what the next action on it yields. */
  lemma OneStep(world: World, actions: seq<Action>, r: Record, revision: nat, a: Action)
    requires Reaches(world, actions, State([r], revision)) && !a.Begin? && RecordStep(r, a) != r
    requires Possible(State([r], revision), a) && TruthfulAction(world, a)
    ensures Reaches(world, actions + [a], State([RecordStep(r, a)], revision + 1))
  {
    hide RecordStep, Bounded, Possible;
    var s, n := State([r], revision), RecordStep(r, a);
    assert StepAll([r], a) == [n];
    BoundedOne(n);
    assert After(s, a) == Some(State([n], revision + 1));
    GoesOn(world, actions, s, a, State([n], revision + 1));
  }

  const BEGIN := Action.Begin(REVIEWED, 3, 10, 20, 1)

  lemma BeginFirst(world: World)
    ensures Reaches(world, [BEGIN], State([FIRST], 1))
  {
    hide Bounded;
    BoundedOne(FIRST);
    assert [] + [FIRST] == [FIRST] && [] + [BEGIN] == [BEGIN];
    assert After(EMPTY, BEGIN) == Some(State([FIRST], 1));
    GoesOn(world, [], EMPTY, BEGIN, State([FIRST], 1));
  }

  // A clock that moved back

  const AGAIN := Action.Begin(OTHER, 3, 10, 15, 2)
  const SECOND := Began(OTHER, 3, 10, 15, 2)

  /** A second intent is begun after the clock moved back by five: the journal sorts it before the first one, and the
      last record, whose handle is given out, is the first intent's. */
  lemma OtherHandle(world: World)
    ensures Reaches(world, [BEGIN, AGAIN], State([SECOND, FIRST], 2))
    ensures SECOND.id != FIRST.id && After(State([FIRST], 1), AGAIN) == Some(State([SECOND, FIRST], 2))
  {
    hide Bounded, Reaches, RetryBlocked, FamilyBlocked;
    BeginFirst(world);
    NotBlocked();
    BoundedPair(FIRST, SECOND);
    assert [FIRST] + [SECOND] == [FIRST, SECOND] && [BEGIN] + [AGAIN] == [BEGIN, AGAIN];
    GoesOn(world, [BEGIN], State([FIRST], 1), AGAIN, State([SECOND, FIRST], 2));
  }

  lemma NotBlocked()
    ensures !RetryBlocked(State([FIRST], 1), OTHER) && !FamilyBlocked(State([FIRST], 1), OTHER)
  {
  }

  // A head behind the receipt

  const HASH := HashReturned(1, 0, 100, 21)
  const SUBMITTED := RecordStep(FIRST, HASH)

  function Seen(hash: Id, receipt: Option<Receipt>, canonical: Option<Id>, head: nat): Report {
    Report(Found, canonical, Some(head), None, 22, None, if receipt.Some? then Found else Missing, receipt,
           Some(Sent(hash)), Found, None)
  }

  const EARLY := Check(1, 1, Seen(100, Some(Receipt(7, 30, 100, true)), Some(7), 25))
  const DROPPED := RecordStep(SUBMITTED, EARLY)

  lemma SubmittedReached(world: World)
    ensures Reaches(world, [BEGIN, HASH], State([SUBMITTED], 2))
    ensures SUBMITTED.activeHash == Some(100) && SUBMITTED.revision == 1 && SUBMITTED.status == Submitted
    ensures SUBMITTED.hashes == [HashRecord(100, 21, None, None, FirstSubmitted)]
  {
    hide Reaches;
    BeginFirst(world);
    assert [BEGIN] + [HASH] == [BEGIN, HASH];
    assert [] + [HashRecord(100, 21, None, None, FirstSubmitted)] == [HashRecord(100, 21, None, None, FirstSubmitted)];
    OneStep(world, [BEGIN], FIRST, 1, HASH);
  }

  /** A successful receipt of block 30 reported together with head 25 gives a confirming record without confirmations,
      which the loader drops. */
  lemma DroppedByLoader(world: World)
    requires world(100) == Sent(100)
    ensures Reaches(world, [BEGIN, HASH, EARLY], State([DROPPED], 3))
    ensures DROPPED.status == Confirming && DROPPED.confirmations == 0 && !LoaderAccepts(DROPPED)
  {
    hide Reaches;
    SubmittedReached(world);
    assert [BEGIN, HASH] + [EARLY] == [BEGIN, HASH, EARLY];
    assert HasHash(SUBMITTED.hashes, 100);
    OneStep(world, [BEGIN, HASH], SUBMITTED, 2, EARLY);
  }

  // Memory behind storage

  lemma LoadsNothing(r: Record, revision: nat)
    requires !LoaderAccepts(r)
    ensures Loaded(State([r], revision)) == State([], revision)
  {
    hide LoaderAccepts;
    var none: seq<Record> := [];
    assert [r][..0] == none && Accepted(none) == none && Accepted([r]) == none;
    assert Bounded(none) == Some(none);
  }

  lemma LoadsFirst(a: Record, b: Record, revision: nat)
    requires LoaderAccepts(a) && !LoaderAccepts(b)
    ensures Loaded(State([a, b], revision)) == State([a], revision)
  {
    hide LoaderAccepts, Bounded;
    var none: seq<Record> := [];
    assert [a, b][..1] == [a] && [a][..0] == none && none + [a] == [a];
    assert Accepted(none) == none && Accepted([a]) == [a] && Accepted([a, b]) == [a];
    assert SortByCreated([a]) == InsertByCreated(none, a) == [a];
    BoundedOne(a);
  }

  lemma JoinedPair(a: Record, b: Record)
    requires a.id != b.id
    ensures JoinedAll([], [a, b]) == [a, b] && JoinedAll([a], []) == [a] && FiledAll([a]) == [a] && FiledAll([]) == []
  {
    var none: seq<Record> := [];
    assert [a, b][..1] == [a] && [a][..0] == none && none + [a] == [a] && [a] + [b] == [a, b];
    assert JoinedAll(none, none) == none && IndexOf(none, a.id).None?;
    assert JoinedAll(none, [a]) == [a] && IndexOf([a], b.id).None?;
  }

  /** Memory and storage after the run that ends in the dropped record. */
  const BEHIND := State([DROPPED], 3)
  const STORED := State([SECOND, DROPPED], 4)

  /** The second intent is begun with a clock that moved back, while the first one is the record that the loader
      drops: the new journal is stored, its last record is the dropped one, and the durable check on it throws. */
  lemma DurableCheckThrows(world: World)
    requires world(100) == Sent(100)
    ensures Reaches(world, [BEGIN, HASH, EARLY], BEHIND)
    ensures MergedStates(BEHIND, Loaded(BEHIND)) == Some(BEHIND) && !Refused(BEHIND, OTHER)
    ensures WithRecords(BEHIND, BEHIND.records + [SECOND]) == Some(STORED)
    ensures Persisted(BEHIND, STORED) == Some(STORED) && !GivesBack(STORED, DROPPED)
  {
    hide LoaderAccepts, Bounded, RecordStep, JoinedAll, FiledAll, RetryBlocked, FamilyBlocked, Reaches, Loaded;
    DroppedByLoader(world);
    DroppedShape();
    LoadsNothing(DROPPED, 3);
    LoadsFirst(SECOND, DROPPED, 4);
    JoinedPair(DROPPED, SECOND);
    JoinedPair(SECOND, DROPPED);
    BoundedOne(DROPPED);
    BoundedPair(DROPPED, SECOND);
    BoundedPair(SECOND, DROPPED);
    assert [DROPPED] + [SECOND] == [DROPPED, SECOND];
  }

  lemma DroppedShape()
    ensures DROPPED.id == 1 && DROPPED.createdAt == 20 && DROPPED.reviewed == REVIEWED && NeedsMonitoring(DROPPED)
    ensures LoaderAccepts(SECOND) && NeedsMonitoring(SECOND)
    ensures !RetryBlocked(BEHIND, OTHER) && !FamilyBlocked(BEHIND, OTHER)
  {
    StepKeepsIdentity(FIRST, HASH);
    StepKeepsIdentity(SUBMITTED, EARLY);
    assert SUBMITTED.activeHash == Some(100);
  }

  // A family forgotten

  /** The record that the loader drops still blocks its family in memory. After a reload the journal is empty, and the
      same intent to remove liquidity is admitted again. */
  lemma ForgottenFamily(world: World, now: int)
    requires world(100) == Sent(100)
    ensures Reaches(world, [BEGIN, HASH, EARLY], BEHIND)
    ensures FamilyBlocked(BEHIND, REVIEWED)
    ensures var loaded := Loaded(BEHIND);
            && After(loaded, Recover(now)) == Some(loaded) && Persisted(BEHIND, loaded) == Some(State([], 3))
    ensures !Refused(State([], 3), REVIEWED)
  {
    hide LoaderAccepts, Bounded, RecordStep, JoinedAll, FiledAll, Reaches, Loaded;
    DroppedByLoader(world);
    DroppedShape();
    BlocksFamilyIffMonitored(DROPPED);
    assert DROPPED in BEHIND.records && SameFamily(DROPPED.reviewed, REVIEWED);
    LoadsNothing(DROPPED, 3);
    NothingJoined();
  }

  lemma NothingJoined()
    ensures JoinedAll(FiledAll([]), []) == [] && Bounded([]) == Some([])
  {
  }

  // An active hash lost

  const TO_SECOND := Check(1, 1, Seen(200, None, None, 25))
  const REPLACED_ONCE := RecordStep(SUBMITTED, TO_SECOND)
  const BACK := Check(1, 2, Seen(100, None, None, 25))
  const REPLACED_TWICE := RecordStep(REPLACED_ONCE, BACK)
  const TO_THIRD := Check(1, 3, Seen(300, None, None, 25))
  const REPLACED_THRICE := RecordStep(REPLACED_TWICE, TO_THIRD)

  lemma ReplacedOnce()
    ensures REPLACED_ONCE.status == Replaced && REPLACED_ONCE.revision == 2 && REPLACED_ONCE.activeHash == Some(200)
    ensures REPLACED_ONCE.hashes == [HashRecord(100, 21, Some(200), None, FirstSubmitted),
                                     HashRecord(200, 22, None, Some(100), Replacement)]
    ensures REPLACED_ONCE.actualNonce == Some(3) && REPLACED_ONCE.compatibility == Some(Matching)
    ensures REPLACED_ONCE.reviewed == REVIEWED && REPLACED_ONCE.id == 1 && REPLACED_ONCE.receipt.None?
    ensures REPLACED_ONCE != SUBMITTED
  {
    assert SUBMITTED.hashes == [HashRecord(100, 21, None, None, FirstSubmitted)];
    var linked := LinkReplaced(SUBMITTED.hashes, 100, 200);
    assert linked == [HashRecord(100, 21, Some(200), None, FirstSubmitted)];
    assert !HasHash(linked, 200);
  }

  lemma ReplacedTwice()
    ensures REPLACED_TWICE.status == Replaced && REPLACED_TWICE.revision == 3 && REPLACED_TWICE.activeHash == Some(100)
    ensures REPLACED_TWICE.hashes == [HashRecord(100, 21, Some(200), None, FirstSubmitted),
                                      HashRecord(200, 22, Some(100), Some(100), Replacement)]
    ensures REPLACED_TWICE.actualNonce == Some(3) && REPLACED_TWICE.reviewed == REVIEWED && REPLACED_TWICE.id == 1
    ensures REPLACED_TWICE.compatibility == Some(Matching) && REPLACED_TWICE.receipt.None?
  {
    ReplacedOnce();
    var linked := LinkReplaced(REPLACED_ONCE.hashes, 200, 100);
    assert linked == [HashRecord(100, 21, Some(200), None, FirstSubmitted),
                      HashRecord(200, 22, Some(100), Some(100), Replacement)];
    assert linked[0].hash == 100 && HasHash(linked, 100);
  }

  lemma ReplacedThrice()
    ensures REPLACED_THRICE.activeHash == Some(300) && REPLACED_THRICE.reviewed == REVIEWED
    ensures REPLACED_THRICE.hashes == AppendReplacement(REPLACED_TWICE.hashes, 100, 300, 22)
  {
    hide AppendReplacement;
    ReplacedTwice();
  }

  lemma ReplacementsReached(world: World)
    requires forall hash :: world(hash) == Sent(hash)
    ensures Reaches(world, [BEGIN, HASH, TO_SECOND, BACK], State([REPLACED_TWICE], 4))
  {
    hide Reaches;
    SubmittedReached(world);
    ReplacedOnce();
    ReplacedTwice();
    assert [BEGIN, HASH] + [TO_SECOND] == [BEGIN, HASH, TO_SECOND];
    OneStep(world, [BEGIN, HASH], SUBMITTED, 2, TO_SECOND);
    assert [BEGIN, HASH, TO_SECOND] + [BACK] == [BEGIN, HASH, TO_SECOND, BACK];
    OneStep(world, [BEGIN, HASH, TO_SECOND], REPLACED_ONCE, 3, BACK);
  }

  /** Hash 100 is replaced by 200 and comes back; when 300 then replaces it, the merge with the copy from before
      knows only of 200, and the record is left without an active hash. */
  lemma ActiveHashLost(world: World)
    requires forall hash :: world(hash) == Sent(hash)
    ensures Reaches(world, [BEGIN, HASH, TO_SECOND, BACK], State([REPLACED_TWICE], 4))
    ensures REPLACED_THRICE.activeHash == Some(300)
    ensures var m := MergedRecord(REPLACED_TWICE, REPLACED_THRICE); m.activeHash.None? && m.status == Reconciling
  {
    hide MergedRecord, AppendReplacement, RecordStep, Reaches;
    ReplacementsReached(world);
    ReplacedTwice();
    ReplacedThrice();
    var hashes := REPLACED_TWICE.hashes;
    assert hashes[0].hash == 100 && HasHash(hashes, 100);
    assert FindHash(hashes, 100) == Some(hashes[0]);
    NoThird(hashes);
    PersistedActiveHashIff(REPLACED_TWICE, REPLACED_THRICE, 22);
  }

  lemma NoThird(hashes: seq<HashRecord>)
    requires |hashes| == 2 && hashes[0].hash == 100 && hashes[1].hash == 200
    ensures FindHash(hashes, 300).None? && DistinctHashes(hashes)
  {
    FindHashMember(hashes, 300);
  }
}
