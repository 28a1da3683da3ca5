/** Runs of the journal, over a journal bounded to 200 records. */
module JournalRuns {
  // Intents are admitted under the lock, wallet results may arrive late, a reload recovers, and monitored records
  // are checked.

  import opened Domain
  import opened Journal

  const MAX_RECORDS: nat := 200

  datatype State = State(records: seq<Record>, revision: nat)

  const EMPTY := State([], 0)

  // Bounding

  function OpenOf(records: seq<Record>): seq<Record> {
    if records == [] then []
    else
      var rest, last := OpenOf(records[..|records| - 1]), records[|records| - 1];
      if IsTerminal(last) then rest else rest + [last]
  }

  function ClosedOf(records: seq<Record>): seq<Record> {
    if records == [] then []
    else
      var rest, last := ClosedOf(records[..|records| - 1]), records[|records| - 1];
      if IsTerminal(last) then rest + [last] else rest
  }

  /** Insertion after every record created no later: a stable sort by creation time. */
  function InsertByCreated(sorted: seq<Record>, r: Record): (s: seq<Record>)
    ensures |s| == |sorted| + 1
  {
    if sorted == [] || sorted[|sorted| - 1].createdAt <= r.createdAt then sorted + [r]
    else InsertByCreated(sorted[..|sorted| - 1], r) + [sorted[|sorted| - 1]]
  }

  function SortByCreated(records: seq<Record>): (s: seq<Record>)
    ensures |s| == |records|
  {
    if records == [] then [] else InsertByCreated(SortByCreated(records[..|records| - 1]), records[|records| - 1])
  }

  function LastOf(records: seq<Record>, n: nat): seq<Record> {
    if n >= |records| then records else records[|records| - n..]
  }

  /** All open records and the latest terminal ones that fit, by creation time; `None` where the code throws. */
  function Bounded(records: seq<Record>): Option<seq<Record>> {
    var open := OpenOf(records);
    if |open| > MAX_RECORDS then None
    else Some(SortByCreated(open + LastOf(ClosedOf(records), MAX_RECORDS - |open|)))
  }

  function WithRecords(s: State, records: seq<Record>): Option<State> {
    var bounded := Bounded(records);
    if bounded.None? then None else Some(State(bounded.value, s.revision + 1))
  }

  // Blocking

  predicate SameFamily(a: Reviewed, b: Reviewed) {
    && a.intent == RemoveLiquidity && b.intent == RemoveLiquidity && a.scope == b.scope && a.target == b.target
    && FoldedPool(a) == FoldedPool(b)
  }

  function FoldedPool(r: Reviewed): Option<Id> {
    if r.pool.None? then None else Some(r.pool.value.folded)
  }

  predicate FamilyBlocked(s: State, reviewed: Reviewed) {
    exists r :: r in s.records && SameFamily(r.reviewed, reviewed) && BlocksFamily(r)
  }

  predicate SameRetryKey(a: Reviewed, b: Reviewed) {
    && a.intent == b.intent && a.contracts == b.contracts && a.target == b.target && a.value == b.value
    && if a.intent == Approval then a.calldata == b.calldata
       else a.pool == b.pool && a.recipient == b.recipient && a.refundRecipient == b.refundRecipient
            && a.settings == b.settings
  }

  predicate RetryBlocked(s: State, reviewed: Reviewed) {
    exists r :: r in s.records && r.reviewed.scope == reviewed.scope && SameRetryKey(r.reviewed, reviewed) && BlocksRetry(r)
  }

  // Steps

  datatype Action =
    | Begin(reviewed: Reviewed, expectedNonce: nat, submissionBlock: nat, now: int, id: Id)
    | HashReturned(id: Id, revision: nat, hash: Id, now: int)
    | RejectionReturned(id: Id, revision: nat, text: Id, now: int)
    | UnknownReturned(id: Id, revision: nat, text: Id, now: int)
    | AbortRequested(id: Id, revision: nat, now: int)
    | Recover(now: int)
    | Check(id: Id, revision: nat, observation: Report)
    | Defer(id: Id, revision: nat, now: int)

  /** What an action other than `Begin` does to a record. */
  function RecordStep(r: Record, a: Action): Record {
    match a
    case Begin(_, _, _, _, _) => r
    case HashReturned(id, revision, hash, now) => if r.id == id then WithSubmitted(r, revision, hash, now) else r
    case RejectionReturned(id, revision, text, now) => if r.id == id then WithRejected(r, revision, text, now) else r
    case UnknownReturned(id, revision, text, now) => if r.id == id then WithUnknown(r, revision, text, now) else r
    case AbortRequested(id, revision, now) => if r.id == id then WithAborted(r, revision, now) else r
    case Recover(now) => WithRecovered(r, now)
    case Check(id, _, o) => if r.id == id then Observed(r, o, CONFIRMATIONS) else r
    case Defer(id, _, now) => if r.id == id then WithDeferred(r, now) else r
  }

  function StepAll(records: seq<Record>, a: Action): (r: seq<Record>)
    ensures |r| == |records|
    ensures forall i :: 0 <= i < |records| ==> r[i] == RecordStep(records[i], a)
  {
    seq(|records|, i requires 0 <= i < |records| => RecordStep(records[i], a))
  }

  /** Checks and deferrals reach only records that are monitored and unchanged since they were selected. */
  predicate Possible(s: State, a: Action) {
    match a
    case Begin(_, _, _, _, id) => forall r :: r in s.records ==> r.id != id
    case Check(id, revision, _) => Monitors(s, id, revision)
    case Defer(id, revision, _) => Monitors(s, id, revision)
    case _ => true
  }

  predicate Monitors(s: State, id: Id, revision: nat) {
    forall r :: r in s.records && r.id == id ==> r.revision == revision && NeedsMonitoring(r) && r.status != AwaitingWallet
  }

  /** A refused intent: blocked by an unresolved one, or no room left in a journal of open records. */
  predicate Refused(s: State, reviewed: Reviewed) {
    || RetryBlocked(s, reviewed) || FamilyBlocked(s, reviewed)
    || (|s.records| >= MAX_RECORDS && forall r :: r in s.records ==> !IsTerminal(r))
  }

  /** The state after an action; `None` where the code throws. */
  function After(s: State, a: Action): Option<State> {
    match a
    case Begin(reviewed, nonce, block, now, id) =>
      if Refused(s, reviewed) then None else WithRecords(s, s.records + [Began(reviewed, nonce, block, now, id)])
    case Check(_, _, _) => Some(State(StepAll(s.records, a), s.revision + 1))
    case Defer(_, _, _) => Some(State(StepAll(s.records, a), s.revision + 1))
    case _ => if StepAll(s.records, a) == s.records then Some(s) else WithRecords(s, StepAll(s.records, a))
  }

  // Bounding keeps what matters

  lemma {:induction false} OpenOfMembers(records: seq<Record>)
    ensures forall r :: r in OpenOf(records) <==> r in records && !IsTerminal(r)
    ensures |OpenOf(records)| + |ClosedOf(records)| == |records|
  {
    hide NeedsMonitoring;
    if records != [] {
      OpenOfMembers(records[..|records| - 1]);
      assert records == records[..|records| - 1] + [records[|records| - 1]];
    }
  }

  lemma {:induction false} ClosedOfMembers(records: seq<Record>)
    ensures forall r :: r in ClosedOf(records) <==> r in records && IsTerminal(r)
  {
    hide NeedsMonitoring;
    if records != [] {
      ClosedOfMembers(records[..|records| - 1]);
      assert records == records[..|records| - 1] + [records[|records| - 1]];
    }
  }

  lemma {:induction false} InsertByCreatedMembers(sorted: seq<Record>, r: Record)
    ensures forall x :: x in InsertByCreated(sorted, r) <==> x in sorted || x == r
  {
    if sorted != [] && sorted[|sorted| - 1].createdAt > r.createdAt {
      InsertByCreatedMembers(sorted[..|sorted| - 1], r);
      assert sorted == sorted[..|sorted| - 1] + [sorted[|sorted| - 1]];
    }
  }

  lemma {:induction false} SortByCreatedMembers(records: seq<Record>)
    ensures forall x :: x in SortByCreated(records) <==> x in records
  {
    if records != [] {
      SortByCreatedMembers(records[..|records| - 1]);
      InsertByCreatedMembers(SortByCreated(records[..|records| - 1]), records[|records| - 1]);
      assert records == records[..|records| - 1] + [records[|records| - 1]];
    }
  }

  ghost predicate DistinctIds(records: seq<Record>) {
    forall i, j :: 0 <= i < j < |records| ==> records[i].id != records[j].id
  }

  lemma {:induction false} InsertByCreatedDistinct(sorted: seq<Record>, r: Record)
    requires DistinctIds(sorted) && forall x :: x in sorted ==> x.id != r.id
    ensures DistinctIds(InsertByCreated(sorted, r))
  {
    if sorted != [] && sorted[|sorted| - 1].createdAt > r.createdAt {
      var init, last := sorted[..|sorted| - 1], sorted[|sorted| - 1];
      assert sorted == init + [last];
      InsertByCreatedDistinct(init, r);
      InsertByCreatedMembers(init, r);
      var s := InsertByCreated(init, r);
      forall i | 0 <= i < |s|
        ensures s[i].id != last.id
      {
        assert s[i] in s;
      }
    }
  }

  lemma {:induction false} SortByCreatedDistinct(records: seq<Record>)
    requires DistinctIds(records)
    ensures DistinctIds(SortByCreated(records))
  {
    if records != [] {
      var init, last := records[..|records| - 1], records[|records| - 1];
      SortByCreatedDistinct(init);
      SortByCreatedMembers(init);
      InsertByCreatedDistinct(SortByCreated(init), last);
    }
  }

  lemma {:induction false} PartsDistinct(records: seq<Record>)
    requires DistinctIds(records)
    ensures DistinctIds(OpenOf(records)) && DistinctIds(ClosedOf(records))
  {
    hide NeedsMonitoring;
    if records != [] {
      var init, last := records[..|records| - 1], records[|records| - 1];
      PartsDistinct(init);
      OpenOfMembers(init);
      ClosedOfMembers(init);
      FreshLast(records);
      AppendDistinct(OpenOf(init), last);
      AppendDistinct(ClosedOf(init), last);
    }
  }

  lemma FreshLast(records: seq<Record>)
    requires DistinctIds(records) && records != []
    ensures forall x :: x in records[..|records| - 1] ==> x.id != records[|records| - 1].id
  {
  }

  lemma AppendDistinct(records: seq<Record>, r: Record)
    requires DistinctIds(records)
    ensures (forall x :: x in records ==> x.id != r.id) ==> DistinctIds(records + [r])
  {
  }

  lemma ConcatDistinct(a: seq<Record>, b: seq<Record>)
    requires DistinctIds(a) && DistinctIds(b) && forall x, y :: x in a && y in b ==> x.id != y.id
    ensures DistinctIds(a + b)
  {
  }

  /** Bounding drops terminal records only, never an open one, and fails only on too many open records. */
  lemma BoundedKeeps(records: seq<Record>)
    requires DistinctIds(records)
    ensures Bounded(records).None? <==> |OpenOf(records)| > MAX_RECORDS
    ensures Bounded(records).Some? ==>
              var b := Bounded(records).value;
              && |b| <= MAX_RECORDS && DistinctIds(b)
              && (forall r :: r in b ==> r in records)
              && (forall r :: r in records && !IsTerminal(r) ==> r in b)
              && (|records| <= MAX_RECORDS ==> forall r :: r in records ==> r in b)
  {
    hide NeedsMonitoring, DistinctIds;
    var open, closed := OpenOf(records), ClosedOf(records);
    if |open| <= MAX_RECORDS {
      var kept := LastOf(closed, MAX_RECORDS - |open|);
      OpenOfMembers(records);
      ClosedOfMembers(records);
      PartsDistinct(records);
      LastOfKeeps(closed, MAX_RECORDS - |open|);
      IdsApart(records, open, kept);
      ConcatDistinct(open, kept);
      SortByCreatedMembers(open + kept);
      SortByCreatedDistinct(open + kept);
    }
  }

  lemma LastOfKeeps(records: seq<Record>, n: nat)
    requires DistinctIds(records)
    ensures DistinctIds(LastOf(records, n)) && |LastOf(records, n)| <= n
    ensures forall r :: r in LastOf(records, n) ==> r in records
    ensures n >= |records| ==> LastOf(records, n) == records
  {
  }

  lemma IdsApart(records: seq<Record>, open: seq<Record>, closed: seq<Record>)
    requires DistinctIds(records)
    requires forall r :: r in open ==> r in records && !IsTerminal(r)
    requires forall r :: r in closed ==> r in records && IsTerminal(r)
    ensures forall x, y :: x in open && y in closed ==> x.id != y.id
  {
    hide NeedsMonitoring;
    forall x, y | x in open && y in closed
      ensures x.id != y.id
    {
      var i :| 0 <= i < |records| && records[i] == x;
      var j :| 0 <= j < |records| && records[j] == y;
      assert i != j;
    }
  }

  // What every run keeps

  /** At most one open remove-liquidity record per scope, pool and target. */
  ghost predicate FamiliesUnique(records: seq<Record>) {
    forall a, b :: a in records && b in records && SameFamily(a.reviewed, b.reviewed) && BlocksFamily(a) && BlocksFamily(b)
                   ==> a.id == b.id
  }

  ghost predicate AllOk(world: World, records: seq<Record>) {
    forall r :: r in records ==> RecordOk(world, r, CONFIRMATIONS)
  }

  ghost predicate StateOk(world: World, s: State) {
    |s.records| <= MAX_RECORDS && DistinctIds(s.records) && FamiliesUnique(s.records) && AllOk(world, s.records)
  }

  /** An action on a record it can reach never turns a resolved record into one that blocks its family again. */
  lemma NeverReopens(s: State, a: Action, r: Record)
    requires Possible(s, a) && r in s.records && BlocksFamily(RecordStep(r, a))
    ensures BlocksFamily(r)
  {
    hide Observed, NeedsMonitoring, AppendHash, WalletResultAllowed;
    BlocksFamilyIffMonitored(r);
    if IsTerminal(r) {
      ResolvedStays(s, a, r);
    }
  }

  lemma ResolvedStays(s: State, a: Action, r: Record)
    requires Possible(s, a) && r in s.records && IsTerminal(r)
    ensures !BlocksFamily(RecordStep(r, a))
  {
    hide Observed, AppendHash;
    BlocksFamilyIffMonitored(r);
    BlocksFamilyIffMonitored(RecordStep(r, a));
    match a
    case Begin(_, _, _, _, _) =>
    case HashReturned(id, revision, hash, now) => TerminalAbsorbs(r, revision, hash, 0, now);
    case RejectionReturned(id, revision, text, now) => TerminalAbsorbs(r, revision, 0, text, now);
    case UnknownReturned(id, revision, text, now) => TerminalAbsorbs(r, revision, 0, text, now);
    case AbortRequested(id, revision, now) => TerminalAbsorbs(r, revision, 0, 0, now);
    case Recover(now) => TerminalAbsorbs(r, 0, 0, 0, now);
    case Check(id, revision, o) =>
    case Defer(id, revision, now) => TerminalAbsorbs(r, 0, 0, 0, now);
  }

  lemma StepKeepsIdentity(r: Record, a: Action)
    ensures RecordStep(r, a).id == r.id && RecordStep(r, a).reviewed == r.reviewed
    ensures RecordStep(r, a).createdAt == r.createdAt
  {
    hide Observed, AppendHash, WalletResultAllowed;
    if a.Check? {
      ObservedAdvances(r, a.observation, CONFIRMATIONS);
    }
  }

  ghost predicate TruthfulAction(world: World, a: Action) {
    a.Check? ==> Truthful(world, a.observation)
  }

  lemma StepOk(world: World, r: Record, a: Action)
    requires RecordOk(world, r, CONFIRMATIONS) && TruthfulAction(world, a)
    ensures RecordOk(world, RecordStep(r, a), CONFIRMATIONS)
  {
    hide Observed, RecordOk, WithSubmitted, WithRejected, WithUnknown, WithAborted, WithRecovered, WithDeferred, Truthful;
    match a
    case Begin(_, _, _, _, _) =>
    case HashReturned(id, revision, hash, now) => WalletStepsOk(world, r, revision, hash, 0, now, CONFIRMATIONS);
    case RejectionReturned(id, revision, text, now) => WalletStepsOk(world, r, revision, 0, text, now, CONFIRMATIONS);
    case UnknownReturned(id, revision, text, now) => WalletStepsOk(world, r, revision, 0, text, now, CONFIRMATIONS);
    case AbortRequested(id, revision, now) => WalletStepsOk(world, r, revision, 0, 0, now, CONFIRMATIONS);
    case Recover(now) => WalletStepsOk(world, r, 0, 0, 0, now, CONFIRMATIONS);
    case Check(id, revision, o) => ObservedOk(world, r, o, CONFIRMATIONS);
    case Defer(id, revision, now) => WalletStepsOk(world, r, 0, 0, 0, now, CONFIRMATIONS);
  }

  lemma StepAllOk(world: World, s: State, a: Action)
    requires StateOk(world, s) && Possible(s, a) && TruthfulAction(world, a)
    ensures var next := StepAll(s.records, a);
            DistinctIds(next) && FamiliesUnique(next) && AllOk(world, next)
  {
    hide RecordStep, RecordOk, BlocksFamily, SameFamily, Possible, TruthfulAction;
    var next := StepAll(s.records, a);
    forall i | 0 <= i < |next|
      ensures next[i].id == s.records[i].id && next[i].reviewed == s.records[i].reviewed
      ensures RecordOk(world, next[i], CONFIRMATIONS)
      ensures BlocksFamily(next[i]) ==> BlocksFamily(s.records[i])
    {
      assert s.records[i] in s.records;
      StepKeepsIdentity(s.records[i], a);
      StepOk(world, s.records[i], a);
      if BlocksFamily(next[i]) {
        NeverReopens(s, a, s.records[i]);
      }
    }
    FamiliesPointwise(s.records, next);
  }

  lemma FamiliesPointwise(before: seq<Record>, after: seq<Record>)
    requires |after| == |before| && FamiliesUnique(before)
    requires forall i :: 0 <= i < |after| ==>
               after[i].id == before[i].id && after[i].reviewed == before[i].reviewed
               && (BlocksFamily(after[i]) ==> BlocksFamily(before[i]))
    ensures FamiliesUnique(after)
  {
    hide BlocksFamily, SameFamily;
    forall a, b | a in after && b in after && SameFamily(a.reviewed, b.reviewed) && BlocksFamily(a) && BlocksFamily(b)
      ensures a.id == b.id
    {
      var i :| 0 <= i < |after| && after[i] == a;
      var j :| 0 <= j < |after| && after[j] == b;
      assert before[i] in before && before[j] in before;
    }
  }

  lemma BoundedOk(world: World, s: State, records: seq<Record>)
    requires DistinctIds(records) && FamiliesUnique(records) && AllOk(world, records)
    requires WithRecords(s, records).Some?
    ensures StateOk(world, WithRecords(s, records).value)
  {
    hide Bounded, RecordOk, BlocksFamily, SameFamily, DistinctIds, NeedsMonitoring;
    BoundedKeeps(records);
  }

  lemma BeginOk(world: World, s: State, reviewed: Reviewed, r: Record)
    requires StateOk(world, s) && !FamilyBlocked(s, reviewed) && r.reviewed == reviewed
    requires forall x :: x in s.records ==> x.id != r.id
    requires RecordOk(world, r, CONFIRMATIONS)
    ensures var next := s.records + [r]; DistinctIds(next) && FamiliesUnique(next) && AllOk(world, next)
  {
    hide BlocksFamily, RecordOk, SameFamily;
    var next := s.records + [r];
    AppendDistinct(s.records, r);
    forall x | x in s.records && BlocksFamily(x)
      ensures !SameFamily(x.reviewed, reviewed) && !SameFamily(reviewed, x.reviewed)
    {
      FamilySymmetric(x.reviewed, reviewed);
    }
  }

  lemma FamilySymmetric(a: Reviewed, b: Reviewed)
    ensures SameFamily(a, b) <==> SameFamily(b, a)
  {
  }

  /** Every step keeps the journal within its bound, its ids distinct, its records sound, and at most one open
      remove-liquidity record per scope, pool and target. */
  lemma AfterOk(world: World, s: State, a: Action)
    requires StateOk(world, s) && Possible(s, a) && TruthfulAction(world, a) && After(s, a).Some?
    ensures StateOk(world, After(s, a).value)
  {
    hide RecordStep, Bounded, RetryBlocked, FamilyBlocked, FamiliesUnique, DistinctIds, AllOk, Began;
    if a.Begin? {
      var r := Began(a.reviewed, a.expectedNonce, a.submissionBlock, a.now, a.id);
      BeganOk(world, a.reviewed, a.expectedNonce, a.submissionBlock, a.now, a.id, CONFIRMATIONS);
      BeganIdentity(a.reviewed, a.expectedNonce, a.submissionBlock, a.now, a.id);
      BeginOk(world, s, a.reviewed, r);
      BoundedOk(world, s, s.records + [r]);
    } else {
      StepAllOk(world, s, a);
      if !a.Check? && !a.Defer? && StepAll(s.records, a) != s.records {
        BoundedOk(world, s, StepAll(s.records, a));
      }
    }
  }

  lemma BeganIdentity(reviewed: Reviewed, nonce: nat, block: nat, now: int, id: Id)
    ensures var r := Began(reviewed, nonce, block, now, id);
            r.id == id && r.reviewed == reviewed && r.createdAt == now && !IsTerminal(r)
  {
  }

  /** No step but a refused intent throws, and every record that is open after its step is retained. */
  lemma AfterKeepsOpen(world: World, s: State, a: Action)
    requires StateOk(world, s) && Possible(s, a) && TruthfulAction(world, a)
    ensures After(s, a).None? <==> a.Begin? && Refused(s, a.reviewed)
    ensures After(s, a).Some? ==>
              forall r :: r in StepAll(s.records, a) && !IsTerminal(r) ==> r in After(s, a).value.records
  {
    hide RecordStep, RetryBlocked, FamilyBlocked, FamiliesUnique, DistinctIds, AllOk, Began, Bounded, NeedsMonitoring;
    if a.Begin? {
      if !Refused(s, a.reviewed) {
        var r := Began(a.reviewed, a.expectedNonce, a.submissionBlock, a.now, a.id);
        BeganOk(world, a.reviewed, a.expectedNonce, a.submissionBlock, a.now, a.id, CONFIRMATIONS);
        BeganIdentity(a.reviewed, a.expectedNonce, a.submissionBlock, a.now, a.id);
        BeginOk(world, s, a.reviewed, r);
        BoundedKeeps(s.records + [r]);
        RoomForOne(s.records, r);
        BeginStepsNothing(s.records, a);
      }
    } else {
      StepAllOk(world, s, a);
      BoundedKeeps(StepAll(s.records, a));
      OpenOfMembers(StepAll(s.records, a));
    }
  }

  lemma BeginStepsNothing(records: seq<Record>, a: Action)
    requires a.Begin?
    ensures StepAll(records, a) == records
  {
  }

  lemma RoomForOne(records: seq<Record>, r: Record)
    requires |records| <= MAX_RECORDS
    requires |records| >= MAX_RECORDS ==> exists x :: x in records && IsTerminal(x)
    ensures |OpenOf(records + [r])| <= MAX_RECORDS
  {
    hide NeedsMonitoring;
    OpenOfMembers(records + [r]);
    if |records| == MAX_RECORDS {
      ClosedOfMembers(records + [r]);
      var x :| x in records && IsTerminal(x);
      assert x in ClosedOf(records + [r]);
    }
  }

  ghost predicate Reaches(world: World, actions: seq<Action>, s: State) {
    if actions == [] then s == EMPTY
    else
      var a := actions[|actions| - 1];
      exists before :: Reaches(world, actions[..|actions| - 1], before)
                       && Possible(before, a) && TruthfulAction(world, a) && After(before, a) == Some(s)
  }

  /** Main result on runs: in every state that any sequence of admitted steps reaches, the journal is sound. */
  lemma {:induction false} RunsOk(world: World, actions: seq<Action>, s: State)
    requires Reaches(world, actions, s)
    ensures StateOk(world, s)
  {
    hide StateOk, Possible, After, TruthfulAction;
    if actions == [] {
      EmptyOk(world);
    } else {
      var a := actions[|actions| - 1];
      var before :| Reaches(world, actions[..|actions| - 1], before)
                    && Possible(before, a) && TruthfulAction(world, a) && After(before, a) == Some(s);
      RunsOk(world, actions[..|actions| - 1], before);
      AfterOk(world, before, a);
    }
  }

  lemma EmptyOk(world: World)
    ensures StateOk(world, EMPTY)
  {
  }

  // The handle of a new intent

  /** The last record after sorting: the last of those created latest. */
  function LastCreated(records: seq<Record>): Record
    requires records != []
  {
    var last := records[|records| - 1];
    if |records| == 1 then last
    else
      var earlier := LastCreated(records[..|records| - 1]);
      if earlier.createdAt <= last.createdAt then last else earlier
  }

  lemma {:induction false} SortedLast(records: seq<Record>)
    requires records != []
    ensures SortByCreated(records)[|records| - 1] == LastCreated(records)
  {
    if |records| > 1 {
      SortedLast(records[..|records| - 1]);
    } else {
      assert records[..0] == [];
    }
  }

  lemma {:induction false} LastCreatedSplits(before: seq<Record>, r: Record, after: seq<Record>)
    requires forall x :: x in before || x in after ==> x.id != r.id
    ensures LastCreated(before + [r] + after).id == r.id <==>
              (forall x :: x in before ==> x.createdAt <= r.createdAt)
              && (forall x :: x in after ==> x.createdAt < r.createdAt)
    ensures LastCreated(before + [r] + after).createdAt >= r.createdAt
    ensures LastCreated(before + [r] + after) in before + [r] + after
    decreases |after|, 1
  {
    var all := before + [r] + after;
    if after == [] {
      assert all == before + [r] && all[..|all| - 1] == before;
      if before != [] {
        LatestIsMax(before);
      }
    } else {
      var init, last := after[..|after| - 1], after[|after| - 1];
      assert all[..|all| - 1] == before + [r] + init && after == init + [last];
      LastCreatedSplits(before, r, init);
    }
  }

  lemma {:induction false} LatestIsMax(records: seq<Record>)
    requires records != []
    ensures LastCreated(records) in records
    ensures forall x :: x in records ==> x.createdAt <= LastCreated(records).createdAt
  {
    if |records| > 1 {
      LatestIsMax(records[..|records| - 1]);
      assert records == records[..|records| - 1] + [records[|records| - 1]];
    }
  }

  /** The provider takes the last record of the bounded journal for the new intent. That is the new intent exactly
      when no retained open record was created later and every retained terminal record was created earlier; a clock
      that moved back, or a terminal record of the same millisecond, makes it hand out another record's handle. */
  lemma BeginHandleIff(s: State, r: Record)
    requires DistinctIds(s.records) && (forall x :: x in s.records ==> x.id != r.id)
    requires !IsTerminal(r) && Bounded(s.records + [r]).Some?
    ensures var next := Bounded(s.records + [r]).value;
            var kept := LastOf(ClosedOf(s.records), MAX_RECORDS - |OpenOf(s.records)| - 1);
            && |OpenOf(s.records)| < MAX_RECORDS && next != []
            && (next[|next| - 1].id == r.id <==>
                  (forall x :: x in s.records && !IsTerminal(x) ==> x.createdAt <= r.createdAt)
                  && (forall x :: x in kept ==> x.createdAt < r.createdAt))
  {
    hide NeedsMonitoring, DistinctIds;
    var all := s.records + [r];
    assert all[..|s.records|] == s.records;
    assert OpenOf(all) == OpenOf(s.records) + [r] && ClosedOf(all) == ClosedOf(s.records);
    var kept := LastOf(ClosedOf(s.records), MAX_RECORDS - |OpenOf(s.records)| - 1);
    OpenOfMembers(s.records);
    ClosedOfMembers(s.records);
    PartsDistinct(s.records);
    LastOfKeeps(ClosedOf(s.records), MAX_RECORDS - |OpenOf(s.records)| - 1);
    LastCreatedSplits(OpenOf(s.records), r, kept);
    SortedLast(OpenOf(s.records) + [r] + kept);
  }
}
