/** The transaction journal's records: the transitions that the wallet and the reconciler make on one record, and
    what no adversarial sequence of observations can break. */
module Journal {
  import opened Domain

  const CONFIRMATIONS: nat := 2
  const MONITOR_CONFIRMATIONS: nat := 12
  const TIMEOUT_MS := 600_000
  const WALLET_LEASE_MS := 300_000

  datatype IntentClass = Approval | CreatePool | AddLiquidity | SwapTokens | RemoveLiquidity

  datatype Scope = Scope(account: Id, chainId: int, environment: Id, deploymentEpoch: Id)

  /** A pool identifier as written: some comparisons fold its letter case, some do not. */
  datatype PoolName = PoolName(folded: Id, spelling: Id)

  datatype Reviewed = Reviewed(scope: Scope, intent: IntentClass, contracts: Id, execution: Id, settings: Id,
                               calldata: Id, pool: Option<PoolName>, recipient: Option<Id>, refundRecipient: Option<Id>,
                               target: Id, value: nat)

  datatype Status =
    | AwaitingWallet | Aborted | Reconciling | UnknownSubmission | Rejected | Submitted
    | Confirming | Canonical | Reverted | Replaced | Orphaned | TimedOut

  datatype Role = FirstSubmitted | Replacement

  datatype HashRecord = HashRecord(hash: Id, observedAt: int, replacedByHash: Option<Id>, replacesHash: Option<Id>, role: Role)

  datatype Receipt = Receipt(blockHash: Id, block: nat, hash: Id, success: bool)

  datatype Compatibility = Matching | Incompatible

  datatype Reason = WalletMessage(text: Id) | ContextChanged | AppReloaded | UnrelatedNonce | ReceiptGone | ReceiptVanished
                  | BlockNotCanonical | IdentityTimeout | ReceiptTimeout | ExecutionReverted | NonceReplaced
                  | UnlinkedHashes

  datatype Record = Record(actualNonce: Option<nat>, activeHash: Option<Id>, receipt: Option<Receipt>,
                           confirmations: nat, createdAt: int, hashes: seq<HashRecord>, id: Id,
                           lastCheckedAt: Option<int>, revision: nat, expectedNonce: nat, attempts: nat,
                           reason: Option<Reason>, compatibility: Option<Compatibility>, finalized: bool,
                           reviewed: Reviewed, status: Status, scanCursor: nat, submissionBlock: nat,
                           submittedAt: Option<int>, timeoutAt: int, updatedAt: int, leaseUntil: int)

  datatype Lookup = Found | Missing | Unavailable

  datatype Transaction = Transaction(hash: Id, from: Id, nonce: nat, target: Option<Id>, calldata: Id, value: nat)

  datatype Report = Report(canonicalLookup: Lookup, canonicalHash: Option<Id>, head: Option<nat>,
                                     latestNonce: Option<nat>, now: int, pendingNonce: Option<nat>,
                                     receiptLookup: Lookup, receipt: Option<Receipt>,
                                     transaction: Option<Transaction>, transactionLookup: Lookup,
                                     scannedThrough: Option<nat>)

  // Classification

  predicate NeedsMonitoring(r: Record) {
    && r.status != Rejected && r.status != Aborted
    && !(r.status == Reverted && r.confirmations >= MONITOR_CONFIRMATIONS)
    && !(r.status == Canonical && r.confirmations >= MONITOR_CONFIRMATIONS)
    && !(r.status == Replaced && r.compatibility == Some(Incompatible) && r.finalized
         && r.confirmations >= MONITOR_CONFIRMATIONS)
  }

  predicate IsTerminal(r: Record) {
    !NeedsMonitoring(r)
  }

  predicate BlocksFamily(r: Record) {
    if r.status == Rejected || r.status == Aborted then false
    else if r.status == Canonical then r.confirmations < MONITOR_CONFIRMATIONS
    else if r.status == Reverted then r.confirmations < MONITOR_CONFIRMATIONS
    else if r.status == Replaced && r.compatibility == Some(Incompatible) then
      !r.finalized || r.confirmations < MONITOR_CONFIRMATIONS
    else true
  }

  predicate BlocksRetry(r: Record) {
    && r.status != Canonical && r.status != Rejected && r.status != Aborted
    && !(r.status == Reverted && r.confirmations >= MONITOR_CONFIRMATIONS)
    && !(r.status == Replaced && r.compatibility == Some(Incompatible) && r.finalized)
  }

  // Wallet results

  predicate WalletResultAllowed(r: Record, expectedRevision: nat) {
    if r.activeHash.Some? || r.actualNonce.Some? || IsTerminal(r) then false
    else if r.revision == expectedRevision then r.status == AwaitingWallet
    else r.revision > expectedRevision && (r.status == UnknownSubmission || r.status == Reconciling || r.status == TimedOut)
  }

  predicate HasHash(hashes: seq<HashRecord>, hash: Id) {
    exists h :: h in hashes && h.hash == hash
  }

  function AppendHash(hashes: seq<HashRecord>, hash: Id, now: int): seq<HashRecord> {
    if HasHash(hashes, hash) then hashes else hashes + [HashRecord(hash, now, None, None, FirstSubmitted)]
  }

  function LinkReplaced(hashes: seq<HashRecord>, replaced: Id, replacement: Id): (r: seq<HashRecord>)
    ensures |r| == |hashes|
  {
    seq(|hashes|, i requires 0 <= i < |hashes| =>
      if hashes[i].hash == replaced then hashes[i].(replacedByHash := Some(replacement)) else hashes[i])
  }

  function AppendReplacement(hashes: seq<HashRecord>, replaced: Id, replacement: Id, now: int): seq<HashRecord> {
    var linked := LinkReplaced(hashes, replaced, replacement);
    if HasHash(linked, replacement) then linked
    else linked + [HashRecord(replacement, now, None, Some(replaced), Replacement)]
  }

  function Began(reviewed: Reviewed, expectedNonce: nat, submissionBlock: nat, now: int, id: Id): Record {
    Record(None, None, None, 0, now, [], id, None, 0, expectedNonce, 0, None, None, false, reviewed, AwaitingWallet,
           Rewind(submissionBlock), submissionBlock, None, 0, now, now + WALLET_LEASE_MS)
  }

  function Rewind(submissionBlock: nat): nat {
    if submissionBlock > 0 then submissionBlock - 1 else 0
  }

  function WithSubmitted(r: Record, expectedRevision: nat, hash: Id, now: int): Record {
    if !WalletResultAllowed(r, expectedRevision) then r
    else r.(activeHash := Some(hash), hashes := AppendHash(r.hashes, hash, now), revision := r.revision + 1,
            reason := None, status := Submitted, submittedAt := r.submittedAt.Or(Some(now)),
            timeoutAt := now + TIMEOUT_MS, updatedAt := now)
  }

  function WithRejected(r: Record, expectedRevision: nat, text: Id, now: int): Record {
    if !WalletResultAllowed(r, expectedRevision) then r
    else r.(revision := r.revision + 1, reason := Some(WalletMessage(text)), status := Rejected, updatedAt := now)
  }

  function WithUnknown(r: Record, expectedRevision: nat, text: Id, now: int): Record {
    if !WalletResultAllowed(r, expectedRevision) then r
    else r.(revision := r.revision + 1, reason := Some(WalletMessage(text)), status := UnknownSubmission,
            timeoutAt := now + TIMEOUT_MS, updatedAt := now)
  }

  function WithAborted(r: Record, expectedRevision: nat, now: int): Record {
    if r.revision != expectedRevision || r.status != AwaitingWallet then r
    else r.(revision := r.revision + 1, reason := Some(ContextChanged), status := Aborted, updatedAt := now)
  }

  function WithRecovered(r: Record, now: int): Record {
    if r.status != AwaitingWallet || r.leaseUntil > now then r
    else r.(revision := r.revision + 1, reason := Some(AppReloaded), status := UnknownSubmission,
            timeoutAt := now + TIMEOUT_MS, updatedAt := now)
  }

  function WithDeferred(r: Record, now: int): Record {
    r.(lastCheckedAt := Some(now), revision := r.revision + 1, attempts := r.attempts + 1, updatedAt := now)
  }

  // Observations

  predicate MatchesIdentity(r: Record, t: Transaction) {
    if t.from != r.reviewed.scope.account then false
    else (r.activeHash == Some(t.hash)) || t.nonce == r.actualNonce.GetOr(r.expectedNonce)
  }

  predicate MatchesReviewed(reviewed: Reviewed, t: Transaction) {
    t.target == Some(reviewed.target) && t.calldata == reviewed.calldata && t.value == reviewed.value
  }

  predicate WasReceived(r: Record) {
    r.receipt.Some? || r.status == Canonical || r.status == Confirming || r.status == Reverted
  }

  function ConfirmationsAt(head: Option<nat>, block: nat): nat {
    if head.None? || head.value < block then 0 else head.value - block + 1
  }

  function WithReceipt(r: Record, o: Report, required: nat): Record {
    if o.receipt.None? || r.activeHash != Some(o.receipt.value.hash) then
      if WasReceived(r) then r.(confirmations := 0, reason := Some(ReceiptGone), status := Orphaned) else r
    else if o.canonicalLookup != Found then r
    else
      var receipt := o.receipt.value;
      if o.canonicalHash != Some(receipt.blockHash) then
        r.(receipt := Some(receipt), confirmations := 0, reason := Some(BlockNotCanonical),
           scanCursor := Rewind(r.submissionBlock), status := Orphaned)
      else
        var confirmations := ConfirmationsAt(o.head, receipt.block);
        if !receipt.success then
          r.(receipt := Some(receipt), confirmations := confirmations, reason := Some(ExecutionReverted), status := Reverted)
        else
          r.(receipt := Some(receipt), confirmations := confirmations, reason := None,
             status := if confirmations >= required then Canonical else Confirming)
  }

  function WithIncompatibleReceipt(r: Record, o: Report, required: nat): Record
    requires r.activeHash.Some?
  {
    var canonical := o.receipt.Some? && o.canonicalHash == Some(o.receipt.value.blockHash)
                     && o.receipt.value.hash == r.activeHash.value;
    var confirmations := if canonical then ConfirmationsAt(o.head, o.receipt.value.block) else 0;
    r.(receipt := if canonical then o.receipt else r.receipt.Or(o.receipt), confirmations := confirmations,
       reason := Some(NonceReplaced), finalized := canonical && confirmations >= required, status := Replaced)
  }

  /** The record with the bookkeeping of one more check. */
  function Checked(r: Record, o: Report): Record {
    r.(lastCheckedAt := Some(o.now), revision := r.revision + 1, attempts := r.attempts + 1,
       scanCursor := o.scannedThrough.GetOr(r.scanCursor), updatedAt := o.now)
  }

  /** The record bound to an observed transaction of its account and nonce. */
  function Bound(r: Record, o: Report, t: Transaction): Record {
    var semantic := MatchesReviewed(r.reviewed, t);
    var replacement := r.activeHash.Some? && r.activeHash.value != t.hash;
    Checked(r, o).(activeHash := Some(t.hash),
                   hashes := if replacement then AppendReplacement(r.hashes, r.activeHash.value, t.hash, o.now)
                             else AppendHash(r.hashes, t.hash, o.now),
                   actualNonce := Some(t.nonce),
                   compatibility := if !semantic then Some(Incompatible)
                                    else if replacement then Some(Matching) else r.compatibility,
                   status := if replacement then Replaced else r.status,
                   submittedAt := r.submittedAt.Or(Some(o.now)))
  }

  predicate KeepsWhenUnavailable(s: Status) {
    s == Confirming || s == Canonical || s == Reverted || s == Replaced || s == Orphaned
  }

  function Observed(r: Record, o: Report, required: nat): Record {
    var base := Checked(r, o);
    if (o.receiptLookup == Unavailable || o.canonicalLookup == Unavailable) && KeepsWhenUnavailable(r.status) then base
    else if o.transaction.Some? && MatchesIdentity(r, o.transaction.value) then
      ObservedTransaction(r, o, o.transaction.value, required)
    else if o.receipt.Some? && r.activeHash == Some(o.receipt.value.hash) && r.actualNonce.Some? then
      if r.compatibility == Some(Incompatible) then WithIncompatibleReceipt(base, o, required)
      else WithReceipt(base, o, required)
    else if o.receiptLookup == Unavailable || o.transactionLookup == Unavailable then base
    else if o.receiptLookup == Missing && WasReceived(r) then
      base.(confirmations := 0, reason := Some(ReceiptVanished), scanCursor := Rewind(r.submissionBlock), status := Orphaned)
    else Waited(r, base, o)
  }

  function ObservedTransaction(r: Record, o: Report, t: Transaction, required: nat): Record {
    var semantic := MatchesReviewed(r.reviewed, t);
    if r.activeHash.None? && r.actualNonce.None? && !semantic then
      Checked(r, o).(reason := Some(UnrelatedNonce), status := Reconciling)
    else if !semantic then WithIncompatibleReceipt(Bound(r, o, t), o, required)
    else WithReceipt(Bound(r, o, t), o, required)
  }

  /** Nothing was learned about the transaction: only time and nonces can move the status. */
  function Waited(r: Record, base: Record, o: Report): Record {
    var timedOut := r.timeoutAt > 0 && o.now >= r.timeoutAt;
    if r.activeHash.None? then
      if timedOut then base.(reason := Some(IdentityTimeout), status := TimedOut)
      else
        var nonce := r.actualNonce.GetOr(r.expectedNonce);
        var used := (o.latestNonce.Some? && o.latestNonce.value > nonce)
                    || (o.pendingNonce.Some? && o.pendingNonce.value > nonce);
        base.(status := if used then Reconciling else UnknownSubmission)
    else if timedOut then base.(reason := Some(ReceiptTimeout), status := TimedOut)
    else if r.status == Orphaned || r.status == Replaced || r.status == TimedOut then base.(status := Reconciling)
    else base.(status := Submitted)
  }

  // Safety of one record

  /** Which transaction each hash stands for. */
  type World = Id -> Transaction

  ghost predicate Truthful(world: World, o: Report) {
    o.transaction.Some? ==> o.transaction.value == world(o.transaction.value.hash)
  }

  /** The record's active hash stands for a transaction of its account with the reviewed target, calldata and value. */
  ghost predicate ActiveIsReviewed(world: World, r: Record) {
    && r.activeHash.Some?
    && world(r.activeHash.value).from == r.reviewed.scope.account
    && MatchesReviewed(r.reviewed, world(r.activeHash.value))
  }

  /** Confirming and canonical records stand for the reviewed transaction with a successful receipt; reverted ones
      hold a failed receipt of their active hash. */
  ghost predicate Sound(world: World, r: Record, required: nat) {
    && (r.status == Confirming || r.status == Canonical ==>
          && r.actualNonce.Some? && ActiveIsReviewed(world, r)
          && r.receipt.Some? && r.receipt.value.success && r.receipt.value.hash == r.activeHash.value
          && (r.status == Canonical ==> r.confirmations >= required))
    && (r.status == Reverted ==>
          r.receipt.Some? && !r.receipt.value.success && r.activeHash == Some(r.receipt.value.hash))
  }

  /** What makes soundness inductive: a known nonce comes with the hash it was read from, and the compatibility
      flag tells whether that hash's transaction is the reviewed one. */
  ghost predicate Grounded(world: World, r: Record) {
    && (r.actualNonce.Some? ==>
          && r.activeHash.Some? && world(r.activeHash.value).from == r.reviewed.scope.account
          && (r.compatibility == Some(Incompatible) <==> !MatchesReviewed(r.reviewed, world(r.activeHash.value))))
    && (r.actualNonce.None? ==> r.compatibility.None?)
  }

  ghost predicate RecordOk(world: World, r: Record, required: nat) {
    Sound(world, r, required) && Grounded(world, r)
  }

  lemma BeganOk(world: World, reviewed: Reviewed, nonce: nat, block: nat, now: int, id: Id, required: nat)
    ensures RecordOk(world, Began(reviewed, nonce, block, now, id), required)
  {
  }

  /** No wallet result, however late, and no recovery or deferral breaks a record. */
  lemma WalletStepsOk(world: World, r: Record, expectedRevision: nat, hash: Id, text: Id, now: int, required: nat)
    requires RecordOk(world, r, required)
    ensures RecordOk(world, WithSubmitted(r, expectedRevision, hash, now), required)
    ensures RecordOk(world, WithRejected(r, expectedRevision, text, now), required)
    ensures RecordOk(world, WithUnknown(r, expectedRevision, text, now), required)
    ensures RecordOk(world, WithAborted(r, expectedRevision, now), required)
    ensures RecordOk(world, WithRecovered(r, now), required)
    ensures RecordOk(world, WithDeferred(r, now), required)
  {
  }

  lemma CheckedOk(world: World, r: Record, o: Report, required: nat)
    requires RecordOk(world, r, required)
    ensures RecordOk(world, Checked(r, o), required)
  {
  }

  lemma ReceiptOk(world: World, r: Record, o: Report, required: nat)
    requires RecordOk(world, r, required) && r.actualNonce.Some? && r.compatibility != Some(Incompatible)
    ensures RecordOk(world, WithReceipt(r, o, required), required)
  {
  }

  lemma IncompatibleOk(world: World, r: Record, o: Report, required: nat)
    requires Grounded(world, r) && r.actualNonce.Some?
    ensures RecordOk(world, WithIncompatibleReceipt(r, o, required), required)
  {
  }

  lemma BoundGrounded(world: World, r: Record, o: Report, t: Transaction)
    requires Grounded(world, r) && MatchesIdentity(r, t) && t == world(t.hash)
    ensures Grounded(world, Bound(r, o, t)) && Bound(r, o, t).actualNonce.Some?
    ensures MatchesReviewed(r.reviewed, t) <==> Bound(r, o, t).compatibility != Some(Incompatible)
  {
    hide AppendHash, AppendReplacement;
  }

  lemma BoundSound(world: World, r: Record, o: Report, t: Transaction, required: nat)
    requires RecordOk(world, r, required) && MatchesIdentity(r, t) && t == world(t.hash)
    ensures Sound(world, Bound(r, o, t), required)
  {
    hide AppendHash, AppendReplacement;
  }

  lemma TransactionOk(world: World, r: Record, o: Report, t: Transaction, required: nat)
    requires RecordOk(world, r, required) && MatchesIdentity(r, t) && t == world(t.hash)
    ensures RecordOk(world, ObservedTransaction(r, o, t, required), required)
  {
    hide Bound, WithReceipt, WithIncompatibleReceipt, MatchesReviewed;
    BoundGrounded(world, r, o, t);
    BoundSound(world, r, o, t, required);
    if MatchesReviewed(r.reviewed, t) {
      ReceiptOk(world, Bound(r, o, t), o, required);
    } else {
      IncompatibleOk(world, Bound(r, o, t), o, required);
    }
  }

  lemma WaitedOk(world: World, r: Record, o: Report, required: nat)
    requires RecordOk(world, r, required)
    ensures RecordOk(world, Waited(r, Checked(r, o), o), required)
  {
  }

  /** Main result on one record: whatever the network reports (missing or unavailable lookups, replaced nonces,
      reorganised blocks, reverted or foreign receipts), if reported transactions are what their hashes stand for, a
      record is confirming or canonical only while its active hash is the reviewed transaction with a successful
      receipt of that hash, and canonical only with the required confirmations. */
  lemma ObservedOk(world: World, r: Record, o: Report, required: nat)
    requires RecordOk(world, r, required) && Truthful(world, o)
    ensures RecordOk(world, Observed(r, o, required), required)
  {
    hide RecordOk, Checked, ObservedTransaction, WithReceipt, WithIncompatibleReceipt, Waited, MatchesIdentity;
    CheckedOk(world, r, o, required);
    CheckedKeeps(r, o);
    if o.transaction.Some? && MatchesIdentity(r, o.transaction.value) {
      TransactionOk(world, r, o, o.transaction.value, required);
    }
    if r.activeHash.Some? && r.actualNonce.Some? {
      BaseReceiptOk(world, Checked(r, o), o, required);
    }
    WaitedOk(world, r, o, required);
    VanishedOk(world, Checked(r, o), required);
  }

  lemma CheckedKeeps(r: Record, o: Report)
    ensures var b := Checked(r, o);
            && b.activeHash == r.activeHash && b.actualNonce == r.actualNonce && b.compatibility == r.compatibility
            && b.submissionBlock == r.submissionBlock
  {
  }

  lemma BaseReceiptOk(world: World, base: Record, o: Report, required: nat)
    requires RecordOk(world, base, required) && base.actualNonce.Some?
    ensures base.compatibility != Some(Incompatible) ==> RecordOk(world, WithReceipt(base, o, required), required)
    ensures base.activeHash.Some? ==> RecordOk(world, WithIncompatibleReceipt(base, o, required), required)
  {
    hide WithReceipt, WithIncompatibleReceipt;
    if base.compatibility != Some(Incompatible) {
      ReceiptOk(world, base, o, required);
    }
    IncompatibleOk(world, base, o, required);
  }

  lemma VanishedOk(world: World, base: Record, required: nat)
    requires RecordOk(world, base, required)
    ensures RecordOk(world, base.(confirmations := 0, reason := Some(ReceiptVanished),
                                  scanCursor := Rewind(base.submissionBlock), status := Orphaned), required)
  {
  }

  /** A submission whose hash is unknown is bound only to a transaction of its account and expected nonce with the
      reviewed target, calldata and value; any other transaction leaves it unbound. */
  lemma HashlessBinding(r: Record, o: Report, required: nat)
    requires r.activeHash.None? && r.actualNonce.None?
    ensures var next := Observed(r, o, required);
            next.activeHash.Some? ==>
              && o.transaction.Some? && next.activeHash == Some(o.transaction.value.hash)
              && o.transaction.value.from == r.reviewed.scope.account && o.transaction.value.nonce == r.expectedNonce
              && MatchesReviewed(r.reviewed, o.transaction.value)
              && next.actualNonce == Some(r.expectedNonce)
    ensures var next := Observed(r, o, required);
            next.activeHash.None? ==> next.actualNonce.None? && next.hashes == r.hashes && next.receipt == r.receipt
  {
    hide AppendHash, AppendReplacement;
  }

  /** The same record at the same revision. */
  predicate Continues(r: Record, n: Record) {
    n.id == r.id && n.reviewed == r.reviewed && n.createdAt == r.createdAt && n.revision == r.revision
  }

  lemma ReceiptContinues(r: Record, o: Report, required: nat)
    ensures Continues(r, WithReceipt(r, o, required))
    ensures r.activeHash.Some? ==> Continues(r, WithIncompatibleReceipt(r, o, required))
  {
  }

  lemma WaitedContinues(r: Record, base: Record, o: Report)
    ensures Continues(base, Waited(r, base, o))
  {
  }

  /** Every check moves the lifecycle on by exactly one, so results computed for an earlier revision are recognised. */
  lemma ObservedAdvances(r: Record, o: Report, required: nat)
    ensures Observed(r, o, required).revision == r.revision + 1
    ensures Observed(r, o, required).id == r.id && Observed(r, o, required).reviewed == r.reviewed
    ensures Observed(r, o, required).createdAt == r.createdAt
  {
    hide AppendHash, AppendReplacement, MatchesReviewed, MatchesIdentity, WithReceipt, WithIncompatibleReceipt, Waited,
         WasReceived, KeepsWhenUnavailable;
    var base := Checked(r, o);
    ReceiptContinues(base, o, required);
    WaitedContinues(r, base, o);
    if o.transaction.Some? {
      ReceiptContinues(Bound(r, o, o.transaction.value), o, required);
    }
  }

  // Which records the loader gives back

  /** The loader's checks on the fields that the transitions set. */
  predicate LoaderAccepts(r: Record) {
    && (r.activeHash.Some? ==> HasHash(r.hashes, r.activeHash.value))
    && (r.status == Confirming || r.status == Canonical ==>
          r.actualNonce.Some? && r.activeHash.Some? && r.receipt.Some? && r.receipt.value.success
          && r.receipt.value.hash == r.activeHash.value)
    && (r.status == Canonical ==> r.confirmations >= CONFIRMATIONS)
    && (r.status == Confirming ==> 0 < r.confirmations < CONFIRMATIONS)
    && (r.status == Reverted ==>
          r.activeHash.Some? && r.receipt.Some? && !r.receipt.value.success && r.receipt.value.hash == r.activeHash.value)
    && (r.status == Submitted ==> r.activeHash.Some?)
    && (r.status == AwaitingWallet || r.status == UnknownSubmission ==> r.activeHash.None?)
    && (r.status == AwaitingWallet || r.status == Rejected || r.status == Aborted ==>
          r.activeHash.None? && r.actualNonce.None? && r.hashes == [] && r.receipt.None? && r.submittedAt.None?)
    && (r.finalized ==>
          r.status == Replaced && r.compatibility == Some(Incompatible) && r.receipt.Some?
          && r.confirmations >= CONFIRMATIONS)
  }

  /** A successful canonical receipt of a well-formed record gives a record that the loader takes back exactly when
      the reported head has reached the receipt's block and no finalized replacement is left behind. */
  lemma ReceiptLoadableIff(r: Record, o: Report)
    requires r.activeHash.Some? && r.actualNonce.Some? && HasHash(r.hashes, r.activeHash.value)
    requires o.receipt.Some? && o.receipt.value.hash == r.activeHash.value && o.receipt.value.success
    requires o.canonicalLookup == Found && o.canonicalHash == Some(o.receipt.value.blockHash)
    ensures LoaderAccepts(WithReceipt(r, o, CONFIRMATIONS)) <==>
              !r.finalized && o.head.Some? && o.head.value >= o.receipt.value.block
  {
  }

  // Terminal records

  /** What blocks a new intent of the same family is exactly what is still being monitored. */
  lemma BlocksFamilyIffMonitored(r: Record)
    ensures BlocksFamily(r) <==> NeedsMonitoring(r)
  {
  }

  /** Terminal records absorb every wallet result and recovery. */
  lemma TerminalAbsorbs(r: Record, expectedRevision: nat, hash: Id, text: Id, now: int)
    requires IsTerminal(r)
    ensures WithSubmitted(r, expectedRevision, hash, now) == r
    ensures WithRejected(r, expectedRevision, text, now) == r
    ensures WithUnknown(r, expectedRevision, text, now) == r
    ensures WithAborted(r, expectedRevision, now) == r
    ensures WithRecovered(r, now) == r
    ensures IsTerminal(WithDeferred(r, now))
  {
  }
}
