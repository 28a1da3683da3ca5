/** What one check of a transaction does to its record, told from the fields of the record and of the report: when it
    ends in which status, and what becomes of every other field. */
module JournalObservations {
  import opened Domain
  import opened Journal

  // What a report says about a record

  /** A lookup failed while the record rests on an earlier receipt, replacement or reorganisation. */
  predicate Held(r: Record, o: Report) {
    && (o.receiptLookup == Unavailable || o.canonicalLookup == Unavailable)
    && r.status in {Confirming, Canonical, Reverted, Replaced, Orphaned}
  }

  /** The reported transaction is of the record's account and has its hash or its nonce. */
  predicate Seen(r: Record, o: Report) {
    && o.transaction.Some?
    && o.transaction.value.from == r.reviewed.scope.account
    && (|| r.activeHash == Some(o.transaction.value.hash)
        || r.actualNonce == Some(o.transaction.value.nonce)
        || (r.actualNonce.None? && o.transaction.value.nonce == r.expectedNonce))
  }

  predicate AsReviewed(r: Record, t: Transaction) {
    t.target == Some(r.reviewed.target) && t.calldata == r.reviewed.calldata && t.value == r.reviewed.value
  }

  predicate Unbound(r: Record) {
    r.activeHash.None? && r.actualNonce.None?
  }

  /** The receipt is of the record's hash, and the nonce of that hash is known. */
  predicate Reported(r: Record, o: Report) {
    o.receipt.Some? && r.activeHash == Some(o.receipt.value.hash) && r.actualNonce.Some?
  }

  predicate Received(r: Record) {
    r.receipt.Some? || r.status in {Canonical, Confirming, Reverted}
  }

  // The seven kinds of check, of which each check is exactly one

  /** A record without hash and nonce, whose expected nonce some other transaction used. */
  predicate Stray(r: Record, o: Report) {
    !Held(r, o) && Seen(r, o) && Unbound(r) && !AsReviewed(r, o.transaction.value)
  }

  /** The nonce belongs to a transaction that was not reviewed. */
  predicate Foreign(r: Record, o: Report) {
    && !Held(r, o)
    && if Seen(r, o) then !Unbound(r) && !AsReviewed(r, o.transaction.value)
       else Reported(r, o) && r.compatibility == Some(Incompatible)
  }

  /** The nonce belongs to the reviewed transaction. */
  predicate Own(r: Record, o: Report) {
    && !Held(r, o)
    && if Seen(r, o) then AsReviewed(r, o.transaction.value)
       else Reported(r, o) && r.compatibility != Some(Incompatible)
  }

  predicate Untold(r: Record, o: Report) {
    !Held(r, o) && !Seen(r, o) && !Reported(r, o)
  }

  predicate Unknown(r: Record, o: Report) {
    Untold(r, o) && (o.receiptLookup == Unavailable || o.transactionLookup == Unavailable)
  }

  predicate Vanished(r: Record, o: Report) {
    Untold(r, o) && !Unknown(r, o) && o.receiptLookup == Missing && Received(r)
  }

  predicate Silent(r: Record, o: Report) {
    Untold(r, o) && !Unknown(r, o) && !(o.receiptLookup == Missing && Received(r))
  }

  // Receipts of the record's own transaction

  /** Another hash took the nonce of the record's hash. */
  predicate Switches(r: Record, o: Report) {
    Seen(r, o) && r.activeHash.Some? && r.activeHash != Some(o.transaction.value.hash)
  }

  function HashAfter(r: Record, o: Report): Option<Id> {
    if Seen(r, o) then Some(o.transaction.value.hash) else r.activeHash
  }

  predicate HasReceipt(r: Record, o: Report) {
    o.receipt.Some? && HashAfter(r, o) == Some(o.receipt.value.hash)
  }

  /** The receipt's block was looked up on the canonical chain. */
  predicate Placed(r: Record, o: Report) {
    HasReceipt(r, o) && o.canonicalLookup == Found
  }

  predicate OnChain(o: Report) {
    o.receipt.Some? && o.canonicalHash == Some(o.receipt.value.blockHash)
  }

  predicate StillReceived(r: Record, o: Report) {
    r.receipt.Some? || (!Switches(r, o) && Received(r))
  }

  /** The record's own transaction is in a block of the canonical chain. */
  predicate Included(r: Record, o: Report) {
    Own(r, o) && Placed(r, o) && OnChain(o)
  }

  /** The report does not tell whether the record's own transaction is included. */
  predicate Undecided(r: Record, o: Report) {
    if HasReceipt(r, o) then !Placed(r, o) else !StillReceived(r, o)
  }

  /** The blocks from the receipt's block to the head, both counted; none while the head is unknown or not that far. */
  predicate IsDepth(o: Report, n: nat) {
    if o.receipt.Some? && o.head.Some? && o.head.value >= o.receipt.value.block
    then o.receipt.value.block + n == o.head.value + 1
    else n == 0
  }

  // Statuses

  /** The check leaves the status alone. */
  predicate Stays(r: Record, o: Report) {
    Held(r, o) || Unknown(r, o) || (Own(r, o) && !Switches(r, o) && Undecided(r, o))
  }

  predicate Late(r: Record, o: Report) {
    r.timeoutAt > 0 && o.now >= r.timeoutAt
  }

  predicate NonceUsed(r: Record, o: Report) {
    var nonce := match r.actualNonce case Some(n) => n case None => r.expectedNonce;
    (o.latestNonce.Some? && o.latestNonce.value > nonce) || (o.pendingNonce.Some? && o.pendingNonce.value > nonce)
  }

  // What the check does, kind by kind

  /** What every check writes down, and what no check touches. */
  predicate Counted(r: Record, o: Report, next: Record) {
    && next.lastCheckedAt == Some(o.now) && next.updatedAt == o.now
    && next.revision == r.revision + 1 && next.attempts == r.attempts + 1
    && next.id == r.id && next.reviewed == r.reviewed && next.createdAt == r.createdAt
    && next.expectedNonce == r.expectedNonce && next.submissionBlock == r.submissionBlock
    && next.timeoutAt == r.timeoutAt && next.leaseUntil == r.leaseUntil
  }

  predicate Scanned(r: Record, o: Report, next: Record) {
    if o.scannedThrough.Some? then next.scanCursor == o.scannedThrough.value else next.scanCursor == r.scanCursor
  }

  /** The scan starts again one block below the submission. */
  predicate Rescans(r: Record, next: Record) {
    if r.submissionBlock > 0 then next.scanCursor + 1 == r.submissionBlock else next.scanCursor == 0
  }

  predicate SameBinding(r: Record, next: Record) {
    && next.activeHash == r.activeHash && next.actualNonce == r.actualNonce && next.hashes == r.hashes
    && next.compatibility == r.compatibility && next.submittedAt == r.submittedAt
  }

  /** The record takes over the seen transaction's hash and nonce, and what is known about its replacing another one. */
  predicate Binds(r: Record, o: Report, next: Record)
    requires o.transaction.Some?
  {
    var t := o.transaction.value;
    && next.activeHash == Some(t.hash) && next.actualNonce == Some(t.nonce)
    && next.submittedAt == (if r.submittedAt.Some? then r.submittedAt else Some(o.now))
    && next.compatibility == (if !AsReviewed(r, t) then Some(Incompatible)
                              else if Switches(r, o) then Some(Matching) else r.compatibility)
    && HashesIn(r, o, next.hashes)
  }

  /** Every hash stays listed, in order; the hash that lost its nonce names the one that took it, and a new hash is
      added at the end. */
  predicate HashesIn(r: Record, o: Report, hashes: seq<HashRecord>)
    requires o.transaction.Some?
  {
    var hash := o.transaction.value.hash;
    && |r.hashes| <= |hashes|
    && (forall i :: 0 <= i < |r.hashes| ==>
          hashes[i] == if Switches(r, o) && r.activeHash == Some(r.hashes[i].hash)
                            then r.hashes[i].(replacedByHash := Some(hash)) else r.hashes[i])
    && (if exists i :: 0 <= i < |r.hashes| && r.hashes[i].hash == hash then |hashes| == |r.hashes|
        else && |hashes| == |r.hashes| + 1
             && hashes[|r.hashes|] ==
                  if Switches(r, o) then HashRecord(hash, o.now, None, r.activeHash, Replacement)
                  else HashRecord(hash, o.now, None, None, FirstSubmitted))
  }

  predicate BindsIfSeen(r: Record, o: Report, next: Record) {
    if Seen(r, o) then Binds(r, o, next) else SameBinding(r, next)
  }

  lemma HashesBound(r: Record, o: Report)
    requires Seen(r, o)
    ensures HashesIn(r, o, Bound(r, o, o.transaction.value).hashes)
  {
    hide AsReviewed, MatchesReviewed, Checked;
    var hash, hashes := o.transaction.value.hash, r.hashes;
    if Switches(r, o) {
      var linked := LinkReplaced(hashes, r.activeHash.value, hash);
      assert forall i :: 0 <= i < |hashes| ==> linked[i].hash == hashes[i].hash;
      assert HasHash(linked, hash) <==> exists i :: 0 <= i < |hashes| && hashes[i].hash == hash;
    } else {
      assert HasHash(hashes, hash) <==> exists i :: 0 <= i < |hashes| && hashes[i].hash == hash;
    }
  }

  lemma BoundIs(r: Record, o: Report)
    requires Seen(r, o)
    ensures var b := Bound(r, o, o.transaction.value);
            && Counted(r, o, b) && Binds(r, o, b) && Scanned(r, o, b)
            && b.receipt == r.receipt && b.confirmations == r.confirmations && b.finalized == r.finalized
            && b.reason == r.reason && b.status == if Switches(r, o) then Replaced else r.status
  {
    HashesBound(r, o);
    hide AppendHash, AppendReplacement, HashesIn, Seen;
  }

  /** Nothing but the bookkeeping. */
  lemma UntoldIs(r: Record, o: Report, required: nat)
    requires Held(r, o) || Unknown(r, o)
    ensures var next := Observed(r, o, required);
            && Counted(r, o, next) && SameBinding(r, next) && Scanned(r, o, next)
            && next.receipt == r.receipt && next.confirmations == r.confirmations && next.finalized == r.finalized
            && next.reason == r.reason && next.status == r.status
  {
    hide ObservedTransaction, WithReceipt, WithIncompatibleReceipt, Waited;
  }

  lemma StrayIs(r: Record, o: Report, required: nat)
    requires Stray(r, o)
    ensures var next := Observed(r, o, required);
            && Counted(r, o, next) && SameBinding(r, next) && Scanned(r, o, next)
            && next.receipt == r.receipt && next.confirmations == r.confirmations && next.finalized == r.finalized
            && next.reason == Some(UnrelatedNonce) && next.status == Reconciling
  {
    hide WithReceipt, WithIncompatibleReceipt, Waited, Bound;
  }

  lemma VanishedIs(r: Record, o: Report, required: nat)
    requires Vanished(r, o)
    ensures var next := Observed(r, o, required);
            && Counted(r, o, next) && SameBinding(r, next) && Rescans(r, next)
            && next.receipt == r.receipt && next.confirmations == 0 && next.finalized == r.finalized
            && next.reason == Some(ReceiptVanished) && next.status == Orphaned
  {
    hide ObservedTransaction, WithReceipt, WithIncompatibleReceipt, Waited;
  }

  lemma SilentIs(r: Record, o: Report, required: nat)
    requires Silent(r, o)
    ensures var next := Observed(r, o, required);
            && Counted(r, o, next) && SameBinding(r, next) && Scanned(r, o, next)
            && next.receipt == r.receipt && next.confirmations == r.confirmations && next.finalized == r.finalized
            && next.reason == (if !Late(r, o) then r.reason
                               else Some(if r.activeHash.None? then IdentityTimeout else ReceiptTimeout))
            && next.status == (if Late(r, o) then TimedOut
                               else if r.activeHash.None?
                               then if NonceUsed(r, o) then Reconciling else UnknownSubmission
                               else if r.status in {Orphaned, Replaced, TimedOut} then Reconciling else Submitted)
  {
    hide ObservedTransaction, WithReceipt, WithIncompatibleReceipt;
  }

  /** The record on which a receipt is then judged: bound to the seen transaction, or as it was. */
  function Base(r: Record, o: Report): Record {
    if Seen(r, o) then Bound(r, o, o.transaction.value) else Checked(r, o)
  }

  lemma BaseIs(r: Record, o: Report)
    ensures var b := Base(r, o);
            && Counted(r, o, b) && BindsIfSeen(r, o, b) && Scanned(r, o, b)
            && b.activeHash == HashAfter(r, o)
            && b.receipt == r.receipt && b.confirmations == r.confirmations && b.finalized == r.finalized
            && b.reason == r.reason && b.status == if Switches(r, o) then Replaced else r.status
  {
    hide Bound, HashesIn;
    if Seen(r, o) {
      BoundIs(r, o);
    }
  }

  /** A receipt that is placed decides; one that is gone leaves the record orphaned; otherwise nothing was learned. */
  lemma JudgedIs(b: Record, o: Report, required: nat)
    ensures var next := WithReceipt(b, o, required);
            var mine := o.receipt.Some? && b.activeHash == Some(o.receipt.value.hash);
            && next == b.(receipt := next.receipt, confirmations := next.confirmations, reason := next.reason,
                          status := next.status, scanCursor := next.scanCursor)
            && (mine && o.canonicalLookup == Found ==> next.receipt == o.receipt)
            && (mine && o.canonicalLookup == Found && OnChain(o) ==>
                  && IsDepth(o, next.confirmations) && next.scanCursor == b.scanCursor
                  && next.reason == (if o.receipt.value.success then None else Some(ExecutionReverted))
                  && next.status == if !o.receipt.value.success then Reverted
                                    else if next.confirmations < required then Confirming else Canonical)
            && (mine && o.canonicalLookup == Found && !OnChain(o) ==>
                  && next.confirmations == 0 && Rescans(b, next)
                  && next.reason == Some(BlockNotCanonical) && next.status == Orphaned)
            && (mine && o.canonicalLookup != Found ==> next == b)
            && (!mine && Received(b) ==>
                  && next.confirmations == 0 && next.scanCursor == b.scanCursor && next.receipt == b.receipt
                  && next.reason == Some(ReceiptGone) && next.status == Orphaned)
            && (!mine && !Received(b) ==> next == b)
  {
  }

  lemma OwnIs(r: Record, o: Report, required: nat)
    requires Own(r, o)
    ensures var next := Observed(r, o, required);
            && Counted(r, o, next) && BindsIfSeen(r, o, next) && next.finalized == r.finalized
            && (Placed(r, o) && OnChain(o) ==>
                  && Scanned(r, o, next) && next.receipt == o.receipt && IsDepth(o, next.confirmations)
                  && next.reason == (if o.receipt.value.success then None else Some(ExecutionReverted))
                  && next.status == if !o.receipt.value.success then Reverted
                                    else if next.confirmations < required then Confirming else Canonical)
            && (Placed(r, o) && !OnChain(o) ==>
                  && Rescans(r, next) && next.receipt == o.receipt && next.confirmations == 0
                  && next.reason == Some(BlockNotCanonical) && next.status == Orphaned)
            && (!HasReceipt(r, o) && StillReceived(r, o) ==>
                  && Scanned(r, o, next) && next.receipt == r.receipt && next.confirmations == 0
                  && next.reason == Some(ReceiptGone) && next.status == Orphaned)
            && (Undecided(r, o) ==>
                  && Scanned(r, o, next) && next.receipt == r.receipt && next.confirmations == r.confirmations
                  && next.reason == r.reason && next.status == if Switches(r, o) then Replaced else r.status)
  {
    assert Observed(r, o, required) == WithReceipt(Base(r, o), o, required) by {
      hide Bound, WithReceipt, WithIncompatibleReceipt, Waited, Checked;
    }
    hide Observed, Bound, WithReceipt, HashesIn;
    BaseIs(r, o);
    JudgedIs(Base(r, o), o, required);
    hide Base;
  }

  lemma ForeignIs(r: Record, o: Report, required: nat)
    requires Foreign(r, o)
    ensures var next, there := Observed(r, o, required), HasReceipt(r, o) && OnChain(o);
            && Counted(r, o, next) && BindsIfSeen(r, o, next) && Scanned(r, o, next)
            && next.receipt == (if there || r.receipt.None? then o.receipt else r.receipt)
            && (if there then IsDepth(o, next.confirmations) else next.confirmations == 0)
            && next.finalized == (there && next.confirmations >= required)
            && next.reason == Some(NonceReplaced) && next.status == Replaced
  {
    BaseIs(r, o);
    assert Observed(r, o, required) == WithIncompatibleReceipt(Base(r, o), o, required) by {
      hide Bound, WithReceipt, WithIncompatibleReceipt, Waited, Checked;
    }
    hide Observed, Bound, HashesIn, Base;
  }

  // When a record is in which status

  lemma ByKind(r: Record, o: Report, required: nat)
    ensures var next := Observed(r, o, required);
            && (Held(r, o) || Unknown(r, o) ==> next.status == r.status)
            && (Stray(r, o) ==> next.status == Reconciling)
            && (Vanished(r, o) ==> next.status == Orphaned)
            && (Foreign(r, o) ==> next.status == Replaced)
            && (Silent(r, o) ==>
                  next.status == (if Late(r, o) then TimedOut
                                  else if r.activeHash.None?
                                  then if NonceUsed(r, o) then Reconciling else UnknownSubmission
                                  else if r.status in {Orphaned, Replaced, TimedOut} then Reconciling else Submitted))
            && (Included(r, o) ==>
                  && IsDepth(o, next.confirmations)
                  && next.status == if !o.receipt.value.success then Reverted
                                    else if next.confirmations < required then Confirming else Canonical)
            && (Own(r, o) && Placed(r, o) && !OnChain(o) ==> next.status == Orphaned)
            && (Own(r, o) && !HasReceipt(r, o) && StillReceived(r, o) ==> next.status == Orphaned)
            && (Own(r, o) && Undecided(r, o) ==> next.status == if Switches(r, o) then Replaced else r.status)
  {
    hide Observed, Counted, BindsIfSeen, SameBinding, Scanned, Rescans, IsDepth, Late, NonceUsed;
    hide Stray, Vanished, Foreign, Silent, Own, Held, Unknown;
    if Held(r, o) || Unknown(r, o) { UntoldIs(r, o, required); }
    if Stray(r, o) { StrayIs(r, o, required); }
    if Vanished(r, o) { VanishedIs(r, o, required); }
    if Foreign(r, o) { ForeignIs(r, o, required); }
    if Silent(r, o) { SilentIs(r, o, required); }
    if Own(r, o) { OwnIs(r, o, required); }
  }

  /** Main result on one check, statuses that rest on a receipt: each is reached exactly when it says. */
  lemma ReceiptStatusIff(r: Record, o: Report, required: nat)
    ensures var next := Observed(r, o, required);
            && (Included(r, o) ==> IsDepth(o, next.confirmations))
            && (next.status == Confirming <==>
                  || (Included(r, o) && o.receipt.value.success && next.confirmations < required)
                  || (Stays(r, o) && r.status == Confirming))
            && (next.status == Canonical <==>
                  || (Included(r, o) && o.receipt.value.success && next.confirmations >= required)
                  || (Stays(r, o) && r.status == Canonical))
            && (next.status == Reverted <==>
                  || (Own(r, o) && Placed(r, o) && OnChain(o) && !o.receipt.value.success)
                  || (Stays(r, o) && r.status == Reverted))
            && (next.status == Orphaned <==>
                  || (Own(r, o) && Placed(r, o) && !OnChain(o))
                  || (Own(r, o) && !HasReceipt(r, o) && StillReceived(r, o))
                  || Vanished(r, o)
                  || (Stays(r, o) && r.status == Orphaned))
            && (next.status == Replaced <==>
                  || Foreign(r, o)
                  || (Own(r, o) && Switches(r, o) && Undecided(r, o))
                  || (Stays(r, o) && r.status == Replaced))
  {
    hide Observed, Counted, BindsIfSeen, SameBinding, Scanned, Rescans, IsDepth, Late, NonceUsed;
    ByKind(r, o, required);
  }

  /** Main result on one check, statuses without a receipt: each is reached exactly when it says. */
  lemma WaitingStatusIff(r: Record, o: Report, required: nat)
    ensures var status := Observed(r, o, required).status;
            && (status == TimedOut <==> (Silent(r, o) && Late(r, o)) || (Stays(r, o) && r.status == TimedOut))
            && (status == Reconciling <==>
                  || Stray(r, o)
                  || (Silent(r, o) && !Late(r, o)
                      && if r.activeHash.None? then NonceUsed(r, o) else r.status in {Orphaned, Replaced, TimedOut})
                  || (Stays(r, o) && r.status == Reconciling))
            && (status == UnknownSubmission <==>
                  || (Silent(r, o) && !Late(r, o) && r.activeHash.None? && !NonceUsed(r, o))
                  || (Stays(r, o) && r.status == UnknownSubmission))
            && (status == Submitted <==>
                  || (Silent(r, o) && !Late(r, o) && r.activeHash.Some? && r.status !in {Orphaned, Replaced, TimedOut})
                  || (Stays(r, o) && r.status == Submitted))
            && (status in {AwaitingWallet, Rejected, Aborted} <==>
                  Stays(r, o) && r.status in {AwaitingWallet, Rejected, Aborted})
            && (Stays(r, o) ==> status == r.status)
  {
    hide Observed, Counted, BindsIfSeen, SameBinding, Scanned, Rescans, IsDepth, Late, NonceUsed;
    ByKind(r, o, required);
  }

  /** Main result on bound records: if transactions are what their hashes stand for, then a check that finds a receipt
      of the record's hash and the canonical block at its height decides the status. It is confirming or canonical
      exactly when the receipt's block is canonical, the receipt succeeded and the transaction is the reviewed one,
      reverted exactly when it failed there, orphaned exactly when the block is not canonical, and canonical from the
      required number of confirmations on, which are counted from the receipt's block to the head. */
  lemma BoundReceiptIs(world: World, r: Record, o: Report, required: nat)
    requires Grounded(world, r) && Truthful(world, o)
    requires r.activeHash.Some? && r.actualNonce.Some?
    requires o.receiptLookup == Found && o.receipt.Some? && o.receipt.value.hash == r.activeHash.value
    requires o.canonicalLookup == Found && !Switches(r, o)
    ensures var next, receipt := Observed(r, o, required), o.receipt.value;
            var reviewed, canonical := AsReviewed(r, world(receipt.hash)), o.canonicalHash == Some(receipt.blockHash);
            && (next.status == Confirming || next.status == Canonical <==> reviewed && canonical && receipt.success)
            && (next.status == Reverted <==> reviewed && canonical && !receipt.success)
            && (next.status == Orphaned <==> reviewed && !canonical)
            && (next.status == Replaced <==> !reviewed)
            && (if canonical then IsDepth(o, next.confirmations) else next.confirmations == 0)
            && (next.status == Canonical ==> next.confirmations >= required)
            && (next.status == Confirming ==> next.confirmations < required)
            && (next.status == Orphaned ==> Rescans(r, next))
            && (next.status == Replaced ==> (next.finalized <==> canonical && next.confirmations >= required))
            && next.activeHash == r.activeHash
  {
    hide Observed, Counted, Scanned, Rescans, IsDepth, HashesIn;
    assert AsReviewed(r, world(r.activeHash.value)) <==> r.compatibility != Some(Incompatible);
    if Own(r, o) {
      OwnIs(r, o, required);
    } else {
      ForeignIs(r, o, required);
    }
  }
}
