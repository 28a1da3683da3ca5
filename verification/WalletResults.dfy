/** What the wallet's answers, a reload and a postponed check do to a record, told from its fields. */
module WalletResults {
  import opened Domain
  import opened Journal

  /** The record still waits for this answer of the wallet, or it stopped waiting without learning what was sent. */
  predicate Awaits(r: Record, expectedRevision: nat) {
    && r.activeHash.None? && r.actualNonce.None?
    && (|| (r.revision == expectedRevision && r.status == AwaitingWallet)
        || (r.revision > expectedRevision && r.status in {UnknownSubmission, Reconciling, TimedOut}))
  }

  /** The hash that the wallet returned is listed last, unless it is listed already. */
  predicate Lists(hashes: seq<HashRecord>, hash: Id, now: int, r: seq<HashRecord>) {
    if exists i :: 0 <= i < |hashes| && hashes[i].hash == hash then r == hashes
    else r == hashes + [HashRecord(hash, now, None, None, FirstSubmitted)]
  }

  /** Only the status, the reason, the hash evidence and the times may differ, and the lifecycle moves on by one. */
  predicate Moves(r: Record, now: int, next: Record) {
    && next == r.(revision := r.revision + 1, updatedAt := now, status := next.status, reason := next.reason,
                  timeoutAt := next.timeoutAt, submittedAt := next.submittedAt, activeHash := next.activeHash,
                  hashes := next.hashes)
  }

  predicate SameEvidence(r: Record, next: Record) {
    next.submittedAt == r.submittedAt && next.activeHash == r.activeHash && next.hashes == r.hashes
  }

  /** A returned hash becomes the record's hash, with ten minutes to be confirmed, exactly while it is awaited. */
  lemma SubmittedIs(r: Record, expectedRevision: nat, hash: Id, now: int)
    ensures var next := WithSubmitted(r, expectedRevision, hash, now);
            if !Awaits(r, expectedRevision) then next == r
            else
              && Moves(r, now, next)
              && next.status == Submitted && next.reason.None? && next.activeHash == Some(hash)
              && Lists(r.hashes, hash, now, next.hashes)
              && next.timeoutAt == now + 600_000
              && next.submittedAt == (if r.submittedAt.Some? then r.submittedAt else Some(now))
  {
    assert HasHash(r.hashes, hash) <==> exists i :: 0 <= i < |r.hashes| && r.hashes[i].hash == hash;
  }

  /** A refusal or a failed submission leaves its reason exactly while it is awaited; what may have been broadcast gets
      ten minutes to be found. */
  lemma NotSubmittedIs(r: Record, expectedRevision: nat, text: Id, now: int)
    ensures var next := WithRejected(r, expectedRevision, text, now);
            if !Awaits(r, expectedRevision) then next == r
            else
              && Moves(r, now, next) && SameEvidence(r, next)
              && next.status == Rejected && next.reason == Some(WalletMessage(text)) && next.timeoutAt == r.timeoutAt
    ensures var next := WithUnknown(r, expectedRevision, text, now);
            if !Awaits(r, expectedRevision) then next == r
            else
              && Moves(r, now, next) && SameEvidence(r, next)
              && next.status == UnknownSubmission && next.reason == Some(WalletMessage(text))
              && next.timeoutAt == now + 600_000
  {
  }

  /** Only a record that waits for the wallet at that revision is aborted; only one whose lease has run out is given
      up. */
  lemma GivenUpIs(r: Record, expectedRevision: nat, now: int)
    ensures var next := WithAborted(r, expectedRevision, now);
            if r.revision != expectedRevision || r.status != AwaitingWallet then next == r
            else
              && Moves(r, now, next) && SameEvidence(r, next)
              && next.status == Aborted && next.reason == Some(ContextChanged) && next.timeoutAt == r.timeoutAt
    ensures var next := WithRecovered(r, now);
            if r.status != AwaitingWallet || now < r.leaseUntil then next == r
            else
              && Moves(r, now, next) && SameEvidence(r, next)
              && next.status == UnknownSubmission && next.reason == Some(AppReloaded) && next.timeoutAt == now + 600_000
  {
  }

  /** A check that is put off counts as an attempt and changes nothing that is known of the transaction. */
  lemma DeferredIs(r: Record, now: int)
    ensures var next := WithDeferred(r, now);
            && Moves(r, now, next.(lastCheckedAt := r.lastCheckedAt, attempts := r.attempts)) && SameEvidence(r, next)
            && next.status == r.status && next.reason == r.reason && next.timeoutAt == r.timeoutAt
            && next.lastCheckedAt == Some(now) && next.attempts == r.attempts + 1
  {
  }

  /** A new record waits five minutes for the wallet, knows nothing yet and scans from one block below the
      submission. */
  lemma BeganIs(reviewed: Reviewed, expectedNonce: nat, submissionBlock: nat, now: int, id: Id)
    ensures var r := Began(reviewed, expectedNonce, submissionBlock, now, id);
            && r.id == id && r.reviewed == reviewed && r.expectedNonce == expectedNonce && r.status == AwaitingWallet
            && r.submissionBlock == submissionBlock
            && r.scanCursor == (if submissionBlock == 0 then 0 else submissionBlock - 1)
            && r.createdAt == r.updatedAt == now && r.leaseUntil == now + 300_000 && r.timeoutAt == 0
            && r.activeHash.None? && r.actualNonce.None? && r.hashes == [] && r.receipt.None? && r.submittedAt.None?
            && r.lastCheckedAt.None? && r.reason.None? && r.compatibility.None? && !r.finalized
            && r.confirmations == r.revision == r.attempts == 0
  {
  }
}
