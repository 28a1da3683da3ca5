/** How a full exit reads the journal: whether a record blocks the next batch. */
module FullExitJournal {
  import opened Domain
  import opened Journal

  datatype Kind = Blocking | FinalizedSuccess | FinalizedFailure | RetryBatch

  datatype Disposition = Disposition(blocksNextBatch: bool, countsCompleted: bool, finalityReached: bool, kind: Kind,
                                     replan: bool)

  const BLOCKING := Disposition(true, false, false, Blocking, false)

  /** `None` where the code throws. */
  function Classify(confirmations: int, receiptSuccess: Option<bool>, compatibility: Option<Compatibility>,
                    finalized: bool, status: Status, finality: int): Option<Disposition>
  {
    if confirmations < 0 || finality < 1 then None
    else if status == Rejected || status == Aborted then Some(Disposition(false, false, true, RetryBatch, true))
    else if status == Canonical then
      if receiptSuccess != Some(true) then None
      else if confirmations >= finality then Some(Disposition(false, true, true, FinalizedSuccess, true))
      else Some(BLOCKING)
    else if status == Reverted then
      if receiptSuccess != Some(false) then None
      else if confirmations >= finality then Some(Disposition(false, false, true, FinalizedFailure, true))
      else Some(BLOCKING)
    else if status == Replaced && compatibility == Some(Incompatible) then
      if finalized && confirmations >= finality then Some(Disposition(false, false, true, FinalizedFailure, true))
      else Some(BLOCKING)
    else Some(BLOCKING)
  }

  function Disposed(r: Record): Option<Disposition> {
    Classify(r.confirmations, if r.receipt.None? then None else Some(r.receipt.value.success), r.compatibility,
             r.finalized, r.status, MONITOR_CONFIRMATIONS)
  }

  /** A full exit waits for a record exactly as long as the journal monitors it, and it counts a batch as completed
      only for a final canonical record, which by `Sound` stands for the reviewed transaction. */
  lemma WaitsWhileMonitored(world: World, r: Record)
    requires RecordOk(world, r, CONFIRMATIONS)
    ensures Disposed(r).Some?
    ensures Disposed(r).value.blocksNextBatch <==> NeedsMonitoring(r)
    ensures Disposed(r).value.countsCompleted <==> r.status == Canonical && !NeedsMonitoring(r)
    ensures Disposed(r).value.countsCompleted ==>
              ActiveIsReviewed(world, r) && r.receipt.Some? && r.receipt.value.success
              && r.receipt.value.hash == r.activeHash.value
  {
  }

  /** Main result on dispositions: figures out of range and receipts that contradict the status are refused; otherwise a
      batch may be retried exactly after a refusal or an abort, is done exactly when it is canonical and final, has
      failed exactly when it is reverted or replaced by another transaction and that is final, and blocks the next one
      in every other case. */
  lemma DispositionIs(confirmations: int, receiptSuccess: Option<bool>, compatibility: Option<Compatibility>,
                      finalized: bool, status: Status, finality: int)
    ensures var r := Classify(confirmations, receiptSuccess, compatibility, finalized, status, finality);
            var foreign := status == Replaced && compatibility == Some(Incompatible) && finalized;
            && (r.None? <==>
                  || confirmations < 0 || finality < 1
                  || (status == Canonical && receiptSuccess != Some(true))
                  || (status == Reverted && receiptSuccess != Some(false)))
            && (r.Some? ==>
                  && (r.value.kind == RetryBatch <==> status in {Rejected, Aborted})
                  && (r.value.kind == FinalizedSuccess <==> status == Canonical && confirmations >= finality)
                  && (r.value.kind == FinalizedFailure <==>
                        (status == Reverted || foreign) && confirmations >= finality)
                  && (r.value.blocksNextBatch <==> r.value.kind == Blocking)
                  && (r.value.countsCompleted <==> r.value.kind == FinalizedSuccess)
                  && (r.value.finalityReached <==> r.value.kind != Blocking)
                  && (r.value.replan <==> r.value.kind != Blocking))
  {
  }
}
