/** Which records a bounded journal keeps, which new intents it refuses, and whom a step concerns, told from the
    records' fields. */
module KeptRecords {
  import opened Domain
  import opened Journal
  import opened JournalRuns
  import opened JournalJoin

  /** Over for good: refused by the wallet, given up, or settled for at least twelve confirmations. */
  predicate Settled(r: Record) {
    || r.status in {Rejected, Aborted}
    || (r.confirmations >= 12 && r.status in {Canonical, Reverted})
    || (r.confirmations >= 12 && r.status == Replaced && r.compatibility == Some(Incompatible) && r.finalized)
  }

  function SettledCount(records: seq<Record>): nat {
    if records == [] then 0
    else SettledCount(records[..|records| - 1]) + if Settled(records[|records| - 1]) then 1 else 0
  }

  lemma SettledIsTerminal(r: Record)
    ensures IsTerminal(r) <==> Settled(r)
  {
  }

  lemma {:induction false} ClosedCount(records: seq<Record>)
    ensures |ClosedOf(records)| == SettledCount(records) && |OpenOf(records)| == |records| - SettledCount(records)
  {
    hide NeedsMonitoring, Settled;
    if records != [] {
      ClosedCount(records[..|records| - 1]);
      SettledIsTerminal(records[|records| - 1]);
    }
  }

  lemma {:induction false} ClosedConcat(a: seq<Record>, b: seq<Record>)
    ensures ClosedOf(a + b) == ClosedOf(a) + ClosedOf(b)
  {
    hide NeedsMonitoring;
    if b == [] {
      assert a + b == a;
    } else {
      ClosedConcat(a, b[..|b| - 1]);
      assert (a + b)[..|a + b| - 1] == a + b[..|b| - 1];
    }
  }

  /** The settled record at an index, among the settled ones. */
  lemma ClosedAt(records: seq<Record>, i: nat)
    requires i < |records| && IsTerminal(records[i])
    ensures var closed, at := ClosedOf(records), |ClosedOf(records[..i])|;
            && at + 1 + |ClosedOf(records[i + 1..])| == |closed| && closed[at] == records[i]
  {
    hide NeedsMonitoring;
    assert ClosedOf([records[i]]) == [records[i]] by {
      assert [records[i]][..0] == [];
    }
    ClosedConcat(records[..i], [records[i]]);
    ClosedConcat(records[..i] + [records[i]], records[i + 1..]);
    assert records == records[..i] + [records[i]] + records[i + 1..];
  }

  lemma InLastIff(records: seq<Record>, n: nat, at: nat)
    requires DistinctIds(records) && at < |records|
    ensures records[at] in LastOf(records, n) <==> at + n >= |records|
  {
    if n < |records| {
      var kept := records[|records| - n..];
      if at + n >= |records| {
        assert kept[at + n - |records|] == records[at];
      } else {
        forall k | 0 <= k < |kept| ensures kept[k] != records[at] {
          assert kept[k] == records[|records| - n + k];
        }
      }
    }
  }

  lemma BoundedHolds(records: seq<Record>, r: Record)
    requires |OpenOf(records)| <= 200 && r in records
    ensures r in Bounded(records).value <==>
            !IsTerminal(r) || r in LastOf(ClosedOf(records), 200 - |OpenOf(records)|)
  {
    hide NeedsMonitoring, LastOf, SortByCreated;
    var kept := LastOf(ClosedOf(records), 200 - |OpenOf(records)|);
    SortByCreatedMembers(OpenOf(records) + kept);
    OpenOfMembers(records);
    ClosedOfMembers(records);
    LastOfWithin(ClosedOf(records), 200 - |OpenOf(records)|);
    hide OpenOf, ClosedOf;
  }

  lemma LastOfWithin(records: seq<Record>, n: nat)
    ensures forall r :: r in LastOf(records, n) ==> r in records
  {
  }

  lemma KeptIff(records: seq<Record>, i: nat)
    requires DistinctIds(records) && |OpenOf(records)| <= 200 && i < |records|
    ensures records[i] in Bounded(records).value <==>
            !Settled(records[i]) || SettledCount(records[i + 1..]) + |OpenOf(records)| < 200
  {
    hide NeedsMonitoring, Settled, LastOf, Bounded, OpenOf;
    var room := 200 - |OpenOf(records)|;
    BoundedHolds(records, records[i]);
    SettledIsTerminal(records[i]);
    if IsTerminal(records[i]) {
      ClosedAt(records, i);
      PartsDistinct(records);
      ClosedCount(records[i + 1..]);
      InLastIff(ClosedOf(records), room, |ClosedOf(records[..i])|);
      hide ClosedOf, SettledCount, DistinctIds;
    }
  }

  /** Main result on bounding: it fails exactly on more than 200 unsettled records; otherwise the journal keeps, by time
      of creation, all unsettled records and of the settled ones exactly those with fewer settled ones after them than
      there is room for. */
  lemma BoundedIs(records: seq<Record>)
    requires DistinctIds(records)
    ensures var unsettled, b := |records| - SettledCount(records), Bounded(records);
            && (b.None? <==> unsettled > 200)
            && (b.Some? ==>
                  && DistinctIds(b.value) && SortedByCreated(b.value) && (forall r :: r in b.value ==> r in records)
                  && forall i :: 0 <= i < |records| ==>
                       (records[i] in b.value <==>
                          !Settled(records[i]) || SettledCount(records[i + 1..]) + unsettled < 200))
  {
    BoundedSorted(records);
    hide Settled, DistinctIds, Bounded, SortedByCreated;
    ClosedCount(records);
    BoundedKeeps(records);
    if |OpenOf(records)| <= 200 {
      forall i | 0 <= i < |records|
        ensures records[i] in Bounded(records).value <==>
                !Settled(records[i]) || SettledCount(records[i + 1..]) + |OpenOf(records)| < 200
      {
        KeptIff(records, i);
      }
    }
  }

  lemma BoundedSorted(records: seq<Record>)
    ensures Bounded(records).Some? ==> SortedByCreated(Bounded(records).value)
  {
    hide OpenOf, ClosedOf, SortedByCreated;
    if |OpenOf(records)| <= MAX_RECORDS {
      SortIsSorted(OpenOf(records) + LastOf(ClosedOf(records), MAX_RECORDS - |OpenOf(records)|));
    }
  }

  // Refused intents

  /** The two intents would make the same transaction: an approval of the same call, or the same action on the same
      pool, as written, for the same recipients under the same settings. */
  predicate SameRequest(a: Reviewed, b: Reviewed) {
    && a.scope == b.scope && a.intent == b.intent && a.contracts == b.contracts && a.target == b.target
    && a.value == b.value
    && (a.intent == Approval ==> a.calldata == b.calldata)
    && (a.intent != Approval ==>
          && a.pool == b.pool && a.settings == b.settings
          && a.recipient == b.recipient && a.refundRecipient == b.refundRecipient)
  }

  /** Both take liquidity out of the same pool, whatever the case of its letters. */
  predicate SameExit(a: Reviewed, b: Reviewed) {
    && a.scope == b.scope && a.intent == b.intent == RemoveLiquidity && a.target == b.target
    && if a.pool.None? || b.pool.None? then a.pool == b.pool else a.pool.value.folded == b.pool.value.folded
  }

  /** Main result on new intents: one is refused exactly when an earlier same request is neither settled nor canonical
      nor finally replaced, or an earlier exit from its pool is not settled, or 200 records are all unsettled. */
  lemma RefusedIff(s: State, reviewed: Reviewed)
    ensures Refused(s, reviewed) <==>
              || (exists r :: r in s.records && SameRequest(r.reviewed, reviewed) && !Settled(r)
                              && r.status != Canonical
                              && !(r.status == Replaced && r.compatibility == Some(Incompatible) && r.finalized))
              || (exists r :: r in s.records && SameExit(r.reviewed, reviewed) && !Settled(r))
              || (|s.records| >= 200 && forall r :: r in s.records ==> !Settled(r))
  {
    forall r | r in s.records
      ensures BlocksFamily(r) <==> !Settled(r)
      ensures IsTerminal(r) <==> Settled(r)
      ensures BlocksRetry(r) <==>
              !Settled(r) && r.status != Canonical
              && !(r.status == Replaced && r.compatibility == Some(Incompatible) && r.finalized)
      ensures r.reviewed.scope == reviewed.scope && SameRetryKey(r.reviewed, reviewed) <==>
              SameRequest(r.reviewed, reviewed)
      ensures SameFamily(r.reviewed, reviewed) <==> SameExit(r.reviewed, reviewed)
    {
    }
    hide BlocksFamily, NeedsMonitoring, Settled, BlocksRetry, SameRetryKey, SameRequest, SameFamily, SameExit;
  }

  // Steps

  /** A step reaches only the record it names, or on a reload every record; a check asks for two confirmations. */
  lemma StepIs(r: Record, a: Action)
    ensures a.Begin? || (!a.Recover? && a.id != r.id) ==> RecordStep(r, a) == r
    ensures a.Recover? ==> RecordStep(r, a) == WithRecovered(r, a.now)
    ensures !a.Begin? && !a.Recover? && a.id == r.id ==>
              RecordStep(r, a) == match a
                                  case HashReturned(_, revision, hash, now) => WithSubmitted(r, revision, hash, now)
                                  case RejectionReturned(_, revision, text, now) => WithRejected(r, revision, text, now)
                                  case UnknownReturned(_, revision, text, now) => WithUnknown(r, revision, text, now)
                                  case AbortRequested(_, revision, now) => WithAborted(r, revision, now)
                                  case Check(_, _, o) => Observed(r, o, 2)
                                  case Defer(_, _, now) => WithDeferred(r, now)
  {
    hide WithSubmitted, WithRejected, WithUnknown, WithAborted, WithRecovered, WithDeferred, Observed;
  }
}
