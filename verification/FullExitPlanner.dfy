/** The full-exit planner: recursive bisection of candidate ranges under gas, calldata and probe budgets. */
module FullExitPlanner {
  import opened Domain
  import opened Fixed
  import opened FullExitBins
  import FullExitCodec

  const BPS: int := 10_000
  const DEFAULT_BUFFER_BPS: int := 12_500
  const DEFAULT_BLOCK_BPS: int := 8_000

  datatype ProbeResult = Success(calldataBytes: int, estimatedGas: int) | Capacity | SemanticFailure | ProbeUnavailable

  /** What the network answers: it may depend on the candidate and on how many probes were made before. */
  type Probe = (nat, seq<Bin>) -> ProbeResult

  datatype LimitsInput = LimitsInput(blockGasLimit: IntegerInput, bufferBps: Option<int>, maxBlockGasBps: Option<int>,
                                     maxCalldata: int, maxCandidateBins: int, maxProbes: int)

  datatype Limits = Limits(blockGasLimit: nat, bufferBps: nat, maxBlockGasBps: nat, maxCalldata: nat,
                           maxCandidateBins: nat, maxProbes: nat)

  predicate LimitsOk(l: Limits) {
    && l.blockGasLimit > 0 && BPS <= l.bufferBps <= 100_000 && 0 < l.maxBlockGasBps <= BPS
    && l.maxCalldata >= 1 && l.maxCandidateBins >= 1 && l.maxProbes >= 1
  }

  predicate SafeAtLeastOne(n: int) {
    1 <= n <= MAX_SAFE
  }

  function NormalizeLimits(input: LimitsInput): (r: Option<Limits>)
    ensures r.Some? ==> LimitsOk(r.value)
  {
    var gas := ParseNonNegative(input.blockGasLimit);
    var buffer, block := input.bufferBps.GetOr(DEFAULT_BUFFER_BPS), input.maxBlockGasBps.GetOr(DEFAULT_BLOCK_BPS);
    if gas.None? || gas.value == 0 || buffer < BPS || buffer > 100_000 || block <= 0 || block > BPS
       || !SafeAtLeastOne(input.maxCalldata) || !SafeAtLeastOne(input.maxCandidateBins)
       || !SafeAtLeastOne(input.maxProbes)
    then None
    else Some(Limits(gas.value, buffer, block, input.maxCalldata, input.maxCandidateBins, input.maxProbes))
  }

  function CeilDiv(n: nat, d: nat): nat
    requires d > 0
  {
    (n + d - 1) / d
  }

  lemma QuotientBelow(m: nat, d: nat, k: nat)
    requires d > 0
    ensures m / d < k <==> m < k * d
  {
    var e := m / d;
    assert m == e * d + m % d;
    if e < k {
      MulMonotone(e + 1, k, d);
      assert (e + 1) * d == e * d + d;
    } else {
      MulMonotone(k, e, d);
    }
  }

  /** The quotient rounded up: the least `q` with `n <= q * d`. */
  lemma CeilDivLeast(n: nat, d: nat, q: nat)
    requires d > 0
    ensures CeilDiv(n, d) <= q <==> n <= q * d
  {
    QuotientBelow(n + d - 1, d, q + 1);
    assert (q + 1) * d == q * d + d;
  }

  datatype Batch = Batch(bins: seq<Bin>, bufferedGas: nat, calldataBytes: nat, estimatedGas: nat)

  function GasCap(l: Limits): nat {
    l.blockGasLimit * l.maxBlockGasBps / BPS
  }

  datatype PlanError = InvalidInput | ProbeExhausted | ProbeFailed | SemanticRefusal | SingleBinUnsafe(id: nat)

  /** What one probe decides about a candidate. */
  datatype Decision = Keep(batch: Batch) | Shrink | Stop(error: PlanError)

  function Decide(l: Limits, candidate: seq<Bin>, result: ProbeResult): Decision {
    match result
    case SemanticFailure => Stop(SemanticRefusal)
    case ProbeUnavailable => Stop(ProbeFailed)
    case Capacity => Shrink
    case Success(calldata, gas) =>
      if gas <= 0 || calldata <= 0 || calldata > MAX_SAFE then Stop(ProbeFailed)
      else
        var buffered := CeilDiv(gas * l.bufferBps, BPS);
        if calldata > l.maxCalldata || buffered > GasCap(l) then Shrink
        else Keep(Batch(candidate, buffered, calldata, gas))
  }

  /** Batches of a range, the number of probes made so far, and the error that stopped it. */
  datatype Ranged = Ranged(batches: seq<Batch>, probes: nat, error: Option<PlanError>)

  function Half(n: nat): nat {
    (n + 1) / 2
  }

  /** Probing a range: keep it, stop, or bisect it. */
  function PlanRange(l: Limits, probe: Probe, candidate: seq<Bin>, probes: nat): Ranged
    decreases |candidate|
  {
    if candidate == [] then Ranged([], probes, None)
    else if probes >= l.maxProbes then Ranged([], probes, Some(ProbeExhausted))
    else
      match Decide(l, candidate, probe(probes + 1, candidate))
      case Keep(batch) => Ranged([batch], probes + 1, None)
      case Stop(error) => Ranged([], probes + 1, Some(error))
      case Shrink =>
        if |candidate| == 1 then Ranged([], probes + 1, Some(SingleBinUnsafe(candidate[0].id)))
        else
          var middle := Half(|candidate|);
          var first := PlanRange(l, probe, candidate[..middle], probes + 1);
          if first.error.Some? then first
          else
            var second := PlanRange(l, probe, candidate[middle..], first.probes);
            Ranged(first.batches + second.batches, second.probes, second.error)
  }

  /** Candidates of at most `maxCandidateBins` bins, from left to right. */
  function PlanFrom(l: Limits, probe: Probe, bins: seq<Bin>, probes: nat): Ranged
    requires l.maxCandidateBins >= 1
    decreases |bins|
  {
    if bins == [] then Ranged([], probes, None)
    else
      var n := if |bins| < l.maxCandidateBins then |bins| else l.maxCandidateBins;
      var first := PlanRange(l, probe, bins[..n], probes);
      if first.error.Some? then first
      else
        var rest := PlanFrom(l, probe, bins[n..], first.probes);
        Ranged(first.batches + rest.batches, rest.probes, rest.error)
  }

  function BinsOf(batches: seq<Batch>): seq<Bin> {
    if batches == [] then [] else BinsOf(batches[..|batches| - 1]) + batches[|batches| - 1].bins
  }

  // Caps, in ten-thousandths

  /** The least gas that covers the estimate with its margin. */
  predicate Buffers(l: Limits, gas: nat, buffered: nat) {
    gas * l.bufferBps <= 10_000 * buffered < gas * l.bufferBps + 10_000
  }

  predicate WithinBlock(l: Limits, gas: nat) {
    10_000 * gas <= l.blockGasLimit * l.maxBlockGasBps
  }

  /** A batch within every cap. */
  ghost predicate Fits(l: Limits, b: Batch) {
    && 0 < |b.bins| <= l.maxCandidateBins
    && 0 < b.calldataBytes <= l.maxCalldata
    && 0 < b.estimatedGas <= b.bufferedGas <= l.blockGasLimit
    && Buffers(l, b.estimatedGas, b.bufferedGas) && WithinBlock(l, b.bufferedGas)
  }

  /** An answer with usable figures. */
  predicate WellFormed(a: ProbeResult) {
    a.Success? && a.estimatedGas > 0 && 0 < a.calldataBytes <= MAX_SAFE
  }

  /** An answer that says the candidate is too large for one transaction. */
  ghost predicate TooMuch(l: Limits, a: ProbeResult) {
    || a.Capacity?
    || (WellFormed(a)
        && (a.calldataBytes > l.maxCalldata
            || forall gas: nat :: Buffers(l, a.estimatedGas, gas) ==> !WithinBlock(l, gas)))
  }

  lemma CeilDivBuffers(l: Limits, gas: nat, buffered: nat)
    ensures Buffers(l, gas, buffered) <==> buffered == CeilDiv(gas * l.bufferBps, BPS)
  {
    var n, q := gas * l.bufferBps, CeilDiv(gas * l.bufferBps, BPS);
    hide CeilDiv;
    CeilDivLeast(n, BPS, q);
    CeilDivLeast(n, BPS, buffered);
    if q > 0 {
      CeilDivLeast(n, BPS, q - 1);
    }
    if buffered > 0 {
      CeilDivLeast(n, BPS, buffered - 1);
    }
  }

  lemma GasCapIs(l: Limits, gas: nat)
    ensures gas <= GasCap(l) <==> WithinBlock(l, gas)
  {
    QuotientBelow(l.blockGasLimit * l.maxBlockGasBps, BPS, gas);
  }

  lemma WithinWholeBlock(l: Limits, gas: nat)
    requires LimitsOk(l) && WithinBlock(l, gas)
    ensures gas <= l.blockGasLimit
  {
    MulMonotone(l.maxBlockGasBps, BPS, l.blockGasLimit);
    assert l.blockGasLimit * l.maxBlockGasBps == l.maxBlockGasBps * l.blockGasLimit;
  }

  lemma BufferedCovers(l: Limits, gas: nat, buffered: nat)
    requires LimitsOk(l) && Buffers(l, gas, buffered)
    ensures buffered >= gas
  {
    MulMonotone(BPS, l.bufferBps, gas);
    assert gas * l.bufferBps == l.bufferBps * gas;
  }

  /** What an answer decides, without its arithmetic. */
  lemma DecideIs(l: Limits, candidate: seq<Bin>, a: ProbeResult)
    ensures var d := Decide(l, candidate, a);
            && (d.Shrink? <==> TooMuch(l, a))
            && (d.Stop? <==> !TooMuch(l, a) && !WellFormed(a))
            && (d.Stop? ==> d.error == if a.SemanticFailure? then SemanticRefusal else ProbeFailed)
            && (d.Keep? <==> WellFormed(a) && !TooMuch(l, a))
            && (d.Keep? ==>
                  && d.batch == Batch(candidate, d.batch.bufferedGas, a.calldataBytes, a.estimatedGas)
                  && a.calldataBytes <= l.maxCalldata
                  && Buffers(l, a.estimatedGas, d.batch.bufferedGas) && WithinBlock(l, d.batch.bufferedGas))
  {
    if WellFormed(a) {
      var q := CeilDiv(a.estimatedGas * l.bufferBps, BPS);
      GasCapIs(l, q);
      CeilDivBuffers(l, a.estimatedGas, q);
      forall gas: nat | Buffers(l, a.estimatedGas, gas) ensures gas == q {
        CeilDivBuffers(l, a.estimatedGas, gas);
      }
      hide CeilDiv, GasCap, Buffers, WithinBlock;
    }
  }

  lemma DecidedFits(l: Limits, candidate: seq<Bin>, result: ProbeResult)
    requires LimitsOk(l) && 0 < |candidate| <= l.maxCandidateBins && Decide(l, candidate, result).Keep?
    ensures Fits(l, Decide(l, candidate, result).batch) && Decide(l, candidate, result).batch.bins == candidate
  {
    DecideIs(l, candidate, result);
    hide Decide, Buffers, WithinBlock;
    var batch := Decide(l, candidate, result).batch;
    BufferedCovers(l, batch.estimatedGas, batch.bufferedGas);
    WithinWholeBlock(l, batch.bufferedGas);
  }

  lemma BinsOfNothing()
    ensures BinsOf([]) == []
  {
  }

  lemma BinsOfAppend(a: seq<Batch>, last: Batch)
    ensures BinsOf(a + [last]) == BinsOf(a) + last.bins
  {
    assert (a + [last])[..|a|] == a;
  }

  lemma {:induction false} BinsOfConcat(a: seq<Batch>, b: seq<Batch>)
    ensures BinsOf(a + b) == BinsOf(a) + BinsOf(b)
  {
    hide BinsOf;
    if b == [] {
      BinsOfNothing();
      assert a + b == a;
    } else {
      var init, last := b[..|b| - 1], b[|b| - 1];
      BinsOfConcat(a, init);
      BinsOfAppend(a + init, last);
      BinsOfAppend(init, last);
      assert a + b == (a + init) + [last] && b == init + [last];
    }
  }

  ghost predicate AllFit(l: Limits, batches: seq<Batch>) {
    forall b :: b in batches ==> Fits(l, b)
  }

  lemma HalfSplits(n: nat)
    requires n > 1
    ensures 0 < Half(n) < n
  {
  }

  /** A range that succeeds is covered exactly by its batches, each within the caps. Its probes form a binary tree
      whose leaves are the batches: one fewer than twice their number. */
  ghost predicate RangeOk(l: Limits, candidate: seq<Bin>, probes: nat, r: Ranged) {
    && probes <= r.probes <= l.maxProbes && AllFit(l, r.batches)
    && (r.error.None? ==>
          && BinsOf(r.batches) == candidate
          && r.probes - probes == (if candidate == [] then 0 else 2 * |r.batches| - 1))
  }

  lemma HalvesOk(l: Limits, a: seq<Bin>, b: seq<Bin>, probes: nat, first: Ranged, second: Ranged)
    requires a != [] && b != [] && first.error.None?
    requires RangeOk(l, a, probes + 1, first) && RangeOk(l, b, first.probes, second)
    ensures RangeOk(l, a + b, probes, Ranged(first.batches + second.batches, second.probes, second.error))
  {
    hide Fits, BinsOf;
    BinsOfConcat(first.batches, second.batches);
  }

  lemma OneBatchOk(l: Limits, candidate: seq<Bin>, probes: nat, batch: Batch)
    requires candidate != [] && probes < l.maxProbes && Fits(l, batch) && batch.bins == candidate
    ensures RangeOk(l, candidate, probes, Ranged([batch], probes + 1, None))
  {
    hide Fits, BinsOf;
    BinsOfNothing();
    BinsOfAppend([], batch);
    assert [] + [batch] == [batch] && [] + batch.bins == batch.bins;
  }

  lemma NoBatchOk(l: Limits, candidate: seq<Bin>, probes: nat, r: Ranged)
    requires r.batches == [] && probes <= r.probes <= l.maxProbes
    requires r.error.Some? || (candidate == [] && r.probes == probes)
    ensures RangeOk(l, candidate, probes, r)
  {
  }

  lemma {:induction false} RangeCovered(l: Limits, probe: Probe, candidate: seq<Bin>, probes: nat)
    requires LimitsOk(l) && |candidate| <= l.maxCandidateBins && probes <= l.maxProbes
    ensures RangeOk(l, candidate, probes, PlanRange(l, probe, candidate, probes))
    decreases |candidate|, 1
  {
    hide Fits, Decide, RangeOk, LimitsOk;
    if candidate == [] || probes >= l.maxProbes {
      NoBatchOk(l, candidate, probes, PlanRange(l, probe, candidate, probes));
    } else {
      match Decide(l, candidate, probe(probes + 1, candidate))
      case Keep(batch) =>
        DecidedFits(l, candidate, probe(probes + 1, candidate));
        OneBatchOk(l, candidate, probes, batch);
      case Stop(_) => NoBatchOk(l, candidate, probes, PlanRange(l, probe, candidate, probes));
      case Shrink => ShrunkCovered(l, probe, candidate, probes);
    }
  }

  /** A range that is bisected, or refused because it is a single bin. */
  lemma {:induction false} ShrunkCovered(l: Limits, probe: Probe, candidate: seq<Bin>, probes: nat)
    requires LimitsOk(l) && 0 < |candidate| <= l.maxCandidateBins && probes < l.maxProbes
    requires Decide(l, candidate, probe(probes + 1, candidate)) == Shrink
    ensures RangeOk(l, candidate, probes, PlanRange(l, probe, candidate, probes))
    decreases |candidate|, 0
  {
    hide Decide, RangeOk, LimitsOk;
    if |candidate| == 1 {
      NoBatchOk(l, candidate, probes, PlanRange(l, probe, candidate, probes));
    } else {
      var middle := Half(|candidate|);
      HalfSplits(|candidate|);
      RangeCovered(l, probe, candidate[..middle], probes + 1);
      var first := PlanRange(l, probe, candidate[..middle], probes + 1);
      if first.error.None? {
        RangeBudget(l, candidate[..middle], probes + 1, first);
        RangeCovered(l, probe, candidate[middle..], first.probes);
        var second := PlanRange(l, probe, candidate[middle..], first.probes);
        HalvesOk(l, candidate[..middle], candidate[middle..], probes, first, second);
        assert candidate[..middle] + candidate[middle..] == candidate;
      } else {
        FailedHalf(l, candidate[..middle], candidate, probes, first);
      }
    }
  }

  lemma RangeBudget(l: Limits, candidate: seq<Bin>, probes: nat, r: Ranged)
    requires RangeOk(l, candidate, probes, r)
    ensures r.probes <= l.maxProbes
  {
  }

  lemma FailedHalf(l: Limits, half: seq<Bin>, candidate: seq<Bin>, probes: nat, r: Ranged)
    requires RangeOk(l, half, probes + 1, r) && r.error.Some?
    ensures RangeOk(l, candidate, probes, r)
  {
  }

  /** Main result of planning: on success the batches, concatenated, are exactly the given bins; each is within the
      caps; and the probes used are twice the batches less the number of initial candidates, within budget. */
  lemma {:induction false} PlanCovered(l: Limits, probe: Probe, bins: seq<Bin>, probes: nat)
    requires LimitsOk(l) && probes <= l.maxProbes
    ensures var r := PlanFrom(l, probe, bins, probes);
            && probes <= r.probes <= l.maxProbes && AllFit(l, r.batches)
            && (r.error.None? ==>
                  && BinsOf(r.batches) == bins
                  && r.probes - probes == 2 * |r.batches| - CeilDiv(|bins|, l.maxCandidateBins))
    decreases |bins|
  {
    hide Fits, CeilDiv, PlanRange, BinsOf;
    if bins == [] {
      BinsOfNothing();
      NoCandidates(l.maxCandidateBins);
    } else {
      var n := if |bins| < l.maxCandidateBins then |bins| else l.maxCandidateBins;
      RangeCovered(l, probe, bins[..n], probes);
      var first := PlanRange(l, probe, bins[..n], probes);
      if first.error.None? {
        PlanCovered(l, probe, bins[n..], first.probes);
        var rest := PlanFrom(l, probe, bins[n..], first.probes);
        BinsOfConcat(first.batches, rest.batches);
        assert bins[..n] + bins[n..] == bins;
        OneCandidateLess(|bins|, l.maxCandidateBins);
      }
    }
  }

  lemma NoCandidates(size: nat)
    requires size > 0
    ensures CeilDiv(0, size) == 0
  {
    CeilDivLeast(0, size, 0);
  }

  lemma OneCandidateLess(n: nat, size: nat)
    requires size > 0 && n > 0
    ensures CeilDiv(n, size) == 1 + CeilDiv(if n < size then 0 else n - size, size)
  {
    if n <= size {
      NoCandidates(size);
      CeilDivLeast(n, size, 1);
      CeilDivLeast(n, size, 0);
    } else {
      var q := CeilDiv(n - size, size);
      hide CeilDiv;
      CeilDivLeast(n - size, size, q);
      CeilDivLeast(n, size, q + 1);
      assert (q + 1) * size == q * size + size;
      CeilDivLeast(n, size, q);
      if q > 0 {
        CeilDivLeast(n - size, size, q - 1);
        assert (q - 1) * size == q * size - size;
      }
    }
  }

  /** Probes that only ever succeed with well-formed evidence or report a lack of capacity. */
  ghost predicate OnlyCapacity(probe: Probe) {
    forall n: nat, candidate: seq<Bin> :: WellFormed(probe(n, candidate)) || probe(n, candidate).Capacity?
  }

  ghost predicate UnsafeOnly(r: Ranged) {
    r.error.Some? ==> r.error.value.SingleBinUnsafe?
  }

  lemma {:induction false} RangeWithinBudget(l: Limits, probe: Probe, candidate: seq<Bin>, probes: nat)
    requires OnlyCapacity(probe) && (candidate != [] ==> probes + 2 * |candidate| - 1 <= l.maxProbes)
    ensures var r := PlanRange(l, probe, candidate, probes);
            UnsafeOnly(r) && r.probes <= probes + (if candidate == [] then 0 else 2 * |candidate| - 1)
    decreases |candidate|
  {
    if candidate != [] {
      var decision := Decide(l, candidate, probe(probes + 1, candidate));
      hide Decide, WellFormed, Buffers;
      DecideIs(l, candidate, probe(probes + 1, candidate));
      if decision.Shrink? && |candidate| > 1 {
        var middle := Half(|candidate|);
        HalfSplits(|candidate|);
        RangeWithinBudget(l, probe, candidate[..middle], probes + 1);
        var first := PlanRange(l, probe, candidate[..middle], probes + 1);
        if first.error.None? {
          RangeWithinBudget(l, probe, candidate[middle..], first.probes);
        }
      }
    }
  }

  /** With such probes a budget of twice the bins is enough: only a single bin that fits no safe transaction can stop
      the plan. */
  lemma {:induction false} BudgetOfTwiceBins(l: Limits, probe: Probe, bins: seq<Bin>, probes: nat)
    requires LimitsOk(l) && OnlyCapacity(probe) && probes + 2 * |bins| <= l.maxProbes
    ensures var r := PlanFrom(l, probe, bins, probes);
            UnsafeOnly(r) && r.probes <= probes + 2 * |bins|
    decreases |bins|
  {
    hide Decide;
    if bins != [] {
      var n := if |bins| < l.maxCandidateBins then |bins| else l.maxCandidateBins;
      RangeWithinBudget(l, probe, bins[..n], probes);
      var first := PlanRange(l, probe, bins[..n], probes);
      if first.error.None? {
        BudgetOfTwiceBins(l, probe, bins[n..], first.probes);
      }
    }
  }

  /** The planner's closure over its probe count and batches. */
  class Planner {
    const limits: Limits
    const probe: Probe
    var probeCount: nat
    var batches: seq<Batch>

    constructor (limits: Limits, probe: Probe)
      ensures this.limits == limits && this.probe == probe && probeCount == 0 && batches == []
    {
      this.limits, this.probe := limits, probe;
      probeCount, batches := 0, [];
    }

    /** Probes one candidate range; the returned error is what the code throws. */
    method ProbeRange(candidate: seq<Bin>) returns (error: Option<PlanError>)
      modifies this
      ensures var r := PlanRange(limits, probe, candidate, old(probeCount));
              && error == r.error && probeCount == r.probes
              && (error.None? ==> batches == old(batches) + r.batches)
      decreases |candidate|
    {
      hide GasCap;
      if |candidate| == 0 {
        return None;
      }
      if probeCount >= limits.maxProbes {
        return Some(ProbeExhausted);
      }
      probeCount := probeCount + 1;
      var result := probe(probeCount, candidate);
      if result.SemanticFailure? {
        return Some(SemanticRefusal);
      }
      if result.ProbeUnavailable? {
        return Some(ProbeFailed);
      }
      var safe := false;
      if result.Success? {
        if result.estimatedGas <= 0 || result.calldataBytes <= 0 || result.calldataBytes > MAX_SAFE {
          return Some(ProbeFailed);
        }
        var bufferedGas := CeilDiv(result.estimatedGas * limits.bufferBps, BPS);
        if !(result.calldataBytes > limits.maxCalldata) && !(bufferedGas > GasCap(limits)) {
          batches := batches + [Batch(candidate, bufferedGas, result.calldataBytes, result.estimatedGas)];
          return None;
        }
      }
      if |candidate| == 1 {
        return Some(SingleBinUnsafe(candidate[0].id));
      }
      error := Bisect(candidate);
    }

    method Bisect(candidate: seq<Bin>) returns (error: Option<PlanError>)
      requires |candidate| > 1
      modifies this
      ensures var middle := Half(|candidate|);
              var first := PlanRange(limits, probe, candidate[..middle], old(probeCount));
              if first.error.Some? then error == first.error && probeCount == first.probes
              else
                var second := PlanRange(limits, probe, candidate[middle..], first.probes);
                && error == second.error && probeCount == second.probes
                && (error.None? ==> batches == old(batches) + (first.batches + second.batches))
      decreases |candidate|, 0
    {
      hide PlanRange;
      var midpoint := Half(|candidate|);
      HalfSplits(|candidate|);
      error := ProbeRange(candidate[..midpoint]);
      if error.None? {
        error := ProbeRange(candidate[midpoint..]);
      }
    }
  }

  /** The end of the candidate that starts at the given bin. */
  function CandidateEnd(bins: seq<Bin>, offset: nat, size: nat): nat {
    if |bins| < offset + size then |bins| else offset + size
  }

  lemma PlanNext(l: Limits, probe: Probe, bins: seq<Bin>, offset: nat, probes: nat)
    requires l.maxCandidateBins >= 1 && offset < |bins|
    ensures var end := CandidateEnd(bins, offset, l.maxCandidateBins);
            var first := PlanRange(l, probe, bins[offset..end], probes);
            PlanFrom(l, probe, bins[offset..], probes)
            == if first.error.Some? then first
               else var rest := PlanFrom(l, probe, bins[end..], first.probes);
                    Ranged(first.batches + rest.batches, rest.probes, rest.error)
  {
    hide PlanRange;
    var end := CandidateEnd(bins, offset, l.maxCandidateBins);
    assert bins[offset..][..end - offset] == bins[offset..end];
    assert bins[offset..][end - offset..] == bins[end..];
  }

  lemma PlanNone(l: Limits, probe: Probe, probes: nat)
    requires l.maxCandidateBins >= 1
    ensures PlanFrom(l, probe, [], probes) == Ranged([], probes, None)
  {
  }

  method RunCandidates(planner: Planner, bins: seq<Bin>) returns (error: Option<PlanError>)
    requires planner.limits.maxCandidateBins >= 1 && planner.probeCount == 0 && planner.batches == []
    modifies planner
    ensures var r := PlanFrom(planner.limits, planner.probe, bins, 0);
            && error == r.error && planner.probeCount == r.probes && (error.None? ==> planner.batches == r.batches)
  {
    hide PlanRange, PlanFrom;
    var size := planner.limits.maxCandidateBins;
    ghost var whole := PlanFrom(planner.limits, planner.probe, bins, 0);
    var offset := 0;
    assert bins[0..] == bins;
    while offset < |bins|
      invariant offset <= |bins|
      invariant var rest := PlanFrom(planner.limits, planner.probe, bins[offset..], planner.probeCount);
                whole == Ranged(planner.batches + rest.batches, rest.probes, rest.error)
    {
      var end := CandidateEnd(bins, offset, size);
      PlanNext(planner.limits, planner.probe, bins, offset, planner.probeCount);
      error := planner.ProbeRange(bins[offset..end]);
      if error.Some? {
        return;
      }
      offset := end;
    }
    assert bins[offset..] == [];
    PlanNone(planner.limits, planner.probe, planner.probeCount);
    error := None;
  }

  lemma BudgetSuffices(l: Limits, probe: Probe, bins: seq<Bin>)
    requires LimitsOk(l)
    ensures OnlyCapacity(probe) && 2 * |bins| <= l.maxProbes ==> UnsafeOnly(PlanFrom(l, probe, bins, 0))
  {
    hide OnlyCapacity, PlanFrom;
    if OnlyCapacity(probe) && 2 * |bins| <= l.maxProbes {
      BudgetOfTwiceBins(l, probe, bins, 0);
    }
  }

  datatype Plan = Plan(batches: seq<Batch>, limits: Limits, positiveBins: nat, probes: nat)

  /** The given fingerprint, if there is one, parses to a state of exactly these bins. */
  predicate Pins(k: FullExitCodec.Lengths, fingerprint: Option<FullExitCodec.Text>, bins: seq<Bin>) {
    fingerprint.Some? ==>
      var state := FullExitCodec.ParseFingerprint(k, fingerprint.value);
      state.Some? && state.value.bins == bins
  }

  /** Plans the batches of a full exit, for the pinned state if a fingerprint is given. */
  method PlanFullExitBatches(k: FullExitCodec.Lengths, input: seq<BinInput>, limitsInput: LimitsInput, probe: Probe,
                             fingerprint: Option<FullExitCodec.Text>)
    returns (r: Option<Plan>, error: Option<PlanError>)
    ensures r.Some? <==> error.None?
    ensures var bins, l := Normalize(input, true), NormalizeLimits(limitsInput);
            if bins.None? || l.None? || !Pins(k, fingerprint, bins.value) then error == Some(InvalidInput)
            else
              var plan := PlanFrom(l.value, probe, bins.value, 0);
              && error == plan.error
              && (r.Some? ==> r.value == Plan(plan.batches, l.value, |bins.value|, plan.probes))
    ensures r.Some? ==>
              var bins, l := Normalize(input, true), NormalizeLimits(limitsInput);
              && bins.Some? && l.Some? && Pins(k, fingerprint, bins.value)
              && BinsOf(r.value.batches) == bins.value && AllFit(l.value, r.value.batches)
              && r.value.limits == l.value && r.value.positiveBins == |bins.value|
              && r.value.probes == 2 * |r.value.batches| - CeilDiv(|bins.value|, l.value.maxCandidateBins)
              && r.value.probes <= l.value.maxProbes
    ensures var bins, l := Normalize(input, true), NormalizeLimits(limitsInput);
            bins.Some? && l.Some? && Pins(k, fingerprint, bins.value)
            && OnlyCapacity(probe) && 2 * |bins.value| <= l.value.maxProbes ==>
              error.Some? ==> error.value.SingleBinUnsafe?
  {
    hide PlanRange, PlanFrom, AllFit, OnlyCapacity, CeilDiv, Normalize, FullExitCodec.ParseFingerprint;
    var bins := NormalizeLiveBins(input, true);
    var limits := NormalizeLimits(limitsInput);
    if bins.None? || limits.None? {
      return None, Some(InvalidInput);
    }
    if fingerprint.Some? {
      var state := FullExitCodec.ParseFingerprint(k, fingerprint.value);
      if state.None? || state.value.bins != bins.value {
        return None, Some(InvalidInput);
      }
    }
    var l := limits.value;
    PlanCovered(l, probe, bins.value, 0);
    BudgetSuffices(l, probe, bins.value);
    var planner := new Planner(l, probe);
    error := RunCandidates(planner, bins.value);
    if error.Some? {
      return None, error;
    }
    r := Some(Plan(planner.batches, l, |bins.value|, planner.probeCount));
  }
}
