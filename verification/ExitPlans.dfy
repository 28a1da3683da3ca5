/** What a plan of full-exit batches says about the probes behind it: which candidates are kept whole, which are
    bisected, and what stopped a plan that failed. */
module ExitPlans {
  import opened Domain
  import opened FullExitBins
  import opened FullExitPlanner

  /** Two to the power of 53. */
  const SAFE: int := 0x20_0000_0000_0000

  /** The limits of a plan: given in full, or with a quarter of margin on gas and four fifths of the block. */
  lemma LimitsAre(input: LimitsInput)
    ensures var r, gas := NormalizeLimits(input), ParseNonNegative(input.blockGasLimit);
            var buffer := if input.bufferBps.Some? then input.bufferBps.value else 12_500;
            var block := if input.maxBlockGasBps.Some? then input.maxBlockGasBps.value else 8_000;
            if gas.Some? && gas.value > 0 && 10_000 <= buffer <= 100_000 && 0 < block <= 10_000
               && 0 < input.maxCalldata < SAFE && 0 < input.maxCandidateBins < SAFE && 0 < input.maxProbes < SAFE
            then r == Some(Limits(gas.value, buffer, block, input.maxCalldata, input.maxCandidateBins, input.maxProbes))
            else r.None?
  {
  }

  // One candidate

  /** Main result on one candidate: it is kept whole, as one batch with the figures of its probe, exactly when the
      answer is usable and within the caps; it is bisected, the first half the larger one, exactly when the answer says
      it is too much; and any other answer stops the plan. */
  lemma CandidateIs(l: Limits, probe: Probe, candidate: seq<Bin>, probes: nat) returns (gas: nat, middle: nat)
    requires candidate != [] && probes < l.maxProbes
    ensures var r, a := PlanRange(l, probe, candidate, probes), probe(probes + 1, candidate);
            if TooMuch(l, a) then
              if |candidate| == 1 then r == Ranged([], probes + 1, Some(SingleBinUnsafe(candidate[0].id)))
              else
                && 0 < middle < |candidate| <= 2 * middle <= |candidate| + 1
                && var first := PlanRange(l, probe, candidate[..middle], probes + 1);
                   if first.error.Some? then r == first
                   else
                     var second := PlanRange(l, probe, candidate[middle..], first.probes);
                     r == Ranged(first.batches + second.batches, second.probes, second.error)
            else if WellFormed(a) then
              && a.calldataBytes <= l.maxCalldata && Buffers(l, a.estimatedGas, gas) && WithinBlock(l, gas)
              && r == Ranged([Batch(candidate, gas, a.calldataBytes, a.estimatedGas)], probes + 1, None)
            else r == Ranged([], probes + 1, Some(if a.SemanticFailure? then SemanticRefusal else ProbeFailed))
  {
    var a := probe(probes + 1, candidate);
    var d := Decide(l, candidate, a);
    DecideIs(l, candidate, a);
    gas := if d.Keep? then d.batch.bufferedGas else 0;
    middle := Half(|candidate|);
    hide Decide, TooMuch, WellFormed, Buffers, WithinBlock;
  }

  // Whole plans

  /** Either half of a range, the first one being the larger if they differ. */
  predicate IsHalf(c: seq<Bin>, parent: seq<Bin>) {
    exists k :: 0 < k < |parent| <= 2 * k <= |parent| + 1 && (c == parent[..k] || c == parent[k..])
  }

  /** One of the plan's probes answered with exactly the batch's figures for exactly its bins. */
  ghost predicate Backed(probe: Probe, from: nat, upto: nat, b: Batch) {
    exists n: nat :: from < n <= upto && probe(n, b.bins) == Success(b.calldataBytes, b.estimatedGas)
  }

  /** One of the plan's probes said that a range was too much, of which the batch is a half. */
  ghost predicate Bisected(l: Limits, probe: Probe, from: nat, upto: nat, b: Batch) {
    exists n: nat, parent: seq<Bin> :: from < n <= upto && TooMuch(l, probe(n, parent)) && IsHalf(b.bins, parent)
  }

  ghost predicate RangeJustified(l: Limits, probe: Probe, candidate: seq<Bin>, from: nat, r: Ranged) {
    && from <= r.probes
    && forall b :: b in r.batches ==>
         && Backed(probe, from, r.probes, b)
         && (b.bins == candidate || Bisected(l, probe, from, r.probes, b))
  }

  lemma WiderBacked(l: Limits, probe: Probe, a: nat, b: nat, c: nat, d: nat, batch: Batch)
    requires a <= b <= c <= d
    ensures Backed(probe, b, c, batch) ==> Backed(probe, a, d, batch)
    ensures Bisected(l, probe, b, c, batch) ==> Bisected(l, probe, a, d, batch)
  {
    hide TooMuch, IsHalf;
  }

  /** What half of a bisected range gives is justified for the whole of it. */
  lemma HalfJustified(l: Limits, probe: Probe, candidate: seq<Bin>, half: seq<Bin>, from: nat, at: nat, r: Ranged)
    requires TooMuch(l, probe(from + 1, candidate)) && IsHalf(half, candidate) && from + 1 <= at
    requires RangeJustified(l, probe, half, at, r)
    ensures RangeJustified(l, probe, candidate, from, r)
  {
    hide TooMuch, IsHalf, Backed;
    forall b | b in r.batches ensures Backed(probe, from, r.probes, b) && Bisected(l, probe, from, r.probes, b) {
      WiderBacked(l, probe, from, at, r.probes, r.probes, b);
    }
  }

  lemma BothJustified(l: Limits, probe: Probe, candidate: seq<Bin>, from: nat, first: Ranged, second: Ranged)
    requires RangeJustified(l, probe, candidate, from, first) && RangeJustified(l, probe, candidate, from, second)
    requires first.probes <= second.probes
    ensures RangeJustified(l, probe, candidate, from,
                           Ranged(first.batches + second.batches, second.probes, second.error))
  {
    hide Backed, Bisected;
    forall b | b in first.batches
      ensures Backed(probe, from, first.probes, b) ==> Backed(probe, from, second.probes, b)
      ensures Bisected(l, probe, from, first.probes, b) ==> Bisected(l, probe, from, second.probes, b)
    {
      WiderBacked(l, probe, from, from, first.probes, second.probes, b);
    }
  }

  lemma WholeJustified(l: Limits, probe: Probe, candidate: seq<Bin>, probes: nat, b: Batch)
    requires b.bins == candidate && probe(probes + 1, candidate) == Success(b.calldataBytes, b.estimatedGas)
    ensures RangeJustified(l, probe, candidate, probes, Ranged([b], probes + 1, None))
  {
  }

  lemma {:induction false} RangeIsJustified(l: Limits, probe: Probe, candidate: seq<Bin>, probes: nat)
    ensures RangeJustified(l, probe, candidate, probes, PlanRange(l, probe, candidate, probes))
    decreases |candidate|, 1
  {
    if candidate != [] && probes < l.maxProbes {
      var r, a := PlanRange(l, probe, candidate, probes), probe(probes + 1, candidate);
      var gas, middle := CandidateIs(l, probe, candidate, probes);
      hide PlanRange, Buffers, WithinBlock, TooMuch, Backed, Bisected;
      if TooMuch(l, a) && |candidate| > 1 {
        HalvesJustified(l, probe, candidate, probes, middle);
      } else if !TooMuch(l, a) && WellFormed(a) {
        WholeJustified(l, probe, candidate, probes, Batch(candidate, gas, a.calldataBytes, a.estimatedGas));
      }
    }
  }

  /** The plans of both parts of a range, or of the first if that fails. */
  function Bisection(l: Limits, probe: Probe, candidate: seq<Bin>, probes: nat, middle: nat): Ranged
    requires middle <= |candidate|
  {
    var first := PlanRange(l, probe, candidate[..middle], probes + 1);
    if first.error.Some? then first
    else
      var second := PlanRange(l, probe, candidate[middle..], first.probes);
      Ranged(first.batches + second.batches, second.probes, second.error)
  }

  lemma {:induction false} HalvesJustified(l: Limits, probe: Probe, candidate: seq<Bin>, probes: nat, middle: nat)
    requires 0 < middle < |candidate| <= 2 * middle <= |candidate| + 1
    requires TooMuch(l, probe(probes + 1, candidate))
    ensures RangeJustified(l, probe, candidate, probes, Bisection(l, probe, candidate, probes, middle))
    decreases |candidate|, 0
  {
    hide PlanRange, TooMuch, Backed, Bisected;
    var first := PlanRange(l, probe, candidate[..middle], probes + 1);
    RangeIsJustified(l, probe, candidate[..middle], probes + 1);
    HalfJustified(l, probe, candidate, candidate[..middle], probes, probes + 1, first);
    if first.error.None? {
      var second := PlanRange(l, probe, candidate[middle..], first.probes);
      RangeIsJustified(l, probe, candidate[middle..], first.probes);
      HalfJustified(l, probe, candidate, candidate[middle..], probes, first.probes, second);
      BothJustified(l, probe, candidate, probes, first, second);
    }
  }

  /** The given bins are cut from the left into candidates of the largest allowed size; the last may be smaller. */
  predicate IsCandidate(size: nat, bins: seq<Bin>, c: seq<Bin>)
    requires size > 0
  {
    if |bins| <= size then bins != [] && c == bins
    else c == bins[..size] || IsCandidate(size, bins[size..], c)
  }

  /** Main result on whole plans: every batch was probed as it is, with the figures that the batch shows, and is a whole
      candidate unless a probe said that the range of which it is a half was too much. */
  lemma {:induction false} PlanIsJustified(l: Limits, probe: Probe, bins: seq<Bin>, probes: nat)
    requires l.maxCandidateBins >= 1
    ensures var r := PlanFrom(l, probe, bins, probes);
            && probes <= r.probes
            && forall b :: b in r.batches ==>
                 && Backed(probe, probes, r.probes, b)
                 && (IsCandidate(l.maxCandidateBins, bins, b.bins) || Bisected(l, probe, probes, r.probes, b))
    decreases |bins|
  {
    hide PlanRange, Backed, Bisected, IsCandidate;
    if bins != [] {
      var size := l.maxCandidateBins;
      var n := if |bins| < size then |bins| else size;
      var r, first := PlanFrom(l, probe, bins, probes), PlanRange(l, probe, bins[..n], probes);
      RangeIsJustified(l, probe, bins[..n], probes);
      FirstCandidate(size, bins, n);
      if first.error.None? {
        var rest := PlanFrom(l, probe, bins[n..], first.probes);
        PlanIsJustified(l, probe, bins[n..], first.probes);
        forall b | b in first.batches
          ensures Backed(probe, probes, first.probes, b) ==> Backed(probe, probes, r.probes, b)
          ensures Bisected(l, probe, probes, first.probes, b) ==> Bisected(l, probe, probes, r.probes, b)
        {
          WiderBacked(l, probe, probes, probes, first.probes, r.probes, b);
        }
        forall b | b in rest.batches
          ensures Backed(probe, first.probes, r.probes, b) ==> Backed(probe, probes, r.probes, b)
          ensures Bisected(l, probe, first.probes, r.probes, b) ==> Bisected(l, probe, probes, r.probes, b)
          ensures IsCandidate(size, bins[n..], b.bins) ==> IsCandidate(size, bins, b.bins)
        {
          WiderBacked(l, probe, probes, first.probes, r.probes, r.probes, b);
          LaterCandidate(size, bins, b.bins);
        }
      }
    }
  }

  lemma FirstCandidate(size: nat, bins: seq<Bin>, n: nat)
    requires size > 0 && bins != [] && n == if |bins| < size then |bins| else size
    ensures IsCandidate(size, bins, bins[..n])
  {
    if |bins| <= size {
      assert bins[..n] == bins;
    }
  }

  lemma LaterCandidate(size: nat, bins: seq<Bin>, c: seq<Bin>)
    requires size > 0
    ensures IsCandidate(size, bins[if |bins| < size then |bins| else size..], c) ==> IsCandidate(size, bins, c)
  {
    if |bins| <= size {
      assert bins[if |bins| < size then |bins| else size..] == [];
    }
  }

  // Failed plans

  /** The answer to the last probe, of these bins, that stops a plan with this error. */
  ghost predicate Because(l: Limits, c: seq<Bin>, a: ProbeResult, error: PlanError) {
    match error
    case SemanticRefusal => a.SemanticFailure?
    case ProbeFailed => a.ProbeUnavailable? || (a.Success? && !WellFormed(a))
    case SingleBinUnsafe(id) => |c| == 1 && c[0].id == id && TooMuch(l, a)
    case InvalidInput => false
    case ProbeExhausted => false
  }

  predicate Among(c: seq<Bin>, bins: seq<Bin>) {
    forall b :: b in c ==> b in bins
  }

  lemma AmongPart(c: seq<Bin>, bins: seq<Bin>, n: nat)
    requires n <= |bins| && (Among(c, bins[..n]) || Among(c, bins[n..]))
    ensures Among(c, bins)
  {
    assert bins == bins[..n] + bins[n..];
  }

  /** What the result of planning says about its error; `c` are the bins of the last probe. */
  ghost predicate Explained(l: Limits, probe: Probe, bins: seq<Bin>, probes: nat, r: Ranged, c: seq<Bin>) {
    && probes <= r.probes
    && (r.error == Some(ProbeExhausted) ==> r.probes >= l.maxProbes)
    && (r.error.Some? && r.error != Some(ProbeExhausted) ==>
          && probes < r.probes && c != [] && Among(c, bins) && Because(l, c, probe(r.probes, c), r.error.value))
  }

  lemma ExplainedPart(l: Limits, probe: Probe, bins: seq<Bin>, n: nat, low: bool, from: nat, at: nat, r: Ranged,
                      more: seq<Batch>, c: seq<Bin>)
    requires n <= |bins| && from <= at && Explained(l, probe, if low then bins[..n] else bins[n..], at, r, c)
    ensures Explained(l, probe, bins, from, r, c)
    ensures Explained(l, probe, bins, from, r.(batches := more), c)
  {
    hide Because, Among;
    if r.error.Some? && r.error != Some(ProbeExhausted) {
      AmongPart(c, bins, n);
    }
  }

  lemma {:induction false} RangeErrorIs(l: Limits, probe: Probe, candidate: seq<Bin>, probes: nat) returns (c: seq<Bin>)
    ensures Explained(l, probe, candidate, probes, PlanRange(l, probe, candidate, probes), c)
    decreases |candidate|, 1
  {
    c := candidate;
    if candidate != [] && probes < l.maxProbes {
      var gas, middle := CandidateIs(l, probe, candidate, probes);
      if TooMuch(l, probe(probes + 1, candidate)) && |candidate| > 1 {
        hide Explained, PlanRange, TooMuch;
        c := BisectionError(l, probe, candidate, probes, middle);
      } else {
        hide PlanRange, Buffers, WithinBlock, TooMuch;
      }
    }
  }

  lemma {:induction false} BisectionError(l: Limits, probe: Probe, candidate: seq<Bin>, probes: nat, middle: nat)
    returns (c: seq<Bin>)
    requires 0 < middle < |candidate| <= 2 * middle <= |candidate| + 1 && probes < l.maxProbes
    requires TooMuch(l, probe(probes + 1, candidate))
    ensures Explained(l, probe, candidate, probes, Bisection(l, probe, candidate, probes, middle), c)
    decreases |candidate|, 0
  {
    hide PlanRange, TooMuch, Explained;
    var r := Bisection(l, probe, candidate, probes, middle);
    var first := PlanRange(l, probe, candidate[..middle], probes + 1);
    c := RangeErrorIs(l, probe, candidate[..middle], probes + 1);
    ExplainedPart(l, probe, candidate, middle, true, probes, probes + 1, first, r.batches, c);
    if first.error.None? {
      c := RangeErrorIs(l, probe, candidate[middle..], first.probes);
      ProbesGrow(l, probe, candidate[..middle], probes + 1);
      ExplainedPart(l, probe, candidate, middle, false, probes, first.probes,
                    PlanRange(l, probe, candidate[middle..], first.probes), r.batches, c);
    }
  }

  lemma ProbesGrow(l: Limits, probe: Probe, candidate: seq<Bin>, probes: nat)
    ensures PlanRange(l, probe, candidate, probes).probes >= probes
  {
    hide PlanRange;
    RangeIsJustified(l, probe, candidate, probes);
  }

  /** Main result on plans that fail: either the budget of probes is used up, or the last probe, of some of the given
      bins, gave the reason. A bin is reported as unsafe only if it was probed alone and was too much. */
  lemma {:induction false} PlanErrorIs(l: Limits, probe: Probe, bins: seq<Bin>, probes: nat) returns (c: seq<Bin>)
    requires l.maxCandidateBins >= 1
    ensures Explained(l, probe, bins, probes, PlanFrom(l, probe, bins, probes), c)
    decreases |bins|
  {
    c := bins;
    if bins == [] {
      assert PlanFrom(l, probe, bins, probes).error.None?;
    } else {
      var n := if |bins| < l.maxCandidateBins then |bins| else l.maxCandidateBins;
      var r, first := PlanFrom(l, probe, bins, probes), PlanRange(l, probe, bins[..n], probes);
      hide PlanRange, Explained;
      c := RangeErrorIs(l, probe, bins[..n], probes);
      ExplainedPart(l, probe, bins, n, true, probes, probes, first, r.batches, c);
      if first.error.None? {
        c := PlanErrorIs(l, probe, bins[n..], first.probes);
        ProbesGrow(l, probe, bins[..n], probes);
        ExplainedPart(l, probe, bins, n, false, probes, first.probes, PlanFrom(l, probe, bins[n..], first.probes),
                      r.batches, c);
      }
    }
  }
}
