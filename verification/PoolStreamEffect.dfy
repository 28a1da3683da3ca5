/** The stream effect as the code runs it: callbacks that update its variables step by step. */
module PoolStreamEffect {
  import opened Domain
  import opened PoolState
  import opened Replica
  import opened PoolStream

  /** Snapshots that the fold step produces are again in the form the parser establishes. */
  lemma ApplyKeepsOk(live: Live, m: Message)
    requires LiveOk(live) && Parsed(m) && Apply(live, m).Next?
    ensures LiveOk(Apply(live, m).live)
  {
    var start := if m.update.replaceBinWindow then map[] else ById(live.bins);
    ByIdKeys(live.bins);
    PutAllCanonical(start, m.update.binReplacements);
    var put := PutAll(start, m.update.binReplacements).value;
    var active := m.update.state.activeId;
    var low, high := LowEnd(active, live.radius), HighEnd(active, live.radius);
    WindowLists(put, low, high);
  }

  lemma {:induction false} PutAllCanonical(bins: BinMap, replacements: seq<PoolBin>)
    requires CanonicalMap(bins)
    requires forall b :: b in replacements ==> Canonical(b.bin)
    ensures PutAll(bins, replacements).Some? ==> CanonicalMap(PutAll(bins, replacements).value)
  {
    if replacements != [] {
      assert replacements == replacements[..|replacements| - 1] + [replacements[|replacements| - 1]];
      PutAllCanonical(bins, replacements[..|replacements| - 1]);
    }
  }

  ghost predicate AllParsed(ms: seq<Message>) {
    forall i :: 0 <= i < |ms| ==> Parsed(ms[i])
  }

  lemma {:induction false} FoldStuck(live: Live, ms: seq<Message>, i: nat)
    requires i <= |ms| && Fold(live, ms[..i]) == None
    ensures Fold(live, ms) == None
    decreases |ms| - i
  {
    if i < |ms| {
      assert ms[..i + 1][..i] == ms[..i];
      FoldStuck(live, ms, i + 1);
    } else {
      assert ms[..i] == ms;
    }
  }

  /** Folds a batch onto a snapshot; `changed` tells a new snapshot from the one passed in. */
  method FoldBatch(live: Live, ms: seq<Message>) returns (next: Option<Live>, changed: bool)
    requires LiveOk(live) && AllParsed(ms)
    ensures next == Fold(live, ms)
    ensures next.Some? ==> LiveOk(next.value)
    ensures next.Some? ==> (changed <==> !AllKept(live, ms))
  {
    hide LiveOk, Apply;
    var current := live;
    changed := false;
    var i := 0;
    while i < |ms|
      invariant i <= |ms| && LiveOk(current)
      invariant Fold(live, ms[..i]) == Some(current)
      invariant changed <==> !AllKept(live, ms[..i])
      invariant !changed ==> current == live
    {
      assert ms[..i + 1][..i] == ms[..i];
      var r := ApplyPoolStateUpdate(current, ms[i]);
      if r == Refused {
        FoldStuck(live, ms, i + 1);
        return None, changed;
      }
      if r.Next? {
        ApplyKeepsOk(current, ms[i]);
        current := r.live;
        changed := true;
      }
      i := i + 1;
    }
    assert ms[..i] == ms;
    next := Some(current);
  }

  class Effect {
    var cache: Live
    var pendingUpdates: seq<Message>
    var draining: bool
    var drainScheduled: bool
    var resetRequested: bool
    var awaiting: Option<seq<Message>>

    ghost function Abs(): Stream
      reads this
    {
      Stream(cache, pendingUpdates, draining, drainScheduled, resetRequested, awaiting)
    }

    ghost predicate Valid()
      reads this
    {
      LiveOk(cache) && AllParsed(pendingUpdates) && (awaiting.Some? ==> AllParsed(awaiting.value))
    }

    constructor (bootstrap: Live)
      requires LiveOk(bootstrap)
      ensures Valid() && Abs() == Opened(bootstrap)
    {
      cache := bootstrap;
      pendingUpdates := [];
      draining, drainScheduled, resetRequested := false, false, false;
      awaiting := None;
    }

    method RequestReset()
      requires Valid()
      modifies `resetRequested
      ensures Valid() && Abs() == Reset(old(Abs()))
    {
      if resetRequested {
        return;
      }
      resetRequested := true;
    }

    method ScheduleDrain()
      requires Valid()
      modifies `drainScheduled
      ensures Valid() && Abs() == Schedule(old(Abs()))
    {
      if resetRequested || draining || drainScheduled {
        return;
      }
      drainScheduled := true;
    }

    method OnPoolState(m: Message)
      requires Valid() && Parsed(m)
      modifies this
      ensures Valid() && Abs() == Receive(old(Abs()), m)
    {
      var projected, _ := FoldBatch(cache, pendingUpdates);
      if projected.None? {
        RequestReset();
        return;
      }
      var r := ApplyPoolStateUpdate(projected.value, m);
      if r == Refused {
        RequestReset();
        return;
      }
      if r == Kept {
        return;
      }
      if |pendingUpdates| >= MAX_PENDING {
        RequestReset();
        return;
      }
      pendingUpdates := pendingUpdates + [m];
      ScheduleDrain();
    }

    /** The drain loop up to its next await or its end. */
    method DrainUpdates()
      requires Valid() && awaiting.None?
      modifies this
      ensures Valid() && Abs() == Drain(old(Abs()))
    {
      while !resetRequested && pendingUpdates != []
        invariant Valid() && awaiting.None?
        invariant Abs() == old(Abs())
                  || (pendingUpdates == [] && Drain(old(Abs())) == Abs().(draining := false))
        decreases |pendingUpdates|
      {
        var batch := pendingUpdates;
        pendingUpdates := [];
        var next, changed := FoldBatch(cache, batch);
        if next.None? {
          RequestReset();
          break;
        }
        if changed {
          awaiting := Some(batch);
          return;
        }
      }
      draining := false;
    }

    method Microtask()
      requires Valid() && drainScheduled
      requires awaiting.Some? ==> draining || resetRequested
      modifies this
      ensures Valid() && Abs() == RunMicrotask(old(Abs()))
    {
      drainScheduled := false;
      if resetRequested || draining {
        return;
      }
      draining := true;
      DrainUpdates();
    }

    method AttestationResolved()
      requires Valid() && awaiting.Some?
      modifies this
      ensures Valid() && Abs() == Resolve(old(Abs()))
    {
      var batch := awaiting.value;
      awaiting := None;
      if resetRequested {
        draining := false;
        return;
      }
      var latest, _ := FoldBatch(cache, batch);
      if latest.None? {
        RequestReset();
        draining := false;
        return;
      }
      cache := latest.value;
      DrainUpdates();
    }

    method AttestationFailed()
      requires Valid() && awaiting.Some?
      modifies this
      ensures Valid() && Abs() == PoolStream.Fail(old(Abs()))
    {
      awaiting := None;
      RequestReset();
      draining := false;
    }
  }
}
