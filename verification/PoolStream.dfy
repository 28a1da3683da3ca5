/** The browser's drain queue: messages arrive while an earlier batch waits for its attestation. */
module PoolStream {
  import opened Domain
  import opened Replica

  const MAX_PENDING: nat := 256

  /** Everything the effect keeps between callbacks. `inFlight` is the batch whose attestation is awaited. */
  datatype Stream = Stream(cache: Live, pending: seq<Message>, draining: bool, scheduled: bool, reset: bool,
                           inFlight: Option<seq<Message>>)

  function Fold(live: Live, ms: seq<Message>): Option<Live> {
    if ms == [] then Some(live)
    else
      var before := Fold(live, ms[..|ms| - 1]);
      if before.None? then None
      else
        match Apply(before.value, ms[|ms| - 1])
        case Refused => None
        case Kept => before
        case Next(l) => Some(l)
  }

  /** No message of the batch produced a new snapshot. */
  predicate AllKept(live: Live, ms: seq<Message>) {
    ms == [] || (AllKept(live, ms[..|ms| - 1]) && Apply(live, ms[|ms| - 1]) == Kept)
  }

  function Opened(live: Live): Stream {
    Stream(live, [], false, false, false, None)
  }

  function Reset(s: Stream): Stream {
    s.(reset := true)
  }

  function Schedule(s: Stream): Stream {
    if s.reset || s.draining || s.scheduled then s else s.(scheduled := true)
  }

  /** A message arrives: it is checked against the cache with the waiting messages folded in. */
  function Receive(s: Stream, m: Message): Stream {
    var projected := Fold(s.cache, s.pending);
    if projected.None? then Reset(s)
    else
      match Apply(projected.value, m)
      case Refused => Reset(s)
      case Kept => s
      case Next(_) =>
        if |s.pending| >= MAX_PENDING then Reset(s) else Schedule(s.(pending := s.pending + [m]))
  }

  /** The drain loop from its head to the next await or to its end. */
  function Drain(s: Stream): Stream {
    if s.reset || s.pending == [] then s.(draining := false)
    else
      var taken := s.(pending := []);
      if Fold(s.cache, s.pending).None? then Reset(taken).(draining := false)
      else if AllKept(s.cache, s.pending) then taken.(draining := false)
      else taken.(inFlight := Some(s.pending))
  }

  /** The queued microtask runs. */
  function RunMicrotask(s: Stream): Stream {
    var ran := s.(scheduled := false);
    if ran.reset || ran.draining then ran else Drain(ran.(draining := true))
  }

  /** The awaited attestation succeeds: publish the batch and go on draining. */
  function Resolve(s: Stream): Stream
    requires s.inFlight.Some?
  {
    var back := s.(inFlight := None);
    if s.reset then back.(draining := false)
    else
      var latest := Fold(s.cache, s.inFlight.value);
      if latest.None? then Reset(back).(draining := false) else Drain(back.(cache := latest.value))
  }

  /** The awaited attestation fails. */
  function Fail(s: Stream): Stream
    requires s.inFlight.Some?
  {
    Reset(s.(inFlight := None)).(draining := false)
  }

  // Folding

  lemma {:induction false} FoldConcat(live: Live, a: seq<Message>, b: seq<Message>)
    ensures Fold(live, a + b) == if Fold(live, a).None? then None else Fold(Fold(live, a).value, b)
  {
    hide Apply;
    if b == [] {
      assert a + b == a;
    } else {
      var init := b[..|b| - 1];
      FoldConcat(live, a, init);
      assert (a + b)[..|a + b| - 1] == a + init;
    }
  }

  lemma {:induction false} AllKeptFold(live: Live, ms: seq<Message>)
    ensures AllKept(live, ms) ==> Fold(live, ms) == Some(live)
  {
    hide Apply;
    if ms != [] {
      AllKeptFold(live, ms[..|ms| - 1]);
    }
  }

  /** What folding relies on: a kept message repeats the snapshot's event, any other moves the cursor on. */
  lemma ApplyEffect(live: Live, m: Message)
    ensures Apply(live, m) == Kept ==> SameEvent(live, m)
    ensures Apply(live, m).Next? ==>
              SameEvent(Apply(live, m).live, m) && Apply(live, m).live.cursor >= live.cursor
  {
  }

  /** Folding never moves the cursor back. */
  lemma {:induction false} FoldCursor(live: Live, ms: seq<Message>)
    ensures Fold(live, ms).Some? ==> Fold(live, ms).value.cursor >= live.cursor
  {
    hide Apply;
    if ms != [] {
      FoldCursor(live, ms[..|ms| - 1]);
      if Fold(live, ms).Some? {
        ApplyEffect(Fold(live, ms[..|ms| - 1]).value, ms[|ms| - 1]);
      }
    }
  }

  /** The message's cursor and event identity. */
  predicate SameEvent(live: Live, m: Message) {
    live.cursor == m.cursor && live.lastEvent == Some(m.update.eventId)
  }

  ghost predicate RepeatOf(boot: Live, log: seq<Message>, m: Message) {
    || SameEvent(boot, m)
    || exists a :: a in log && a.cursor == m.cursor && a.update.eventId == m.update.eventId
  }

  /** A folded snapshot carries the event of the start or of one of the messages. */
  lemma {:induction false} FoldEvent(boot: Live, live: Live, ms: seq<Message>, log: seq<Message>, m: Message)
    requires Fold(live, ms).Some? && SameEvent(Fold(live, ms).value, m)
    requires forall x :: x in ms ==> x in log
    requires SameEvent(live, m) ==> RepeatOf(boot, log, m)
    ensures RepeatOf(boot, log, m)
  {
    hide Apply;
    if ms != [] {
      var init, last := ms[..|ms| - 1], ms[|ms| - 1];
      assert ms == init + [last];
      var before := Fold(live, init).value;
      ApplyEffect(before, last);
      match Apply(before, last)
      case Kept => FoldEvent(boot, live, init, log, m);
      case Next(l) => assert last in log;
    }
  }

  // Runs

  datatype Event = Arrives(m: Message) | Microtask | Attested | AttestationFailed | ResetRequested

  /** A run: the stream, the messages it accepted, how many of them are published, and those it ignored. */
  datatype Run = Run(s: Stream, boot: Live, accepted: seq<Message>, published: nat, ignored: seq<Message>)

  function Start(boot: Live): Run {
    Run(Opened(boot), boot, [], 0, [])
  }

  /** Events that can happen in a state. A closed transport delivers nothing after a reset. */
  predicate Possible(s: Stream, e: Event) {
    match e
    case Arrives(_) => !s.reset
    case Microtask => s.scheduled
    case Attested => s.inFlight.Some?
    case AttestationFailed => s.inFlight.Some?
    case ResetRequested => true
  }

  function Happen(s: Stream, e: Event): Stream
    requires Possible(s, e)
  {
    match e
    case Arrives(m) => Receive(s, m)
    case Microtask => RunMicrotask(s)
    case Attested => Resolve(s)
    case AttestationFailed => Fail(s)
    case ResetRequested => Reset(s)
  }

  function Batch(s: Stream): seq<Message> {
    if s.inFlight.Some? then s.inFlight.value else []
  }

  function Advance(r: Run, e: Event): Run
    requires Possible(r.s, e)
  {
    var after := Happen(r.s, e);
    match e
    case Arrives(m) =>
      if after.reset then r.(s := after)
      else if after == r.s then r.(s := after, ignored := r.ignored + [m])
      else r.(s := after, accepted := r.accepted + [m])
    case Microtask =>
      // A batch in which every message was kept is consumed without publishing anything new.
      r.(s := after, published := if after.reset || r.s.draining || after.inFlight.Some? then r.published
                                  else r.published + |r.s.pending|)
    case Attested =>
      var shown := r.published + |Batch(r.s)|;
      r.(s := after, published := if r.s.reset || Fold(r.s.cache, Batch(r.s)).None? then r.published
                                  else if after.reset || after.inFlight.Some? then shown
                                  else shown + |r.s.pending|)
    case _ => r.(s := after)
  }

  function AdvanceAll(boot: Live, events: seq<Event>): Option<Run> {
    if events == [] then Some(Start(boot))
    else
      var before := AdvanceAll(boot, events[..|events| - 1]);
      if before.None? || !Possible(before.value.s, events[|events| - 1]) then None
      else Some(Advance(before.value, events[|events| - 1]))
  }

  /** What is published is the bootstrap folded over a prefix of the accepted messages. */
  ghost predicate PublishedOk(r: Run) {
    && r.published <= |r.accepted|
    && Fold(r.boot, r.accepted[..r.published]) == Some(r.s.cache)
    && r.s.cache.cursor >= r.boot.cursor
    && |r.s.pending| <= MAX_PENDING
    && (forall m :: m in r.ignored ==> RepeatOf(r.boot, r.accepted, m))
  }

  /** What every reachable run keeps. */
  ghost predicate RunOk(r: Run) {
    && PublishedOk(r)
    && (!r.s.reset ==>
          && r.accepted[r.published..] == Batch(r.s) + r.s.pending
          && (r.s.draining <==> r.s.inFlight.Some?)
          && (r.s.inFlight.Some? ==> Fold(r.s.cache, Batch(r.s)).Some?)
          && Fold(r.s.cache, r.s.pending).Some?
          && (r.s.pending != [] ==> r.s.draining || r.s.scheduled))
  }

  lemma FoldMore(boot: Live, accepted: seq<Message>, n: nat, batch: seq<Message>, cache: Live)
    requires n + |batch| <= |accepted| && accepted[n..n + |batch|] == batch
    requires Fold(boot, accepted[..n]) == Some(cache)
    ensures Fold(boot, accepted[..n + |batch|]) == Fold(cache, batch)
  {
    hide Apply;
    PrefixGrows(accepted, n, batch);
    FoldThen(boot, accepted[..n], batch, cache, accepted[..n + |batch|]);
  }

  lemma FoldThen(boot: Live, front: seq<Message>, batch: seq<Message>, cache: Live, all: seq<Message>)
    requires Fold(boot, front) == Some(cache) && all == front + batch
    ensures Fold(boot, all) == Fold(cache, batch)
  {
    hide Apply;
    FoldConcat(boot, front, batch);
  }

  lemma PrefixGrows(accepted: seq<Message>, n: nat, batch: seq<Message>)
    requires n + |batch| <= |accepted| && accepted[n..n + |batch|] == batch
    ensures accepted[..n + |batch|] == accepted[..n] + batch
  {
  }

  lemma ReceiveOk(r: Run, m: Message)
    requires RunOk(r) && !r.s.reset
    ensures RunOk(Advance(r, Arrives(m)))
  {
    hide Apply;
    var after := Receive(r.s, m);
    var r' := Advance(r, Arrives(m));
    var projected := Fold(r.s.cache, r.s.pending).value;
    match Apply(projected, m)
    case Refused =>
    case Kept =>
      assert after == r.s;
      IgnoredRepeats(r, m);
    case Next(l) =>
      if |r.s.pending| < MAX_PENDING {
        assert r'.accepted == r.accepted + [m];
        assert r'.accepted[..r.published] == r.accepted[..r.published];
        assert r'.accepted[r.published..] == r.accepted[r.published..] + [m];
        assert Batch(r.s) + (r.s.pending + [m]) == (Batch(r.s) + r.s.pending) + [m];
        assert (r.s.pending + [m])[..|r.s.pending|] == r.s.pending;
        RepeatsStay(r, m);
      }
  }

  lemma IgnoredRepeats(r: Run, m: Message)
    requires RunOk(r) && !r.s.reset
    requires Apply(Fold(r.s.cache, r.s.pending).value, m) == Kept
    ensures forall x :: x in r.ignored + [m] ==> RepeatOf(r.boot, r.accepted, x)
  {
    hide Apply;
    ApplyEffect(Fold(r.s.cache, r.s.pending).value, m);
    forall x | x in r.accepted[..r.published]
      ensures x in r.accepted
    {
    }
    if SameEvent(r.s.cache, m) {
      FoldEvent(r.boot, r.boot, r.accepted[..r.published], r.accepted, m);
    }
    forall x | x in r.s.pending
      ensures x in r.accepted
    {
      assert x in Batch(r.s) + r.s.pending;
      assert x in r.accepted[r.published..];
    }
    FoldEvent(r.boot, r.s.cache, r.s.pending, r.accepted, m);
  }

  lemma RepeatsStay(r: Run, m: Message)
    requires forall x :: x in r.ignored ==> RepeatOf(r.boot, r.accepted, x)
    ensures forall x :: x in r.ignored ==> RepeatOf(r.boot, r.accepted + [m], x)
  {
    hide Apply;
    forall x | x in r.ignored
      ensures RepeatOf(r.boot, r.accepted + [m], x)
    {
      if !SameEvent(r.boot, x) {
        var a :| a in r.accepted && a.cursor == x.cursor && a.update.eventId == x.update.eventId;
        assert a in r.accepted + [m];
      }
    }
  }

  /** A drain publishes nothing itself; it consumes a batch that was kept, or puts it in flight. */
  function Drained(r: Run): Run {
    var after := Drain(r.s);
    r.(s := after, published := if after.reset || after.inFlight.Some? then r.published
                                else r.published + |r.s.pending|)
  }

  lemma DrainOk(r: Run)
    requires PublishedOk(r) && !r.s.reset && r.s.inFlight.None? && r.s.draining
    requires r.accepted[r.published..] == r.s.pending
    ensures RunOk(Drained(r))
  {
    hide Apply;
    var s := r.s;
    if s.pending == [] {
      assert r.accepted[r.published..] == [];
    } else if Fold(s.cache, s.pending).Some? {
      if AllKept(s.cache, s.pending) {
        KeptBatchOk(r);
      } else {
        assert s.pending + [] == s.pending;
      }
    }
  }

  lemma KeptBatchOk(r: Run)
    requires PublishedOk(r) && AllKept(r.s.cache, r.s.pending)
    requires r.accepted[r.published..] == r.s.pending
    ensures var n := r.published + |r.s.pending|;
            && n == |r.accepted| && r.accepted[n..] == []
            && Fold(r.boot, r.accepted[..n]) == Some(r.s.cache)
  {
    hide Apply;
    AllKeptFold(r.s.cache, r.s.pending);
    FoldMore(r.boot, r.accepted, r.published, r.s.pending, r.s.cache);
  }

  lemma MicrotaskOk(r: Run)
    requires RunOk(r) && r.s.scheduled
    ensures RunOk(Advance(r, Microtask))
  {
    hide Apply;
    if !r.s.reset && !r.s.draining {
      assert Batch(r.s) + r.s.pending == r.s.pending;
      DrainOk(r.(s := r.s.(scheduled := false, draining := true)));
    }
  }

  lemma AttestedOk(r: Run)
    requires RunOk(r) && r.s.inFlight.Some?
    ensures RunOk(Advance(r, Attested))
  {
    hide Apply;
    if !r.s.reset {
      PublishBatchOk(r);
      DrainOk(Published(r));
      AttestedIsPublishThenDrain(r);
    }
  }

  lemma AttestedIsPublishThenDrain(r: Run)
    requires r.s.inFlight.Some? && !r.s.reset && Fold(r.s.cache, Batch(r.s)).Some?
    ensures Advance(r, Attested) == Drained(Published(r))
  {
    hide Apply;
  }

  /** The run after the in-flight batch is written to the cache, before the drain goes on. */
  function Published(r: Run): Run
    requires r.s.inFlight.Some? && Fold(r.s.cache, Batch(r.s)).Some?
  {
    r.(s := r.s.(inFlight := None, cache := Fold(r.s.cache, Batch(r.s)).value),
       published := r.published + |Batch(r.s)|)
  }

  lemma PublishBatchOk(r: Run)
    requires RunOk(r) && r.s.inFlight.Some? && !r.s.reset
    ensures PublishedOk(Published(r))
    ensures Published(r).accepted[Published(r).published..] == r.s.pending
  {
    hide Apply;
    BatchSplits(r.accepted, r.published, Batch(r.s), r.s.pending);
    FoldMore(r.boot, r.accepted, r.published, Batch(r.s), r.s.cache);
    FoldCursor(r.s.cache, Batch(r.s));
  }

  lemma BatchSplits(accepted: seq<Message>, n: nat, batch: seq<Message>, pending: seq<Message>)
    requires n <= |accepted| && accepted[n..] == batch + pending
    ensures n + |batch| <= |accepted|
    ensures accepted[n..n + |batch|] == batch && accepted[n + |batch|..] == pending
  {
    assert accepted[n..n + |batch|] == accepted[n..][..|batch|];
    assert accepted[n + |batch|..] == accepted[n..][|batch|..];
  }

  /** Main result: under any interleaving of arrivals, microtasks, attestations and resets, what is published
      is the bootstrap folded over a prefix of the accepted messages in order of arrival, every ignored message
      repeats an accepted one or the bootstrap's event, the queue never exceeds its bound, and waiting messages
      always have a drain running or scheduled. */
  lemma {:induction false} EveryRunOk(boot: Live, events: seq<Event>)
    requires AdvanceAll(boot, events).Some?
    ensures RunOk(AdvanceAll(boot, events).value)
    ensures AdvanceAll(boot, events).value.boot == boot
  {
    hide Apply;
    if events != [] {
      var init, e := events[..|events| - 1], events[|events| - 1];
      EveryRunOk(boot, init);
      var r := AdvanceAll(boot, init).value;
      match e
      case Arrives(m) => ReceiveOk(r, m);
      case Microtask => MicrotaskOk(r);
      case Attested => AttestedOk(r);
      case AttestationFailed =>
      case ResetRequested =>
    }
  }

  /** A step publishes at most once, publishes only later cursors, and never takes back a published message. */
  lemma PublishesForward(r: Run, e: Event)
    requires RunOk(r) && Possible(r.s, e)
    ensures Advance(r, e).s.cache.cursor >= r.s.cache.cursor
    ensures Advance(r, e).published >= r.published
    ensures r.s.reset ==> Advance(r, e).s.cache == r.s.cache
  {
    if e.Attested? {
      FoldCursor(r.s.cache, Batch(r.s));
    }
  }
}
