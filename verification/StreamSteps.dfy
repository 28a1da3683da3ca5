/** What the drain queue does with each message and each attestation, and that it comes to rest. */
module StreamSteps {
  import opened Domain
  import opened PoolState
  import opened Replica
  import opened PoolStream

  /** The snapshot that everything accepted so far makes of the bootstrap, if the browser can fold it. */
  ghost function Whole(r: Run): Option<Live> {
    Fold(r.boot, r.accepted)
  }

  /** Main result on arrivals: a message that the shown snapshot with the waiting messages refuses resets the stream,
      as does the 257th waiting one; a repeat changes nothing; any other message waits, last, for a drain that is
      running or scheduled. Nothing is shown at once. */
  lemma ArrivalIs(r: Run, m: Message)
    requires RunOk(r) && !r.s.reset
    ensures Fold(r.s.cache, r.s.pending).Some?
    ensures var after, answer := Advance(r, Arrives(m)), Apply(Fold(r.s.cache, r.s.pending).value, m);
            && after.s.cache == r.s.cache && after.s.inFlight == r.s.inFlight && after.boot == r.boot
            && (after.s.reset <==> answer.Refused? || (answer.Next? && |r.s.pending| == 256))
            && (after.s.reset ==> after.s.pending == r.s.pending && after.accepted == r.accepted)
            && (answer.Kept? ==> after == r.(ignored := r.ignored + [m]))
            && (answer.Next? && !after.s.reset ==>
                  && after.s.pending == r.s.pending + [m] && after.accepted == r.accepted + [m]
                  && (after.s.draining || after.s.scheduled))
  {
    hide Apply;
  }

  /** Main result on attestations: the batch in flight is shown, and then the stream is reset exactly when the waiting
      messages no longer fold onto it; otherwise they are put in flight, or nothing is left to show. */
  lemma AttestedIs(r: Run)
    requires RunOk(r) && !r.s.reset && r.s.inFlight.Some?
    ensures var after := Advance(r, Attested);
            && after.accepted == r.accepted && after.boot == r.boot && after.s.pending == []
            && |r.s.pending| <= |r.accepted|
            && Fold(r.boot, r.accepted[..|r.accepted| - |r.s.pending|]) == Some(after.s.cache)
            && (after.s.reset <==> Whole(r).None?)
            && (!after.s.reset ==>
                  if after.s.inFlight.Some? then after.s.inFlight == Some(r.s.pending) && r.s.pending != []
                  else Whole(r) == Some(after.s.cache))
            && (r.s.pending == [] ==> after.s.inFlight.None?)
            && after.s.scheduled == r.s.scheduled
  {
    hide Apply;
    PublishBatchOk(r);
    AttestedIsPublishThenDrain(r);
    DrainIs(Published(r));
  }

  lemma DrainIs(r: Run)
    requires PublishedOk(r) && !r.s.reset && r.s.inFlight.None? && r.accepted[r.published..] == r.s.pending
    ensures var after := Drained(r);
            && after.accepted == r.accepted && after.boot == r.boot && after.s.pending == []
            && after.s.cache == r.s.cache
            && |r.s.pending| <= |r.accepted|
            && Fold(r.boot, r.accepted[..|r.accepted| - |r.s.pending|]) == Some(r.s.cache)
            && (after.s.reset <==> Whole(r).None?)
            && (!after.s.reset ==>
                  if after.s.inFlight.Some? then after.s.inFlight == Some(r.s.pending) && r.s.pending != []
                  else Whole(r) == Some(after.s.cache))
            && (r.s.pending == [] ==> after.s.inFlight.None?)
            && after.s.scheduled == r.s.scheduled
  {
    hide Apply;
    assert r.published == |r.accepted| - |r.s.pending|;
    FoldMore(r.boot, r.accepted, r.published, r.s.pending, r.s.cache);
    assert r.accepted[..r.published + |r.s.pending|] == r.accepted;
    AllKeptFold(r.s.cache, r.s.pending);
  }

  /** The microtask takes all waiting messages, unless a drain is already running; it shows nothing and resets
      nothing. */
  lemma MicrotaskIs(r: Run)
    requires RunOk(r) && !r.s.reset && r.s.scheduled
    ensures var after := Advance(r, Microtask);
            && after.accepted == r.accepted && after.boot == r.boot && after.s.cache == r.s.cache
            && !after.s.reset && !after.s.scheduled
            && if r.s.inFlight.Some? then after.s.inFlight == r.s.inFlight && after.s.pending == r.s.pending
               else
                 && after.s.pending == []
                 && if after.s.inFlight.Some? then after.s.inFlight == Some(r.s.pending) && r.s.pending != []
                    else Whole(r) == Some(after.s.cache)
  {
    hide Apply;
    if r.s.inFlight.None? {
      assert Batch(r.s) + r.s.pending == r.s.pending;
      var started := r.(s := r.s.(scheduled := false, draining := true));
      FoldMore(r.boot, r.accepted, r.published, r.s.pending, r.s.cache);
      assert r.accepted[..r.published + |r.s.pending|] == r.accepted;
      DrainIs(started);
    }
  }

  /** A failed attestation and a requested reset leave the screen as it is, and nothing is shown after a reset. */
  lemma ResetIs(r: Run, e: PoolStream.Event)
    requires Possible(r.s, e) && (r.s.reset || e.AttestationFailed? || e.ResetRequested?)
    ensures Advance(r, e).s.reset && Advance(r, e).s.cache == r.s.cache && Advance(r, e).accepted == r.accepted
  {
    hide Apply;
  }

  // Coming to rest

  predicate AtRest(s: Stream) {
    !s.scheduled && s.inFlight.None?
  }

  /** With nothing scheduled and nothing in flight, everything accepted is on the screen. */
  lemma RestShowsAll(r: Run)
    requires RunOk(r) && !r.s.reset && AtRest(r.s)
    ensures r.s.pending == [] && Whole(r) == Some(r.s.cache)
  {
    hide Apply;
    assert r.accepted[r.published..] == [];
    assert r.accepted[..r.published] == r.accepted;
  }

  function Continue(r: Run, events: seq<PoolStream.Event>): Option<Run> {
    if events == [] then Some(r)
    else
      var before := Continue(r, events[..|events| - 1]);
      if before.None? || !Possible(before.value.s, events[|events| - 1]) then None
      else Some(Advance(before.value, events[|events| - 1]))
  }

  lemma ContinueOne(r: Run, events: seq<PoolStream.Event>, now: Run, e: PoolStream.Event)
    requires Continue(r, events) == Some(now) && Possible(now.s, e)
    ensures Continue(r, events + [e]) == Some(Advance(now, e))
  {
    hide Advance;
    assert (events + [e])[..|events|] == events;
  }

  /** A run reached by the given events from `r`, with the same messages accepted. */
  ghost predicate Reached(r: Run, events: seq<PoolStream.Event>, now: Run) {
    && Continue(r, events) == Some(now) && RunOk(now) && !now.s.reset
    && now.accepted == r.accepted && now.boot == r.boot
  }

  lemma MicrotaskRuns(r: Run, events: seq<PoolStream.Event>, now: Run) returns (next: Run)
    requires Reached(r, events, now) && now.s.scheduled
    ensures Reached(r, events + [Microtask], next) && !next.s.scheduled
  {
    MicrotaskIs(now);
    MicrotaskOk(now);
    ContinueOne(r, events, now, Microtask);
    next := Advance(now, Microtask);
    hide Advance, RunOk, Continue;
  }

  lemma BatchAttested(r: Run, events: seq<PoolStream.Event>, now: Run) returns (next: Run)
    requires Reached(r, events, now) && now.s.inFlight.Some? && !now.s.scheduled && Whole(r).Some?
    ensures Reached(r, events + [Attested], next) && !next.s.scheduled && next.s.pending == []
    ensures now.s.pending == [] ==> next.s.inFlight.None?
  {
    AttestedIs(now);
    AttestedOk(now);
    ContinueOne(r, events, now, Attested);
    next := Advance(now, Attested);
    hide Advance, RunOk, Continue, Fold;
  }

  /** Main result on progress: from every state that was not reset, if all that was accepted folds, then the scheduled
      microtask and at most two attestations bring everything accepted to the screen, without a reset. */
  lemma ComesToRest(r: Run) returns (events: seq<PoolStream.Event>, end: Run)
    requires RunOk(r) && !r.s.reset && Whole(r).Some?
    ensures |events| <= 3 && (forall e :: e in events ==> e == Microtask || e == Attested)
    ensures Continue(r, events) == Some(end)
    ensures !end.s.reset && AtRest(end.s) && end.accepted == r.accepted && Whole(r) == Some(end.s.cache)
  {
    hide Advance, RunOk, Fold, Continue, Whole;
    events, end := [], r;
    assert Reached(r, events, end) by {
      ContinueNothing(r);
    }
    if end.s.scheduled {
      end := MicrotaskRuns(r, events, end);
      events := events + [Microtask];
    }
    if end.s.inFlight.Some? {
      end := BatchAttested(r, events, end);
      events := events + [Attested];
      if end.s.inFlight.Some? {
        end := BatchAttested(r, events, end);
        events := events + [Attested];
      }
    }
    RestShowsAll(end);
    SameWhole(r, end);
  }

  lemma ContinueNothing(r: Run)
    ensures Continue(r, []) == Some(r)
  {
  }

  lemma SameWhole(r: Run, end: Run)
    requires r.boot == end.boot && r.accepted == end.accepted
    ensures Whole(r) == Whole(end)
  {
  }

  // A message delivered again while it is in flight

  /** Both messages are in flight and the earlier one waits again. */
  function InFlight(boot: Live, m: Message, n: Message): Run {
    Run(Stream(boot, [m], true, false, false, Some([m, n])), boot, [m, n, m], 0, [])
  }

  lemma ReachesInFlight(boot: Live, m: Message, n: Message)
    requires Apply(boot, m).Next? && Apply(Apply(boot, m).live, n).Next?
    ensures Continue(Start(boot), [Arrives(m), Arrives(n), Microtask, Arrives(m)]) == Some(InFlight(boot, m, n))
  {
    hide Apply;
    FoldOne(boot, m);
    FoldTwo(boot, m, n);
    var s1 := Run(Stream(boot, [m], false, true, false, None), boot, [m], 0, []);
    var s2 := Run(Stream(boot, [m, n], false, true, false, None), boot, [m, n], 0, []);
    var s3 := Run(Stream(boot, [], true, false, false, Some([m, n])), boot, [m, n], 0, []);
    assert Advance(Start(boot), Arrives(m)) == s1;
    assert Advance(s1, Arrives(n)) == s2;
    assert Advance(s2, Microtask) == s3;
    assert Advance(s3, Arrives(m)) == InFlight(boot, m, n);
    hide Advance;
    ContinueOne(Start(boot), [], Start(boot), Arrives(m));
    ContinueOne(Start(boot), [] + [Arrives(m)], s1, Arrives(n));
    ContinueOne(Start(boot), [] + [Arrives(m)] + [Arrives(n)], s2, Microtask);
    ContinueOne(Start(boot), [] + [Arrives(m)] + [Arrives(n)] + [Microtask], s3, Arrives(m));
    assert [] + [Arrives(m)] + [Arrives(n)] + [Microtask] + [Arrives(m)]
        == [Arrives(m), Arrives(n), Microtask, Arrives(m)];
  }

  /** Two messages are in flight and the earlier one arrives again: it is judged without them, accepted, and resets the
      stream once they are shown. */
  lemma RepeatInFlightResets(boot: Live, m: Message, n: Message) returns (end: Run)
    requires Apply(boot, m).Next? && Apply(Apply(boot, m).live, n).Next? && m.cursor < n.cursor
    ensures Continue(Start(boot), [Arrives(m), Arrives(n), Microtask, Arrives(m), Attested]) == Some(end)
    ensures end.accepted == [m, n, m] && end.s.reset
    ensures end.s.cache == Apply(Apply(boot, m).live, n).live
  {
    var shown := Apply(Apply(boot, m).live, n).live;
    ApplyEffect(Apply(boot, m).live, n);
    assert Apply(shown, m) == Refused;
    hide Apply;
    FoldTwo(boot, m, n);
    FoldOne(shown, m);
    ReachesInFlight(boot, m, n);
    end := Advance(InFlight(boot, m, n), Attested);
    ContinueOne(Start(boot), [Arrives(m), Arrives(n), Microtask, Arrives(m)], InFlight(boot, m, n), Attested);
    assert [Arrives(m), Arrives(n), Microtask, Arrives(m)] + [Attested]
        == [Arrives(m), Arrives(n), Microtask, Arrives(m), Attested];
  }

  const IDENT := PairIdentity(1, 2, 3, 18, 6, Provenance(None, None, None, None, None))
  const BOOT_STATE := State(1, IDENT, 0, 0, 100, 10, 1, None, None, {}, 0, 5, 50, 500, 1)

  /** A bootstrap and two updates, each one block and one revision on. */
  const BOOT := Live(BOOT_STATE, [], 0, 1, None)
  const FIRST_STATE := BOOT_STATE.(asOfBlock := 6, asOfHash := 60, revision := 2)
  const SECOND_STATE := BOOT_STATE.(asOfBlock := 7, asOfHash := 70, revision := 3)
  const FIRST := Message(1, Update(EventId(1, 60, 1, [7]), FIRST_STATE, [], false))
  const SECOND := Message(2, Update(EventId(1, 70, 1, [8]), SECOND_STATE, [], false))

  /** Such messages exist: a concrete run in which a repeated message resets the stream. */
  lemma RepeatInFlightExists() returns (end: Run)
    ensures Continue(Start(BOOT), [Arrives(FIRST), Arrives(SECOND), Microtask, Arrives(FIRST), Attested]) == Some(end)
    ensures end.s.reset && end.s.cache.state.revision == 3
  {
    NothingShown();
    end := RepeatInFlightResets(BOOT, FIRST, SECOND);
  }

  lemma NothingShown()
    ensures Apply(BOOT, FIRST) == Next(Live(FIRST_STATE, [], 1, 1, Some(FIRST.update.eventId)))
    ensures Apply(Apply(BOOT, FIRST).live, SECOND) == Next(Live(SECOND_STATE, [], 2, 1, Some(SECOND.update.eventId)))
  {
    EmptyWindow(99, 101);
  }

  lemma {:induction false} EmptyWindow(low: int, high: int)
    requires low >= 0
    ensures Window(map[], low, high) == []
    decreases high - low + 1
  {
    if low <= high {
      EmptyWindow(low, high - 1);
    }
  }

  lemma FoldOne(live: Live, m: Message)
    ensures Fold(live, [m]) == match Apply(live, m)
                               case Refused => None
                               case Kept => Some(live)
                               case Next(l) => Some(l)
  {
    hide Apply;
    assert [m][..0] == [];
  }

  lemma FoldTwo(live: Live, m: Message, n: Message)
    requires Apply(live, m).Next? && Apply(Apply(live, m).live, n).Next?
    ensures Fold(live, [m, n]) == Some(Apply(Apply(live, m).live, n).live) && !AllKept(live, [m, n])
  {
    hide Apply;
    FoldOne(live, m);
    assert [m, n][..1] == [m];
    assert [m][..0] == [];
  }
}
