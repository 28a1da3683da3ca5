/** From the engine to the screen: what is shown is what the server served. */
module StreamMirrors {
  // While blocks are appended and the emitted updates arrive in order, some of them twice, every snapshot that the
  // drain queue publishes is the server's own window at one of the retained blocks.

  import opened Domain
  import opened PoolState
  import opened Replica
  import opened ReplicaTheorems
  import PoolStream
  import opened Chain
  import opened Projection
  import opened EngineReplica

  // Delivery in order, with repeats

  /** How many of the messages the given ones deliver: each is the next one, or repeats the one before. */
  function Delivered(messages: seq<Message>, ms: seq<Message>): Option<nat> {
    if ms == [] then Some(0)
    else
      var before, m := Delivered(messages, ms[..|ms| - 1]), ms[|ms| - 1];
      if before.None? then None
      else if before.value < |messages| && m == messages[before.value] then Some(before.value + 1)
      else if 0 < before.value <= |messages| && m == messages[before.value - 1] then before
      else None
  }

  /** The messages that arrive in a run. */
  function Arrivals(events: seq<PoolStream.Event>): seq<Message> {
    if events == [] then []
    else
      var rest, last := Arrivals(events[..|events| - 1]), events[|events| - 1];
      if last.Arrives? then rest + [last.m] else rest
  }

  lemma DeliveredMore(messages: seq<Message>, ms: seq<Message>, m: Message)
    ensures Delivered(messages, ms + [m])
            == var before := Delivered(messages, ms);
               if before.None? then None
               else if before.value < |messages| && m == messages[before.value] then Some(before.value + 1)
               else if 0 < before.value <= |messages| && m == messages[before.value - 1] then before
               else None
  {
    assert (ms + [m])[..|ms|] == ms;
  }

  lemma {:induction false} DeliveredWithin(messages: seq<Message>, ms: seq<Message>)
    ensures Delivered(messages, ms).Some? ==> Delivered(messages, ms).value <= |messages|
  {
    if ms != [] {
      DeliveredWithin(messages, ms[..|ms| - 1]);
    }
  }

  lemma {:induction false} DeliveredPrefix(messages: seq<Message>, ms: seq<Message>, n: nat)
    requires Delivered(messages, ms).Some? && n <= |ms|
    ensures Delivered(messages, ms[..n]).Some?
    decreases |ms|
  {
    if n < |ms| {
      DeliveredPrefix(messages, ms[..|ms| - 1], n);
      assert ms[..|ms| - 1][..n] == ms[..n];
    } else {
      assert ms[..n] == ms;
    }
  }

  /** Cursors grow along the messages, from a start. */
  ghost predicate Grow(from: nat, messages: seq<Message>) {
    && (messages != [] ==> messages[0].cursor > from)
    && (forall i, j :: 0 <= i < j < |messages| ==> messages[i].cursor < messages[j].cursor)
  }

  function LastCursor(from: nat, messages: seq<Message>, n: nat): nat
    requires n <= |messages|
  {
    if n == 0 then from else messages[n - 1].cursor
  }

  lemma LastGrows(from: nat, messages: seq<Message>, a: nat, b: nat)
    requires Grow(from, messages) && a <= b <= |messages|
    ensures LastCursor(from, messages, a) <= LastCursor(from, messages, b)
    ensures a < b ==> LastCursor(from, messages, a) < messages[b - 1].cursor
  {
  }

  lemma {:induction false} DeliveredCursors(from: nat, messages: seq<Message>, ms: seq<Message>)
    requires Grow(from, messages) && Delivered(messages, ms).Some?
    ensures Delivered(messages, ms).value <= |messages|
    ensures forall m :: m in ms ==> m.cursor <= LastCursor(from, messages, Delivered(messages, ms).value)
  {
    DeliveredWithin(messages, ms);
    if ms != [] {
      var init, m := ms[..|ms| - 1], ms[|ms| - 1];
      assert ms == init + [m];
      DeliveredCursors(from, messages, init);
      LastGrows(from, messages, Delivered(messages, init).value, Delivered(messages, ms).value);
    }
  }

  lemma {:induction false} FoldCursorBound(live: Live, ms: seq<Message>, bound: nat)
    requires PoolStream.Fold(live, ms).Some? && live.cursor <= bound && forall m :: m in ms ==> m.cursor <= bound
    ensures PoolStream.Fold(live, ms).value.cursor <= bound
  {
    hide Apply;
    if ms != [] {
      var init, last := ms[..|ms| - 1], ms[|ms| - 1];
      assert ms == init + [last];
      FoldCursorBound(live, init, bound);
      PoolStream.ApplyEffect(PoolStream.Fold(live, init).value, last);
    }
  }

  /** Whatever a run has accepted is a delivery in order, and of everything that arrived unless it was reset. */
  ghost predicate InOrder(r: PoolStream.Run, messages: seq<Message>, n: nat) {
    var k := Delivered(messages, r.accepted);
    && k.Some? && k.value <= n
    && (!r.s.reset ==> k.value == n)
  }

  lemma Projected(r: PoolStream.Run, messages: seq<Message>, n: nat)
    requires PoolStream.RunOk(r) && !r.s.reset && InOrder(r, messages, n) && Grow(r.boot.cursor, messages)
    ensures n <= |messages|
    ensures var p := PoolStream.Fold(r.s.cache, r.s.pending);
            p.Some? && p.value.cursor <= LastCursor(r.boot.cursor, messages, n)
  {
    hide Apply, PoolStream.Fold, Delivered;
    DeliveredCursors(r.boot.cursor, messages, r.accepted);
    var bound := LastCursor(r.boot.cursor, messages, n);
    LastGrows(r.boot.cursor, messages, 0, n);
    assert forall m :: m in r.accepted[..r.published] ==> m in r.accepted;
    FoldCursorBound(r.boot, r.accepted[..r.published], bound);
    forall m | m in r.s.pending
      ensures m.cursor <= bound
    {
      assert m in PoolStream.Batch(r.s) + r.s.pending;
      assert m in r.accepted[r.published..];
      assert m in r.accepted;
    }
    FoldCursorBound(r.s.cache, r.s.pending, bound);
  }

  lemma ReceivedInOrder(r: PoolStream.Run, messages: seq<Message>, n: nat, m: Message)
    requires PoolStream.RunOk(r) && !r.s.reset && InOrder(r, messages, n) && Grow(r.boot.cursor, messages)
    requires (n < |messages| && m == messages[n]) || (0 < n <= |messages| && m == messages[n - 1])
    ensures InOrder(PoolStream.Advance(r, PoolStream.Arrives(m)), messages,
                    if n < |messages| && m == messages[n] then n + 1 else n)
  {
    hide Apply, PoolStream.RunOk;
    Projected(r, messages, n);
    var projected := PoolStream.Fold(r.s.cache, r.s.pending).value;
    PoolStream.ApplyEffect(projected, m);
    DeliveredMore(messages, r.accepted, m);
    if n < |messages| && m == messages[n] {
      LastGrows(r.boot.cursor, messages, n, n + 1);
      assert Apply(projected, m) != Kept;
    }
  }

  lemma {:induction false} RunInOrder(boot: Live, events: seq<PoolStream.Event>, messages: seq<Message>)
    requires PoolStream.AdvanceAll(boot, events).Some? && Grow(boot.cursor, messages)
    requires Delivered(messages, Arrivals(events)).Some?
    ensures InOrder(PoolStream.AdvanceAll(boot, events).value, messages, Delivered(messages, Arrivals(events)).value)
  {
    hide Apply, PoolStream.RunOk, PoolStream.Receive, PoolStream.RunMicrotask, PoolStream.Resolve, PoolStream.Fail;
    if events != [] {
      var init, e := events[..|events| - 1], events[|events| - 1];
      if e.Arrives? {
        DeliveredMore(messages, Arrivals(init), e.m);
      }
      RunInOrder(boot, init, messages);
      PoolStream.EveryRunOk(boot, init);
      var r := PoolStream.AdvanceAll(boot, init).value;
      var n := Delivered(messages, Arrivals(init)).value;
      DeliveredWithin(messages, Arrivals(init));
      if e.Arrives? {
        ReceivedInOrder(r, messages, n, e.m);
      } else {
        StaysReset(r, e);
      }
    }
  }

  /** Events other than arrivals accept nothing and never take back a reset. */
  lemma StaysReset(r: PoolStream.Run, e: PoolStream.Event)
    requires PoolStream.Possible(r.s, e) && !e.Arrives?
    ensures PoolStream.Advance(r, e).accepted == r.accepted
    ensures r.s.reset ==> PoolStream.Advance(r, e).s.reset
  {
    hide Apply, PoolStream.Fold, PoolStream.AllKept;
  }

  // Folding a delivery

  /** Folding the first messages ends in the state that the last of them carries. */
  ghost predicate Follows(boot: Live, messages: seq<Message>, n: nat) {
    n <= |messages| ==>
      var r := PoolStream.Fold(boot, messages[..n]);
      r.Some? && (n > 0 ==> r.value.state == messages[n - 1].update.state)
  }

  /** A message that arrives once more changes nothing. */
  lemma RepeatKept(boot: Live, messages: seq<Message>, n: nat)
    requires 0 < n <= |messages| && Follows(boot, messages, n) && Follows(boot, messages, n - 1)
    ensures Apply(PoolStream.Fold(boot, messages[..n]).value, messages[n - 1]) == Kept
  {
    hide Stale, PutAll, Window;
    var m := messages[n - 1];
    assert messages[..n][..n - 1] == messages[..n - 1];
    var before, live := PoolStream.Fold(boot, messages[..n - 1]).value, PoolStream.Fold(boot, messages[..n]).value;
    PoolStream.ApplyEffect(before, m);
    assert PoolStream.SameEvent(live, m);
    assert !Refuses(live, m);
  }

  /** A delivery in order folds like the messages it delivers. */
  lemma {:induction false} FoldDelivered(boot: Live, messages: seq<Message>, ms: seq<Message>)
    requires Delivered(messages, ms).Some? && forall n: nat :: n <= |messages| ==> Follows(boot, messages, n)
    ensures Delivered(messages, ms).value <= |messages|
    ensures PoolStream.Fold(boot, ms) == PoolStream.Fold(boot, messages[..Delivered(messages, ms).value])
  {
    hide Apply, Follows;
    DeliveredWithin(messages, ms);
    if ms == [] {
      assert messages[..0] == [];
    } else {
      var init, m := ms[..|ms| - 1], ms[|ms| - 1];
      FoldDelivered(boot, messages, init);
      var n := Delivered(messages, init).value;
      FoldsOn(boot, messages, n);
      if n < |messages| && m == messages[n] {
        assert messages[..n + 1][..n] == messages[..n];
      } else {
        RepeatKept(boot, messages, n);
      }
    }
  }

  lemma FoldsOn(boot: Live, messages: seq<Message>, n: nat)
    requires Follows(boot, messages, n) && n <= |messages|
    ensures PoolStream.Fold(boot, messages[..n]).Some?
  {
  }

  // Blocks behind the messages

  lemma AtMostOne(policies: Policies, chain: seq<Block>, b: Block, pair: Id)
    requires chain != [] && CanonicalChain(chain) && Extends(chain, b)
    requires Replay(policies, chain).ok && AfterBlock(policies, Replay(policies, chain).view, b).ok
    ensures |UpdatesFor(AfterBlock(policies, Replay(policies, chain).view, b).updates, pair)| <= 1
  {
    hide CanonicalChain, Replay, AfterBlock, Moves, PoolKnown, ValidBlock, Canonicalize, ContextOf, ObservationsLast;
    var v := Replay(policies, chain).view;
    var after := AfterBlock(policies, v, b);
    ReplayPoolsKnown(policies, chain);
    PoolsKnownLater(v, chain[|chain| - 1].number, b.number);
    LastIsObservable(chain, b);
    var step := BlockMoves(policies, v, b, pair);
    if step.None? {
      NothingMoved(v.pools, after.view.pools, after.updates, pair);
    } else {
      OneMove(v.pools, after.view.pools, after.updates, pair, step.value);
    }
  }

  /** The first updates are those that some first blocks emit. */
  lemma {:induction false} BlocksBehind(policies: Policies, base: seq<Block>, appended: seq<Block>, pair: Id, n: nat)
    returns (m: nat)
    requires base != [] && CanonicalChain(base + appended) && Replay(policies, base + appended).ok
    requires n <= |Emitted(policies, base, appended, pair)|
    ensures m <= |appended|
    ensures Emitted(policies, base, appended[..m], pair) == Emitted(policies, base, appended, pair)[..n]
    decreases |appended|
  {
    hide CanonicalChain, Replay, Extends, AfterBlock;
    var ups := Emitted(policies, base, appended, pair);
    if n == |ups| {
      m := |appended|;
      assert appended[..m] == appended && ups[..n] == ups;
    } else {
      var init, b := appended[..|appended| - 1], appended[|appended| - 1];
      StretchPrefix(policies, base, appended);
      AtMostOne(policies, base + init, b, pair);
      m := BlocksBehind(policies, base, init, pair, n);
      assert init[..m] == appended[..m];
    }
  }

  /** The chain up to a block of the stretch. */
  lemma StretchStops(policies: Policies, base: seq<Block>, appended: seq<Block>, m: nat)
    requires m <= |appended| && CanonicalChain(base + appended) && Replay(policies, base + appended).ok
    requires AllCanonical(appended)
    ensures CanonicalChain(base + appended[..m]) && Replay(policies, base + appended[..m]).ok
    ensures AllCanonical(appended[..m])
  {
    hide CanonicalChain, Replay, Extends, CanonicalTexts;
    assert (base + appended)[..|base| + m] == base + appended[..m];
    PrefixCanonical(base + appended, |base| + m);
    ReplayPrefixOk(policies, base + appended, |base| + m);
    assert forall b :: b in appended[..m] ==> b in appended;
  }

  /** What the stretch promises: the browser mirrors the server at its start, and the emitted updates meet the
      conditions under which folding them keeps it so. */
  ghost predicate Stretch(policies: Policies, base: seq<Block>, appended: seq<Block>, pair: Id, boot: Live,
                          cursors: seq<nat>) {
    && base != [] && CanonicalChain(base + appended) && Replay(policies, base + appended).ok
    && Mirrors(boot, PoolOr(Replay(policies, base).view.pools, pair))
    && AllCanonical(appended)
    && |cursors| == |Emitted(policies, base, appended, pair)| && Increasing(boot.cursor, cursors)
    && AllContinue(boot.state, Emitted(policies, base, appended, pair))
  }

  lemma MirrorsAfter(policies: Policies, base: seq<Block>, appended: seq<Block>, pair: Id, boot: Live,
                     cursors: seq<nat>, n: nat) returns (m: nat)
    requires Stretch(policies, base, appended, pair, boot, cursors) && n <= |cursors|
    ensures m <= |appended|
    ensures var messages := Messages(Emitted(policies, base, appended, pair), cursors);
            var r := PoolStream.Fold(boot, messages[..n]);
            && Follows(boot, messages, n)
            && r.Some? && Mirrors(r.value, PoolOr(Replay(policies, base + appended[..m]).view.pools, pair))
  {
    hide CanonicalChain, Replay, Mirrors, Continues, CanonicalTexts, Apply, Emitted;
    var ups := Emitted(policies, base, appended, pair);
    m := BlocksBehind(policies, base, appended, pair, n);
    StretchStops(policies, base, appended, m);
    assert ups[..n] + ups[n..] == ups;
    ContinuesSplit(boot.state, ups[..n], ups[n..]);
    CursorsSplit(boot.cursor, cursors, n);
    EngineMirrors(policies, base, appended[..m], pair, boot, cursors[..n]);
    assert Messages(ups[..n], cursors[..n]) == Messages(ups, cursors)[..n];
  }

  lemma MessagesGrow(from: nat, ups: seq<Update>, cursors: seq<nat>)
    requires |cursors| == |ups| && Increasing(from, cursors)
    ensures Grow(from, Messages(ups, cursors))
  {
  }

  /** Main result, end to end: while blocks are appended and the updates emitted for a pool arrive in order, each
      perhaps several times before the next, and whatever the interleaving of arrivals, microtasks, attestations and
      resets, the snapshot that the browser shows is the server's own state and window at one of the retained blocks. */
  lemma EveryPublishedIsServed(policies: Policies, base: seq<Block>, appended: seq<Block>, pair: Id, boot: Live,
                               cursors: seq<nat>, events: seq<PoolStream.Event>)
    requires Stretch(policies, base, appended, pair, boot, cursors)
    requires PoolStream.AdvanceAll(boot, events).Some?
    requires Delivered(Messages(Emitted(policies, base, appended, pair), cursors), Arrivals(events)).Some?
    ensures ServedAt(policies, base, appended, pair, PoolStream.AdvanceAll(boot, events).value.s.cache)
  {
    hide Stretch, Apply, Mirrors, Emitted, Delivered, PoolStream.AdvanceAll, PoolStream.Fold, Follows;
    StretchMessages(policies, base, appended, pair, boot, cursors);
    var messages := Messages(Emitted(policies, base, appended, pair), cursors);
    var r := PoolStream.AdvanceAll(boot, events).value;
    PoolStream.EveryRunOk(boot, events);
    RunInOrder(boot, events, messages);
    DeliveredPrefix(messages, r.accepted, r.published);
    forall n: nat | n <= |messages|
      ensures Follows(boot, messages, n)
    {
      var _ := MirrorsAfter(policies, base, appended, pair, boot, cursors, n);
    }
    var published := r.accepted[..r.published];
    FoldDelivered(boot, messages, published);
    var m := MirrorsAfter(policies, base, appended, pair, boot, cursors, Delivered(messages, published).value);
    ServedHere(policies, base, appended, pair, r.s.cache, m);
  }

  lemma StretchMessages(policies: Policies, base: seq<Block>, appended: seq<Block>, pair: Id, boot: Live,
                        cursors: seq<nat>)
    requires Stretch(policies, base, appended, pair, boot, cursors)
    ensures var ups := Emitted(policies, base, appended, pair);
            |cursors| == |ups| && Grow(boot.cursor, Messages(ups, cursors))
  {
    hide CanonicalChain, Replay, Mirrors, AllContinue, AllCanonical, Emitted;
    MessagesGrow(boot.cursor, Emitted(policies, base, appended, pair), cursors);
  }

  /** The snapshot is the server's state and window after some of the appended blocks. */
  ghost predicate ServedAt(policies: Policies, base: seq<Block>, appended: seq<Block>, pair: Id, shown: Live) {
    exists m: nat :: m <= |appended| && ServedAfter(policies, base, appended, pair, shown, m)
  }

  ghost predicate ServedAfter(policies: Policies, base: seq<Block>, appended: seq<Block>, pair: Id, shown: Live,
                              m: nat)
    requires m <= |appended|
  {
    Mirrors(shown, PoolOr(Replay(policies, base + appended[..m]).view.pools, pair))
  }

  lemma ServedHere(policies: Policies, base: seq<Block>, appended: seq<Block>, pair: Id, shown: Live, m: nat)
    requires m <= |appended|
    requires Mirrors(shown, PoolOr(Replay(policies, base + appended[..m]).view.pools, pair))
    ensures ServedAt(policies, base, appended, pair, shown)
  {
    hide Mirrors, Replay;
    assert ServedAfter(policies, base, appended, pair, shown, m);
  }
}
