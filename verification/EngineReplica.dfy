/** The engine's own updates, folded by the browser: over any stretch of appended blocks the browser shows what
    the server's windowed query shows.
    Each event moves at most one pool, by at most one step, and emits an update exactly when it does; a block
    observes a pool at most once. So the updates for one pair, in the order emitted, are the steps that took the
    server's pool from the bootstrap to the head, and folding the messages made of them mirrors those steps. */
module EngineReplica {
  import opened Domain
  import opened PairIndex
  import opened PoolState
  import opened Replica
  import opened ReplicaTheorems
  import PoolStream
  import opened Chain
  import opened Projection
  import Admission

  function UpdatesFor(updates: seq<Update>, pair: Id): seq<Update> {
    if updates == [] then []
    else
      var rest, last := UpdatesFor(updates[..|updates| - 1], pair), updates[|updates| - 1];
      if last.state.ident.pair == pair then rest + [last] else rest
  }

  lemma {:induction false} UpdatesForConcat(a: seq<Update>, b: seq<Update>, pair: Id)
    ensures UpdatesFor(a + b, pair) == UpdatesFor(a, pair) + UpdatesFor(b, pair)
  {
    if b == [] {
      assert a + b == a;
    } else {
      UpdatesForConcat(a, b[..|b| - 1], pair);
      assert (a + b)[..|a + b| - 1] == a + b[..|b| - 1];
    }
  }

  lemma UpdatesForOne(u: Update, pair: Id)
    ensures UpdatesFor([u], pair) == if u.state.ident.pair == pair then [u] else []
  {
    assert [u][..0] == [];
  }

  predicate SameBase(a: PairIdentity, b: PairIdentity) {
    a.pair == b.pair && a.tokenX == b.tokenX && a.tokenY == b.tokenY
    && a.decimalsX == b.decimalsX && a.decimalsY == b.decimalsY
  }

  /** Every pool belongs to a listed pair with the same tokens and was observed by `number`. */
  ghost predicate PoolKnown(pool: Pool, l: Listing, pair: Id, number: int) {
    && pool.state.Some? && pair in l.pairs
    && SameBase(pool.state.value.ident, l.pairs[pair].ident) && pool.state.value.ident.pair == pair
    && pool.state.value.asOfBlock <= number
  }

  ghost predicate PoolsKnown(v: View, number: int) {
    forall p: Id :: p in v.pools ==> PoolKnown(v.pools[p], v.listing, p, number)
  }

  lemma PoolsKnownLater(v: View, n: int, m: int)
    requires PoolsKnown(v, n) && n <= m
    ensures PoolsKnown(v, m)
  {
  }

  /** The step an observation makes in its block. */
  ghost predicate StepOf(e: Event, b: Block, pair: Id, step: Step) {
    && IsObservation(e) && e.ident.pair == pair && ValidEvent(e, b.chainId)
    && step.observation == e.poolState.value && step.pair.ident == e.ident
    && step.pair.activeId == e.market.activeId && step.pair.binStep == e.market.binStep
    && Complete(step.pair)
    && step.at == At(b.chainId.GetOr(0), pair, b.number, b.hash, b.timestamp)
  }

  /** What a stretch of events does to one pool: nothing, or one observation. */
  ghost predicate Moves(before: map<Id, Pool>, after: map<Id, Pool>, updates: seq<Update>, pair: Id, step: Option<Step>) {
    if step.None? then PoolOr(after, pair) == PoolOr(before, pair) && UpdatesFor(updates, pair) == []
    else
      var s, pool := step.value, PoolOr(before, pair);
      && UpdatesFor(updates, pair) == [Observed(pool, s.pair, s.observation, s.at).1]
      && PoolOr(after, pair) == Observed(pool, s.pair, s.observation, s.at).0
      && (pool.state.Some? ==> pool.state.value.chainId == s.at.chainId && SameBase(pool.state.value.ident, s.pair.ident))
  }

  lemma ObservedShape(pool: Pool, pair: PairState, o: Observation, at: At)
    ensures var (after, u) := Observed(pool, pair, o, at);
            && after.state == Some(u.state) && u.state.ident == pair.ident && u.state.asOfBlock == at.block
            && u.state.binStep == pair.binStep.GetOr(0) && u.state.activeId == pair.activeId.GetOr(0)
            && u.replaceBinWindow == o.replaceBinWindow
  {
    hide ApplyBins, SortBins;
  }

  lemma ObservationMoves(v: View, e: Event, b: Block, state: PairState) returns (step: Step)
    requires IsObservation(e) && ValidEvent(e, b.chainId) && Complete(state) && state.ident == e.ident
    requires state.activeId == e.market.activeId && state.binStep == e.market.binStep
    requires var pool := PoolOr(v.pools, e.ident.pair); pool.state.Some? ==> SameBase(pool.state.value.ident, e.ident)
    requires AfterObservation(v.pools, state, e.poolState.value, b).Some?
    ensures StepOf(e, b, e.ident.pair, step)
    ensures var r := AfterObservation(v.pools, state, e.poolState.value, b).value;
            Moves(v.pools, r.0, [r.1], e.ident.pair, Some(step))
  {
    hide Observed, ValidEvent;
    step := Step(state, e.poolState.value, At(b.chainId.GetOr(0), e.ident.pair, b.number, b.hash, b.timestamp), 0);
    var r := AfterObservation(v.pools, state, e.poolState.value, b).value;
    ObservedShape(PoolOr(v.pools, e.ident.pair), state, e.poolState.value, step.at);
    UpdatesForOne(r.1, e.ident.pair);
  }

  lemma NoMove(pools: map<Id, Pool>, pair: Id)
    ensures Moves(pools, pools, [], pair, None)
  {
  }

  lemma OtherPool(pools: map<Id, Pool>, state: PairState, o: Observation, b: Block, pair: Id)
    requires pair != state.ident.pair && AfterObservation(pools, state, o, b).Some?
    ensures var r := AfterObservation(pools, state, o, b).value; Moves(pools, r.0, [r.1], pair, None)
  {
    hide Observed;
    var r := AfterObservation(pools, state, o, b).value;
    ObservedShape(PoolOr(pools, state.ident.pair), state, o,
                  At(b.chainId.GetOr(0), state.ident.pair, b.number, b.hash, b.timestamp));
    UpdatesForOne(r.1, pair);
  }

  /** A pair's tokens never change once it is listed. */
  lemma KnownIdentity(v: View, e: Event, number: int)
    requires e.IsMarket() && PoolsKnown(v, number)
    requires var current := CurrentPair(v.listing, e.ident.pair);
             current.Some? ==> SamePairIdentity(current.value.ident, e.ident)
    ensures var pool := PoolOr(v.pools, e.ident.pair); pool.state.Some? ==> SameBase(pool.state.value.ident, e.ident)
  {
  }

  lemma MarketMoves(policies: Policies, v: View, e: Event, b: Block, pair: Id, number: int) returns (step: Option<Step>)
    requires e.IsMarket() && ValidEvent(e, b.chainId) && PoolsKnown(v, number) && AfterMarket(policies, v, e, b).ok
    ensures var r := AfterMarket(policies, v, e, b); Moves(v.pools, r.view.pools, r.updates, pair, step)
    ensures step.Some? ==> StepOf(e, b, pair, step.value)
    ensures step.Some? <==> IsObservation(e) && e.ident.pair == pair
  {
    hide Published, SamePairIdentity, SwapRow, QuotesAt, AfterLiquidity, AfterObservation, WithRow, WithSwapAt, Listed,
         TouchedAt, ValidEvent, SameBase, Moves, StepOf;
    var current := CurrentPair(v.listing, e.ident.pair);
    var q := QuotesAt(policies, v.book, e.ident, b.timestamp);
    var state := Published(current, e, b, q);
    NoMove(v.pools, pair);
    step := None;
    if IsObservation(e) {
      PublishedAt(current, e, b, q);
      Admission.ObservationPublishes(current, e, b, q);
      if e.ident.pair == pair {
        KnownIdentity(v, e, number);
        var s := ObservationMoves(v, e, b, state);
        step := Some(s);
      } else {
        OtherPool(v.pools, state, e.poolState.value, b, pair);
      }
    }
  }

  lemma EventMoves(policies: Policies, v: View, e: Event, b: Block, index: nat, pair: Id, number: int)
    returns (step: Option<Step>)
    requires ValidEvent(e, b.chainId) && PoolsKnown(v, number) && AfterEvent(policies, v, e, b, index).ok
    ensures var r := AfterEvent(policies, v, e, b, index); Moves(v.pools, r.view.pools, r.updates, pair, step)
    ensures step.Some? ==> StepOf(e, b, pair, step.value)
    ensures step.Some? <==> IsObservation(e) && e.ident.pair == pair
  {
    hide AfterMarket, AfterSnapshot, AfterTransfer, QuotesAt, ActivityRow, ValidEvent, Moves, StepOf, PoolKnown;
    var logged := Logged(v, e, b, index);
    assert PoolsKnown(logged, number);
    if e.IsMarket() {
      step := MarketMoves(policies, logged, e, b, pair, number);
    } else {
      NoMove(v.pools, pair);
      step := None;
    }
  }

  // Pools stay known

  lemma ListedKnown(v: View, state: PairState, number: int)
    requires PoolsKnown(v, number)
    requires state.ident.pair in v.listing.pairs ==> SameBase(v.listing.pairs[state.ident.pair].ident, state.ident)
    ensures forall p: Id :: p in v.pools ==> PoolKnown(v.pools[p], Listed(v.listing, state), p, number)
  {
    forall p: Id | p in v.pools
      ensures PoolKnown(v.pools[p], Listed(v.listing, state), p, number)
    {
      assert PoolKnown(v.pools[p], v.listing, p, number);
    }
  }

  lemma ListedHas(l: Listing, state: PairState)
    ensures var r := Listed(l, state); state.ident.pair in r.pairs && r.pairs[state.ident.pair] == state
  {
  }

  lemma SameIdentityBase(a: PairIdentity, b: PairIdentity)
    requires SamePairIdentity(a, b)
    ensures SameBase(a, b)
  {
  }

  lemma MarketKnown(policies: Policies, v: View, e: Event, b: Block, number: int)
    requires e.IsMarket() && PoolsKnown(v, number) && number <= b.number && AfterMarket(policies, v, e, b).ok
    ensures PoolsKnown(AfterMarket(policies, v, e, b).view, b.number)
  {
    hide Published, SamePairIdentity, SwapRow, QuotesAt, AfterLiquidity, AfterObservation, WithRow, WithSwapAt, Listed,
         TouchedAt, SameBase, PoolKnown;
    PoolsKnownLater(v, number, b.number);
    var current := CurrentPair(v.listing, e.ident.pair);
    var q := QuotesAt(policies, v.book, e.ident, b.timestamp);
    var state := Published(current, e, b, q);
    PublishedAt(current, e, b, q);
    if current.Some? {
      SameIdentityBase(current.value.ident, e.ident);
    }
    ListedKnown(v, state, b.number);
    if IsObservation(e) {
      ListedHas(v.listing, state);
      ObservationKnown(v.pools, Listed(v.listing, state), state, e.poolState.value, b);
    }
  }

  lemma ObservationKnown(pools: map<Id, Pool>, l: Listing, state: PairState, o: Observation, b: Block)
    requires forall p: Id :: p in pools ==> PoolKnown(pools[p], l, p, b.number)
    requires AfterObservation(pools, state, o, b).Some?
    requires state.ident.pair in l.pairs && l.pairs[state.ident.pair] == state
    ensures var r := AfterObservation(pools, state, o, b).value;
            forall p: Id :: p in r.0 ==> PoolKnown(r.0[p], l, p, b.number)
  {
    hide Observed;
    ObservedShape(PoolOr(pools, state.ident.pair), state, o,
                  At(b.chainId.GetOr(0), state.ident.pair, b.number, b.hash, b.timestamp));
  }

  lemma EventKnown(policies: Policies, v: View, e: Event, b: Block, index: nat, number: int)
    requires PoolsKnown(v, number) && number <= b.number && AfterEvent(policies, v, e, b, index).ok
    ensures PoolsKnown(AfterEvent(policies, v, e, b, index).view, b.number)
  {
    hide AfterMarket, AfterSnapshot, AfterTransfer, QuotesAt, ActivityRow, PoolKnown;
    var logged := Logged(v, e, b, index);
    assert PoolsKnown(logged, number);
    if e.IsMarket() {
      MarketKnown(policies, logged, e, b, number);
    } else {
      PoolsKnownLater(v, number, b.number);
    }
  }

  // Blocks

  lemma {:induction false} EventsKnown(policies: Policies, v: View, events: seq<Event>, b: Block)
    requires PoolsKnown(v, b.number) && AfterEvents(policies, v, events, b).ok
    ensures PoolsKnown(AfterEvents(policies, v, events, b).view, b.number)
  {
    hide AfterEvent, PoolsKnown;
    if events != [] {
      var n := |events| - 1;
      EventsKnown(policies, v, events[..n], b);
      EventKnown(policies, AfterEvents(policies, v, events[..n], b).view, events[n], b, n, b.number);
    }
  }

  ghost predicate ObservesIn(events: seq<Event>, pair: Id) {
    exists e :: e in events && IsObservation(e) && e.ident.pair == pair
  }

  /** The step of a block, if its events hold an observation of the pair. */
  ghost predicate StepIn(events: seq<Event>, b: Block, pair: Id, step: Option<Step>) {
    if step.None? then !ObservesIn(events, pair) else exists e :: e in events && StepOf(e, b, pair, step.value)
  }

  /** Because an observation is its pair's last market event, a block observes a pool at most once. */
  lemma {:induction false} EventsMove(policies: Policies, v: View, events: seq<Event>, b: Block, pair: Id)
    returns (step: Option<Step>)
    requires PoolsKnown(v, b.number) && AfterEvents(policies, v, events, b).ok && ObservationsLast(events)
    requires forall e :: e in events ==> ValidEvent(e, b.chainId)
    ensures var r := AfterEvents(policies, v, events, b); Moves(v.pools, r.view.pools, r.updates, pair, step)
    ensures StepIn(events, b, pair, step)
  {
    hide AfterEvent, PoolsKnown, Moves, StepIn, ValidEvent, ObservationsLast, IsObservation;
    if events == [] {
      NoMove(v.pools, pair);
      NoStep(b, pair);
      step := None;
    } else {
      var n := |events| - 1;
      var init, e := events[..n], events[n];
      assert events == init + [e];
      var before := AfterEvents(policies, v, init, b);
      ObservationsLastInit(events);
      var first := EventsMove(policies, v, init, b, pair);
      EventsKnown(policies, v, init, b);
      var r := AfterEvent(policies, before.view, e, b, n);
      var last := EventMoves(policies, before.view, e, b, n, pair, b.number);
      ObservedOnce(events, b, pair, first);
      step := if first.Some? then first else last;
      MovesTogether(v.pools, before.view.pools, r.view.pools, before.updates, r.updates, pair, first, last);
      StepGrows(init, e, b, pair, first, last);
    }
  }

  lemma NoStep(b: Block, pair: Id)
    ensures StepIn([], b, pair, None)
  {
  }

  lemma ObservationsLastInit(events: seq<Event>)
    requires events != [] && ObservationsLast(events)
    ensures ObservationsLast(events[..|events| - 1])
  {
  }

  lemma ObservedOnce(events: seq<Event>, b: Block, pair: Id, first: Option<Step>)
    requires events != [] && ObservationsLast(events) && StepIn(events[..|events| - 1], b, pair, first)
    ensures first.Some? ==> !(IsObservation(events[|events| - 1]) && events[|events| - 1].ident.pair == pair)
  {
    hide ValidEvent;
    if first.Some? {
      var n := |events| - 1;
      var e :| e in events[..n] && StepOf(e, b, pair, first.value);
      var i :| 0 <= i < n && events[i] == e;
      assert IsObservation(events[i]);
    }
  }

  lemma MovesTogether(a: map<Id, Pool>, m: map<Id, Pool>, z: map<Id, Pool>, us: seq<Update>, more: seq<Update>, pair: Id,
                      first: Option<Step>, last: Option<Step>)
    requires Moves(a, m, us, pair, first) && Moves(m, z, more, pair, last)
    requires first.None? || last.None?
    ensures Moves(a, z, us + more, pair, if first.Some? then first else last)
  {
    hide Observed, SameBase;
    UpdatesForConcat(us, more, pair);
  }

  lemma StepGrows(init: seq<Event>, e: Event, b: Block, pair: Id, first: Option<Step>, last: Option<Step>)
    requires StepIn(init, b, pair, first)
    requires last.Some? ==> StepOf(e, b, pair, last.value)
    requires IsObservation(e) && e.ident.pair == pair ==> last.Some?
    ensures StepIn(init + [e], b, pair, if first.Some? then first else last)
  {
    hide StepOf;
    if first.Some? {
      var x :| x in init && StepOf(x, b, pair, first.value);
      assert x in init + [e];
    } else if last.Some? {
      assert e in init + [e];
    }
  }

  lemma BlockMoves(policies: Policies, v: View, b: Block, pair: Id) returns (step: Option<Step>)
    requires PoolsKnown(v, b.number) && ValidBlock(b) && ObservationsLast(b.events) && AfterBlock(policies, v, b).ok
    ensures var r := AfterBlock(policies, v, b); Moves(v.pools, r.view.pools, r.updates, pair, step)
    ensures StepIn(b.events, b, pair, step)
  {
    hide AfterEvents, PoolKnown, Moves, StepIn, ValidEvent;
    step := EventsMove(policies, WithPrices(policies, v, b), b.events, b, pair);
  }

  lemma BlockKnown(policies: Policies, v: View, b: Block, number: int)
    requires PoolsKnown(v, number) && number <= b.number && AfterBlock(policies, v, b).ok
    ensures PoolsKnown(AfterBlock(policies, v, b).view, b.number)
  {
    hide AfterEvents, PoolKnown;
    PoolsKnownLater(v, number, b.number);
    EventsKnown(policies, WithPrices(policies, v, b), b.events, b);
  }

  lemma {:induction false} ReplayPoolsKnown(policies: Policies, blocks: seq<Block>)
    requires CanonicalChain(blocks) && blocks != [] && Replay(policies, blocks).ok
    ensures PoolsKnown(Replay(policies, blocks).view, blocks[|blocks| - 1].number)
  {
    hide AfterBlock, PoolKnown, ContextOf, ValidBlock, Canonicalize;
    var init, b := blocks[..|blocks| - 1], blocks[|blocks| - 1];
    if init == [] {
      BlockKnown(policies, EMPTY_VIEW, b, b.number);
    } else {
      ReplayPoolsKnown(policies, init);
      BlockKnown(policies, Replay(policies, init).view, b, init[|init| - 1].number);
    }
  }

  lemma LastIsObservable(init: seq<Block>, b: Block)
    requires Extends(init, b)
    ensures ValidBlock(b) && ObservationsLast(b.events)
  {
    hide ValidEvent;
  }

  // The stretch

  /** The updates for one pool that the engine emits while `appended` is appended to `base`. */
  ghost function Emitted(policies: Policies, base: seq<Block>, appended: seq<Block>, pair: Id): seq<Update> {
    if appended == [] then []
    else
      Emitted(policies, base, appended[..|appended| - 1], pair) + UpdatesFor(Replay(policies, base + appended).updates, pair)
  }

  function Messages(updates: seq<Update>, cursors: seq<nat>): (r: seq<Message>)
    requires |cursors| == |updates|
    ensures |r| == |updates|
  {
    seq(|updates|, i requires 0 <= i < |updates| => Message(cursors[i], updates[i]))
  }

  ghost predicate Increasing(from: nat, cursors: seq<nat>) {
    && (cursors != [] ==> cursors[0] > from)
    && (forall i, j :: 0 <= i < j < |cursors| ==> cursors[i] < cursors[j])
  }

  /** The bin step stays, and every move of the active bin replaces the window. */
  predicate Continues(s: State, u: Update) {
    u.state.binStep == s.binStep && (u.state.activeId != s.activeId ==> u.replaceBinWindow)
  }

  predicate ContinuesAt(s: State, updates: seq<Update>, i: nat)
    requires i < |updates|
  {
    Continues(if i == 0 then s else updates[i - 1].state, updates[i])
  }

  ghost predicate AllContinue(s: State, updates: seq<Update>) {
    forall i: nat :: i < |updates| ==> ContinuesAt(s, updates, i)
  }

  predicate CanonicalTexts(o: Observation) {
    forall i :: 0 <= i < |o.binUpdates| ==> Canonical(o.binUpdates[i].bin)
  }

  ghost predicate AllCanonical(blocks: seq<Block>) {
    forall b, e :: b in blocks && e in b.events && IsObservation(e) ==> CanonicalTexts(e.poolState.value)
  }

  /** One block moves the browser along with the server. */
  lemma BlockMirrors(live: Live, before: map<Id, Pool>, after: map<Id, Pool>, updates: seq<Update>, pair: Id, step: Step,
                     e: Event, b: Block, cursor: nat)
    requires Mirrors(live, PoolOr(before, pair)) && Moves(before, after, updates, pair, Some(step))
    requires StepOf(e, b, pair, step) && CanonicalTexts(step.observation) && live.state.asOfBlock < b.number
    requires cursor > live.cursor
    requires forall u :: u in UpdatesFor(updates, pair) ==> Continues(live.state, u)
    ensures |UpdatesFor(updates, pair)| == 1
    ensures var r := Apply(live, Message(cursor, UpdatesFor(updates, pair)[0]));
            && r.Next? && Mirrors(r.live, PoolOr(after, pair)) && r.live.radius == live.radius && r.live.cursor == cursor
            && r.live.state == UpdatesFor(updates, pair)[0].state
  {
    hide Apply, Shown, CanonicalMap, Observed;
    var pool := PoolOr(before, pair);
    var s := step.(cursor := cursor);
    ObservedShape(pool, s.pair, s.observation, s.at);
    StepFollows(live.state, step, s, e, b, pair, Observed(pool, s.pair, s.observation, s.at).1);
    StepMirrors(live, pool, s);
    NothingUncovered(live, pool, s);
  }

  lemma StepFollows(state: State, step: Step, s: Step, e: Event, b: Block, pair: Id, u: Update)
    requires StepOf(e, b, pair, step) && CanonicalTexts(step.observation) && state.asOfBlock < b.number
    requires s.pair == step.pair && s.observation == step.observation && s.at == step.at
    requires SameBase(state.ident, step.pair.ident) && state.chainId == step.at.chainId
    requires u.state.binStep == step.pair.binStep.GetOr(0) && Continues(state, u)
    ensures Follows(state, s)
  {
  }

  lemma NothingUncovered(live: Live, pool: Pool, s: Step)
    requires pool.state == Some(live.state) && Follows(live.state, s)
    requires var (after, u) := Observed(pool, s.pair, s.observation, s.at); Continues(live.state, u)
    ensures var (after, u) := Observed(pool, s.pair, s.observation, s.at);
            s.observation.replaceBinWindow
            || forall id: nat :: !Uncovered(pool, live.state, after.state.value, SentBy(u), live.radius, id)
  {
    hide Follows, Continues, ApplyBins, SortBins, SentBy;
    ObservedShape(pool, s.pair, s.observation, s.at);
    ContinuesHere(live.state, Observed(pool, s.pair, s.observation, s.at).1);
  }

  lemma ContinuesHere(s: State, u: Update)
    requires Continues(s, u)
    ensures !u.replaceBinWindow ==> u.state.activeId == s.activeId
  {
  }

  lemma NextBlock(policies: Policies, chain: seq<Block>, b: Block, pair: Id, current: Live, cursors: seq<nat>)
    requires chain != [] && CanonicalChain(chain) && Extends(chain, b) && AllCanonical([b])
    requires Replay(policies, chain).ok && AfterBlock(policies, Replay(policies, chain).view, b).ok
    requires Mirrors(current, PoolOr(Replay(policies, chain).view.pools, pair))
    requires var more := UpdatesFor(AfterBlock(policies, Replay(policies, chain).view, b).updates, pair);
             |cursors| == |more| && Increasing(current.cursor, cursors) && AllContinue(current.state, more)
    ensures var after := AfterBlock(policies, Replay(policies, chain).view, b);
            var more := UpdatesFor(after.updates, pair);
            var r := PoolStream.Fold(current, Messages(more, cursors));
            && r.Some? && Mirrors(r.value, PoolOr(after.view.pools, pair)) && r.value.radius == current.radius
            && r.value.cursor == (if more == [] then current.cursor else cursors[|more| - 1])
            && r.value.state == (if more == [] then current.state else more[|more| - 1].state)
  {
    hide CanonicalChain, Replay, AfterBlock, Apply, Mirrors, Moves, StepOf, PoolKnown, Continues, CanonicalTexts,
         ValidBlock, Canonicalize, ContextOf, ObservationsLast;
    var v := Replay(policies, chain).view;
    var after := AfterBlock(policies, v, b);
    var more := UpdatesFor(after.updates, pair);
    ReplayPoolsKnown(policies, chain);
    PoolsKnownLater(v, chain[|chain| - 1].number, b.number);
    LastIsObservable(chain, b);
    var step := BlockMoves(policies, v, b, pair);
    if step.None? {
      NothingMoved(v.pools, after.view.pools, after.updates, pair);
    } else {
      var e :| e in b.events && StepOf(e, b, pair, step.value);
      StepCanonical(e, b, pair, step.value);
      OneMove(v.pools, after.view.pools, after.updates, pair, step.value);
      AsOfBefore(current, v, pair, chain[|chain| - 1].number);
      assert ContinuesAt(current.state, more, 0);
      BlockMirrors(current, v.pools, after.view.pools, after.updates, pair, step.value, e, b, cursors[0]);
      FoldOne(current, Message(cursors[0], more[0]));
      assert Messages(more, cursors) == [Message(cursors[0], more[0])];
    }
  }

  lemma NothingMoved(before: map<Id, Pool>, after: map<Id, Pool>, updates: seq<Update>, pair: Id)
    requires Moves(before, after, updates, pair, None)
    ensures PoolOr(after, pair) == PoolOr(before, pair) && UpdatesFor(updates, pair) == []
  {
  }

  lemma OneMove(before: map<Id, Pool>, after: map<Id, Pool>, updates: seq<Update>, pair: Id, step: Step)
    requires Moves(before, after, updates, pair, Some(step))
    ensures |UpdatesFor(updates, pair)| == 1
  {
    hide Observed;
  }

  lemma StepCanonical(e: Event, b: Block, pair: Id, step: Step)
    requires StepOf(e, b, pair, step) && e in b.events && AllCanonical([b])
    ensures CanonicalTexts(step.observation)
  {
    hide ValidEvent, CanonicalTexts;
    assert b in [b];
  }

  lemma AsOfBefore(live: Live, v: View, pair: Id, number: int)
    requires Mirrors(live, PoolOr(v.pools, pair)) && PoolsKnown(v, number)
    ensures live.state.asOfBlock <= number
  {
    hide CanonicalMap, Shown;
    assert PoolKnown(v.pools[pair], v.listing, pair, number);
  }

  lemma FoldOne(live: Live, m: Message)
    ensures PoolStream.Fold(live, [m])
            == match Apply(live, m) { case Refused => None case Kept => Some(live) case Next(l) => Some(l) }
  {
    hide Apply;
    assert [m][..0] == [];
  }

  lemma ContinuesSplit(s: State, ups: seq<Update>, more: seq<Update>)
    requires AllContinue(s, ups + more)
    ensures AllContinue(s, ups)
    ensures AllContinue(if ups == [] then s else ups[|ups| - 1].state, more)
  {
    hide Continues;
    forall i: nat | i < |ups|
      ensures ContinuesAt(s, ups, i)
    {
      assert ContinuesAt(s, ups + more, i);
    }
    var middle := if ups == [] then s else ups[|ups| - 1].state;
    forall i: nat | i < |more|
      ensures ContinuesAt(middle, more, i)
    {
      assert ContinuesAt(s, ups + more, |ups| + i);
    }
  }

  lemma CursorsSplit(from: nat, cursors: seq<nat>, n: nat)
    requires Increasing(from, cursors) && n <= |cursors|
    ensures Increasing(from, cursors[..n])
    ensures Increasing(if n == 0 then from else cursors[n - 1], cursors[n..])
  {
  }

  lemma MessagesSplit(ups: seq<Update>, more: seq<Update>, cursors: seq<nat>)
    requires |cursors| == |ups| + |more|
    ensures Messages(ups + more, cursors) == Messages(ups, cursors[..|ups|]) + Messages(more, cursors[|ups|..])
  {
  }

  /** What folding the emitted updates of the appended blocks gives. */
  ghost predicate MirrorsAfter(policies: Policies, base: seq<Block>, appended: seq<Block>, pair: Id, live: Live,
                               cursors: seq<nat>)
    requires |cursors| == |Emitted(policies, base, appended, pair)|
  {
    var ups := Emitted(policies, base, appended, pair);
    var r := PoolStream.Fold(live, Messages(ups, cursors));
    && r.Some? && Mirrors(r.value, PoolOr(Replay(policies, base + appended).view.pools, pair))
    && r.value.radius == live.radius
    && r.value.cursor == (if ups == [] then live.cursor else cursors[|ups| - 1])
    && r.value.state == (if ups == [] then live.state else ups[|ups| - 1].state)
  }

  lemma {:induction false} MirrorsBlocks(policies: Policies, base: seq<Block>, appended: seq<Block>, pair: Id, live: Live,
                                         cursors: seq<nat>)
    requires base != [] && CanonicalChain(base + appended) && Replay(policies, base + appended).ok
    requires Mirrors(live, PoolOr(Replay(policies, base).view.pools, pair))
    requires AllCanonical(appended)
    requires |cursors| == |Emitted(policies, base, appended, pair)| && Increasing(live.cursor, cursors)
    requires AllContinue(live.state, Emitted(policies, base, appended, pair))
    ensures MirrorsAfter(policies, base, appended, pair, live, cursors)
    decreases |appended|
  {
    hide Mirrors, CanonicalChain, Replay, Increasing, AllContinue, AllCanonical, Extends, AfterBlock, UpdatesFor,
         MirrorsAfter, Emitted, PoolOr;
    EmittedStep(policies, base, appended, pair);
    if appended == [] {
      MirrorsNothing(policies, base, pair, live, cursors);
    } else {
      var init := appended[..|appended| - 1];
      CanonicalParts(appended);
      StretchPrefix(policies, base, appended);
      var ups := Emitted(policies, base, init, pair);
      var more := UpdatesFor(Replay(policies, base + appended).updates, pair);
      ContinuesSplit(live.state, ups, more);
      CursorsSplit(live.cursor, cursors, |ups|);
      MirrorsBlocks(policies, base, init, pair, live, cursors[..|ups|]);
      MirrorsOneMore(policies, base, appended, pair, live, cursors);
    }
  }

  lemma MirrorsNothing(policies: Policies, base: seq<Block>, pair: Id, live: Live, cursors: seq<nat>)
    requires Mirrors(live, PoolOr(Replay(policies, base).view.pools, pair))
    requires |cursors| == |Emitted(policies, base, [], pair)|
    ensures MirrorsAfter(policies, base, [], pair, live, cursors)
  {
    hide Mirrors, Replay;
    assert base + [] == base;
    FoldNone(live, cursors);
  }

  lemma MirrorsOneMore(policies: Policies, base: seq<Block>, appended: seq<Block>, pair: Id, live: Live,
                       cursors: seq<nat>)
    requires base != [] && appended != [] && CanonicalChain(base + appended) && Replay(policies, base + appended).ok
    requires AllCanonical(appended)
    requires |cursors| == |Emitted(policies, base, appended, pair)| && Increasing(live.cursor, cursors)
    requires AllContinue(live.state, Emitted(policies, base, appended, pair))
    requires var init := appended[..|appended| - 1];
             var n := |Emitted(policies, base, init, pair)|;
             n <= |cursors| && MirrorsAfter(policies, base, init, pair, live, cursors[..n])
    ensures MirrorsAfter(policies, base, appended, pair, live, cursors)
  {
    hide Mirrors, CanonicalChain, Replay, Apply, Increasing, AllContinue, AllCanonical, Extends, AfterBlock, UpdatesFor,
         Messages, PoolStream.Fold, Emitted, PoolOr;
    EmittedStep(policies, base, appended, pair);
    var init, b := appended[..|appended| - 1], appended[|appended| - 1];
    CanonicalParts(appended);
    StretchPrefix(policies, base, appended);
    var ups := Emitted(policies, base, init, pair);
    var more := UpdatesFor(Replay(policies, base + appended).updates, pair);
    var n := |ups|;
    ContinuesSplit(live.state, ups, more);
    CursorsSplit(live.cursor, cursors, n);
    var current := PoolStream.Fold(live, Messages(ups, cursors[..n])).value;
    NextBlock(policies, base + init, b, pair, current, cursors[n..]);
    FoldBoth(live, ups, more, cursors);
  }

  lemma EmittedStep(policies: Policies, base: seq<Block>, appended: seq<Block>, pair: Id)
    ensures Emitted(policies, base, appended, pair)
            == if appended == [] then []
               else Emitted(policies, base, appended[..|appended| - 1], pair)
                    + UpdatesFor(Replay(policies, base + appended).updates, pair)
  {
    hide UpdatesFor, Replay;
  }

  /** Main result: start from a browser that mirrors the server, append blocks, deliver the emitted updates of the
      pool under increasing cursors. Folding them never fails, and the browser then mirrors the server again,
      provided bin texts are canonical, the bin step is fixed, and each move of the active bin replaces the
      window. */
  lemma EngineMirrors(policies: Policies, base: seq<Block>, appended: seq<Block>, pair: Id, live: Live,
                      cursors: seq<nat>)
    requires base != [] && CanonicalChain(base + appended) && Replay(policies, base + appended).ok
    requires Mirrors(live, PoolOr(Replay(policies, base).view.pools, pair))
    requires AllCanonical(appended)
    requires |cursors| == |Emitted(policies, base, appended, pair)| && Increasing(live.cursor, cursors)
    requires AllContinue(live.state, Emitted(policies, base, appended, pair))
    ensures var ups := Emitted(policies, base, appended, pair);
            var r := PoolStream.Fold(live, Messages(ups, cursors));
            && r.Some? && Mirrors(r.value, PoolOr(Replay(policies, base + appended).view.pools, pair))
            && r.value.radius == live.radius
            && r.value.cursor == (if ups == [] then live.cursor else cursors[|ups| - 1])
            && r.value.state == (if ups == [] then live.state else ups[|ups| - 1].state)
  {
    hide Mirrors, CanonicalChain, Replay, Increasing, AllContinue, AllCanonical, Emitted, PoolOr, PoolStream.Fold,
         Messages;
    MirrorsBlocks(policies, base, appended, pair, live, cursors);
  }

  lemma FoldNone(live: Live, cursors: seq<nat>)
    requires cursors == []
    ensures PoolStream.Fold(live, Messages([], cursors)) == Some(live)
  {
  }

  lemma FoldBoth(live: Live, ups: seq<Update>, more: seq<Update>, cursors: seq<nat>)
    requires |cursors| == |ups| + |more|
    ensures var front := PoolStream.Fold(live, Messages(ups, cursors[..|ups|]));
            PoolStream.Fold(live, Messages(ups + more, cursors))
            == if front.None? then None else PoolStream.Fold(front.value, Messages(more, cursors[|ups|..]))
  {
    hide Messages, PoolStream.Fold;
    MessagesSplit(ups, more, cursors);
    PoolStream.FoldConcat(live, Messages(ups, cursors[..|ups|]), Messages(more, cursors[|ups|..]));
  }

  lemma CanonicalParts(appended: seq<Block>)
    requires appended != [] && AllCanonical(appended)
    ensures AllCanonical(appended[..|appended| - 1]) && AllCanonical([appended[|appended| - 1]])
  {
    hide CanonicalTexts;
    assert forall b :: b in appended[..|appended| - 1] ==> b in appended;
  }

  lemma StretchPrefix(policies: Policies, base: seq<Block>, appended: seq<Block>)
    requires appended != [] && CanonicalChain(base + appended) && Replay(policies, base + appended).ok
    ensures var init, b := appended[..|appended| - 1], appended[|appended| - 1];
            && CanonicalChain(base + init) && Replay(policies, base + init).ok && Extends(base + init, b)
            && Replay(policies, base + appended) == AfterBlock(policies, Replay(policies, base + init).view, b)
  {
    hide CanonicalChain, Replay, Extends, AfterBlock;
    var init, b := appended[..|appended| - 1], appended[|appended| - 1];
    assert base + appended == (base + init) + [b];
    var n := |base + init|;
    assert (base + appended)[..n] == base + init && (base + appended)[n] == b;
    PrefixCanonical(base + appended, n);
    ReplayPrefixOk(policies, base + appended, n);
    ReplayAppend(policies, base + init, b);
  }
}
