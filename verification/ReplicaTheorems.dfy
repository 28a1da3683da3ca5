/** The browser's folded copy equals the server's own windowed query, over any append-only stretch. */
module ReplicaTheorems {
  import opened Domain
  import opened PairIndex
  import opened PoolState
  import opened Replica

  function Low(s: State, radius: nat): int {
    LowEnd(s.activeId, radius)
  }

  function High(s: State, radius: nat): int {
    HighEnd(s.activeId, radius)
  }

  /** What the server shows a browser with this radius. */
  function Shown(bins: BinMap, s: State, radius: nat): seq<PoolBin> {
    Window(bins, Low(s, radius), High(s, radius))
  }

  ghost predicate PoolOk(pool: Pool) {
    && CanonicalMap(pool.bins)
    && (pool.state.Some? ==> 0 <= pool.state.value.activeId <= UINT24_MAX)
  }

  /** The browser holds the server's state and window. */
  ghost predicate Mirrors(live: Live, pool: Pool) {
    && PoolOk(pool)
    && pool.state == Some(live.state)
    && live.bins == Shown(pool.bins, live.state, live.radius)
  }

  /** One observation as the engine admits it after an earlier one of the same pool: a later block of the
      same chain, the same market identity and bin step, and canonical, distinct bin texts. */
  datatype Step = Step(pair: PairState, observation: Observation, at: At, cursor: nat)

  predicate Complete(pair: PairState) {
    pair.activeId.Some? && pair.binStep.Some? && pair.marketPriceQuote.Some?
  }

  ghost predicate Follows(s: State, step: Step) {
    var p, now := step.pair, s.ident;
    && Complete(p)
    && p.ident.pair == now.pair && p.ident.tokenX == now.tokenX && p.ident.tokenY == now.tokenY
    && p.ident.decimalsX == now.decimalsX && p.ident.decimalsY == now.decimalsY
    && p.binStep.value == s.binStep
    && 0 <= p.activeId.value <= UINT24_MAX
    && step.at.chainId == s.chainId && step.at.block > s.asOfBlock
    && DistinctUpdates(step.observation.binUpdates)
    && forall i :: 0 <= i < |step.observation.binUpdates| ==> Canonical(step.observation.binUpdates[i].bin)
  }

  /** The server's listing of a window is the sequence the browser computes from the same bins. */
  lemma QueryIsShown(pool: Pool, radius: nat, listed: seq<PoolBin>)
    requires PoolOk(pool) && pool.state.Some?
    requires var a := pool.state.value.activeId; IsWindow(listed, pool.bins, a - radius, a + radius)
    ensures listed == Shown(pool.bins, pool.state.value, radius)
  {
    var s := pool.state.value;
    assert Within(pool.bins, s.activeId - radius, s.activeId + radius)
           == Within(pool.bins, Low(s, radius), High(s, radius));
    ListIsWindow(listed, pool.bins, Low(s, radius), High(s, radius));
  }

  /** What the browser has seen of the server's bins: those in its window. */
  lemma SeenBins(live: Live, pool: Pool)
    requires Mirrors(live, pool)
    ensures LiveOk(live)
    ensures CanonicalMap(ById(live.bins))
    ensures forall id: nat ::
              FindBin(ById(live.bins), BinKey(id, 0))
              == if Low(live.state, live.radius) <= id <= High(live.state, live.radius)
                 then FindBin(pool.bins, BinKey(id, 0)) else None
  {
    var low, high := Low(live.state, live.radius), High(live.state, live.radius);
    WindowLists(pool.bins, low, high);
    ByIdHolds(live.bins);
    forall key | key in ById(live.bins)
      ensures Canonical(key) && ById(live.bins)[key].bin == key
    {
      ByIdKeys(live.bins);
    }
    forall id: nat
      ensures FindBin(ById(live.bins), BinKey(id, 0))
              == if low <= id <= high then FindBin(pool.bins, BinKey(id, 0)) else None
    {
      SeenBin(live.bins, pool.bins, low, high, BinKey(id, 0));
    }
  }

  lemma SeenBin(seen: seq<PoolBin>, bins: BinMap, low: int, high: int, key: BinKey)
    requires CanonicalMap(bins) && Lists(seen, bins, Within(bins, low, high))
    ensures FindBin(ById(seen), key) == if low <= key.id <= high then FindBin(bins, key) else None
  {
    ByIdHolds(seen);
    ByIdKeys(seen);
    if key in bins && low <= key.id <= high {
      assert bins[key].bin == key;
      assert bins[key] in seen;
    }
    if key in ById(seen) {
      assert ById(seen)[key] in seen;
    }
  }

  /** Keys that enter the browser's window without being sent: it has no way to know their bins. */
  ghost predicate Uncovered(pool: Pool, s: State, next: State, sent: set<BinKey>, radius: nat, id: nat) {
    && Low(next, radius) <= id <= High(next, radius)
    && !(Low(s, radius) <= id <= High(s, radius))
    && BinKey(id, 0) in pool.bins && BinKey(id, 0) !in sent
  }

  ghost function SentBy(u: Update): set<BinKey> {
    SentKeys(u.binReplacements)
  }

  lemma ReplacementsSent(pool: Pool, step: Step)
    requires PoolOk(pool) && DistinctUpdates(step.observation.binUpdates)
    ensures var o := step.observation;
            var a := ApplyBins(pool.bins, StartBins(pool, o.replaceBinWindow), o.binUpdates, o.replaceBinWindow, step.at);
            var u := Observed(pool, step.pair, o, step.at).1;
            && Overlays(pool.bins, StartBins(pool, o.replaceBinWindow).bins, a, o.binUpdates)
            && DistinctKeys(u.binReplacements)
            && (forall x :: x in u.binReplacements <==> x in a.replaced)
            && SentBy(u) == SentKeys(a.replaced)
  {
    var o := step.observation;
    ApplyBinsOverlays(pool, o.binUpdates, o.replaceBinWindow, step.at);
    var a := ApplyBins(pool.bins, StartBins(pool, o.replaceBinWindow), o.binUpdates, o.replaceBinWindow, step.at);
    SortBinsKeeps(a.replaced);
  }

  /** The scalar checks of the fold step pass on every following observation. */
  lemma ScalarsAccepted(live: Live, pool: Pool, step: Step)
    requires pool.state == Some(live.state) && Follows(live.state, step) && step.cursor > live.cursor
    ensures var m := Message(step.cursor, Observed(pool, step.pair, step.observation, step.at).1);
            !Refuses(live, m) && !Stale(live, m)
  {
  }

  /** The map the browser ends up with, key by key. */
  lemma PutMatchesServer(live: Live, pool: Pool, step: Step)
    requires Mirrors(live, pool) && Follows(live.state, step)
    ensures var o := step.observation;
            var (after, u) := Observed(pool, step.pair, o, step.at);
            var put := PutAll(if o.replaceBinWindow then map[] else ById(live.bins), u.binReplacements);
            && put.Some? && CanonicalMap(put.value) && CanonicalMap(after.bins)
            && forall id: nat ::
                 FindBin(put.value, BinKey(id, 0))
                 == if BinKey(id, 0) in SentBy(u) || o.replaceBinWindow
                       || Low(live.state, live.radius) <= id <= High(live.state, live.radius)
                    then FindBin(after.bins, BinKey(id, 0)) else None
  {
    var o := step.observation;
    var (after, u) := Observed(pool, step.pair, o, step.at);
    ReplacementsSent(pool, step);
    SeenBins(live, pool);
    var a := ApplyBins(pool.bins, StartBins(pool, o.replaceBinWindow), o.binUpdates, o.replaceBinWindow, step.at);
    var start := if o.replaceBinWindow then map[] else ById(live.bins);
    forall b | b in u.binReplacements && b.bin in start
      ensures b.revision >= start[b.bin].revision
    {
      SentCanonical(pool, step, b);
      assert FindBin(start, b.bin) == FindBin(start, BinKey(b.bin.id, 0));
    }
    PutAllOverlays(start, u.binReplacements);
    var put := PutAll(start, u.binReplacements).value;
    OverlayCanonical(start, put, u.binReplacements, pool, step);
    OverlayCanonical(StartBins(pool, o.replaceBinWindow).bins, after.bins, u.binReplacements, pool, step);
    forall id: nat
      ensures FindBin(put, BinKey(id, 0))
              == if BinKey(id, 0) in SentBy(u) || o.replaceBinWindow
                    || Low(live.state, live.radius) <= id <= High(live.state, live.radius)
                 then FindBin(after.bins, BinKey(id, 0)) else None
    {
      var key := BinKey(id, 0);
      if key in SentBy(u) {
        var b :| b in u.binReplacements && b.bin == key;
        assert b in a.replaced;
      } else {
        assert FindBin(put, key) == FindBin(start, key);
        assert FindBin(after.bins, key) == FindBin(StartBins(pool, o.replaceBinWindow).bins, key);
      }
    }
  }

  lemma SentCanonical(pool: Pool, step: Step, b: PoolBin)
    requires PoolOk(pool) && DistinctUpdates(step.observation.binUpdates)
    requires forall i :: 0 <= i < |step.observation.binUpdates| ==> Canonical(step.observation.binUpdates[i].bin)
    requires b in Observed(pool, step.pair, step.observation, step.at).1.binReplacements
    ensures Canonical(b.bin)
    ensures b.bin in pool.bins ==> b.revision >= pool.bins[b.bin].revision
  {
    ReplacementsSent(pool, step);
    var o := step.observation;
    var a := ApplyBins(pool.bins, StartBins(pool, o.replaceBinWindow), o.binUpdates, o.replaceBinWindow, step.at);
    assert b in a.replaced;
    var i :| 0 <= i < |o.binUpdates| && o.binUpdates[i].bin == b.bin;
  }

  /** Overlaying sent bins on a canonical map gives a canonical map. */
  lemma OverlayCanonical(base: BinMap, r: BinMap, replacements: seq<PoolBin>, pool: Pool, step: Step)
    requires PoolOk(pool) && DistinctUpdates(step.observation.binUpdates)
    requires forall i :: 0 <= i < |step.observation.binUpdates| ==> Canonical(step.observation.binUpdates[i].bin)
    requires replacements == Observed(pool, step.pair, step.observation, step.at).1.binReplacements
    requires CanonicalMap(base)
    requires forall b :: b in replacements ==> b.bin in r && r[b.bin] == b
    requires forall key :: key !in SentKeys(replacements) ==> FindBin(r, key) == FindBin(base, key)
    ensures CanonicalMap(r)
  {
    forall key | key in r
      ensures Canonical(key) && r[key].bin == key
    {
      if key in SentKeys(replacements) {
        var b :| b in replacements && b.bin == key;
        SentCanonical(pool, step, b);
      } else {
        assert FindBin(r, key) == FindBin(base, key);
      }
    }
  }

  /** One step: the message is never refused, the scalar state is the server's, and the browser's window is
      the server's exactly when the observation replaced the window or no unsent bin entered it. */
  lemma StepMirrors(live: Live, pool: Pool, step: Step)
    requires Mirrors(live, pool) && Follows(live.state, step) && step.cursor > live.cursor
    ensures var (after, u) := Observed(pool, step.pair, step.observation, step.at);
            var r := Apply(live, Message(step.cursor, u));
            && PoolOk(after)
            && r.Next? && r.live.radius == live.radius && r.live.cursor == step.cursor
            && after.state == Some(r.live.state)
            && (r.live.bins == Shown(after.bins, r.live.state, live.radius) <==>
                  step.observation.replaceBinWindow
                  || forall id: nat :: !Uncovered(pool, live.state, after.state.value, SentBy(u), live.radius, id))
  {
    var o := step.observation;
    var (after, u) := Observed(pool, step.pair, o, step.at);
    ScalarsAccepted(live, pool, step);
    PutMatchesServer(live, pool, step);
    var put := PutAll(if o.replaceBinWindow then map[] else ById(live.bins), u.binReplacements).value;
    var next := after.state.value;
    var low, high := Low(next, live.radius), High(next, live.radius);
    WindowBounded(put, low, high);
    assert high - low + 1 <= 2 * live.radius + 1;
    WindowsEqualIff(put, after.bins, low, high);
    forall id: nat | low <= id <= high && !o.replaceBinWindow
      ensures FindBin(put, BinKey(id, 0)) == FindBin(after.bins, BinKey(id, 0)) <==>
              !Uncovered(pool, live.state, next, SentBy(u), live.radius, id)
    {
      UnsentUnchanged(pool, step, BinKey(id, 0));
    }
  }

  lemma UnsentUnchanged(pool: Pool, step: Step, key: BinKey)
    requires PoolOk(pool) && DistinctUpdates(step.observation.binUpdates)
    requires !step.observation.replaceBinWindow
    ensures var (after, u) := Observed(pool, step.pair, step.observation, step.at);
            key !in SentBy(u) ==> FindBin(after.bins, key) == FindBin(pool.bins, key)
  {
    ReplacementsSent(pool, step);
  }

  // Runs

  function ServerAfter(pool: Pool, steps: seq<Step>): Pool
  {
    if steps == [] then pool
    else
      var last := steps[|steps| - 1];
      Observed(ServerAfter(pool, steps[..|steps| - 1]), last.pair, last.observation, last.at).0
  }

  function MessageOf(pool: Pool, step: Step): Message
  {
    Message(step.cursor, Observed(pool, step.pair, step.observation, step.at).1)
  }

  /** The browser's fold over the messages the server emits; `None` once a message is refused. */
  function BrowserAfter(live: Live, pool: Pool, steps: seq<Step>): Option<Live>
  {
    if steps == [] then Some(live)
    else
      var init, last := steps[..|steps| - 1], steps[|steps| - 1];
      var before := BrowserAfter(live, pool, init);
      if before.None? then None
      else
        match Apply(before.value, MessageOf(ServerAfter(pool, init), last))
        case Refused => None
        case Kept => before
        case Next(l) => Some(l)
  }

  /** Each observation follows the one before it, cursors increase, and every move of the active bin replaces
      the window. */
  ghost predicate Admissible(live: Live, pool: Pool, steps: seq<Step>) {
    if steps == [] then true
    else
      var init, last := steps[..|steps| - 1], steps[|steps| - 1];
      var before := ServerAfter(pool, init).state;
      && Admissible(live, pool, init)
      && before.Some? && Follows(before.value, last)
      && last.cursor > (if init == [] then live.cursor else init[|init| - 1].cursor)
      && (last.pair.activeId.value != before.value.activeId ==> last.observation.replaceBinWindow)
  }

  /** Main result: from a bootstrap query, folding the updates emitted over any admissible stretch never
      refuses a message and always shows exactly the server's own window and state. */
  lemma {:induction false} FoldMirrorsServer(live: Live, pool: Pool, steps: seq<Step>)
    requires Mirrors(live, pool) && Admissible(live, pool, steps)
    ensures var r := BrowserAfter(live, pool, steps);
            && r.Some? && Mirrors(r.value, ServerAfter(pool, steps))
            && r.value.radius == live.radius
            && r.value.cursor == if steps == [] then live.cursor else steps[|steps| - 1].cursor
  {
    hide Mirrors, Observed, Follows, Apply;
    if steps != [] {
      var init, last := steps[..|steps| - 1], steps[|steps| - 1];
      FoldMirrorsServer(live, pool, init);
      var before := BrowserAfter(live, pool, init).value;
      var server := ServerAfter(pool, init);
      MirrorKept(before, server, last);
    }
  }

  /** An observation that replaces the window whenever the active bin moves keeps the browser a mirror. */
  lemma MirrorKept(live: Live, pool: Pool, step: Step)
    requires Mirrors(live, pool) && pool.state.Some? && Follows(pool.state.value, step) && step.cursor > live.cursor
    requires step.pair.activeId.value != pool.state.value.activeId ==> step.observation.replaceBinWindow
    ensures var (after, u) := Observed(pool, step.pair, step.observation, step.at);
            var r := Apply(live, Message(step.cursor, u));
            r.Next? && Mirrors(r.live, after) && r.live.radius == live.radius && r.live.cursor == step.cursor
  {
    hide Apply, PoolOk, Shown;
    StepMirrors(live, pool, step);
    var (after, u) := Observed(pool, step.pair, step.observation, step.at);
    forall id: nat
      ensures step.observation.replaceBinWindow
              || !Uncovered(pool, live.state, after.state.value, SentBy(u), live.radius, id)
    {
    }
  }

  // Two texts for one bin

  /** No two stored texts stand for one numeric bin. */
  ghost predicate OneTextPerBin(bins: BinMap) {
    forall a, b :: a in bins && b in bins && a.id == b.id ==> a == b
  }

  /** Every listing of the window around `active` stays within the browser's bound. */
  ghost predicate WindowFits(bins: BinMap, active: int, radius: nat) {
    forall listed :: IsWindow(listed, bins, active - radius, active + radius) ==> |listed| <= radius * 2 + 1
  }

  ghost function IdsOf(keys: set<BinKey>): set<int> {
    set key | key in keys :: key.id
  }

  /** A listing has as many bins as keys. */
  lemma {:induction false} ListingLength(listed: seq<PoolBin>, bins: BinMap, keys: set<BinKey>)
    requires Lists(listed, bins, keys) && keys <= bins.Keys
    requires forall key :: key in bins ==> bins[key].bin == key
    ensures |listed| == |keys|
  {
    if listed == [] {
      assert forall key :: key in keys ==> bins[key] in listed;
      assert keys == {};
    } else {
      assert listed[|listed| - 1] in listed;
      DropLast(listed, bins, keys);
      ListingLength(listed[..|listed| - 1], bins, keys - {listed[|listed| - 1].bin});
    }
  }

  lemma {:induction false} SomeListing(bins: BinMap, keys: set<BinKey>) returns (listed: seq<PoolBin>)
    requires keys <= bins.Keys
    requires forall key :: key in bins ==> bins[key].bin == key
    ensures Lists(listed, bins, keys)
    decreases |keys|
  {
    listed := [];
    if keys != {} {
      var key :| key in keys;
      var rest := SomeListing(bins, keys - {key});
      NewInList(rest, bins, keys - {key}, key);
      listed := InsertBin(rest, bins[key]);
      assert keys - {key} + {key} == keys;
    }
  }

  lemma {:induction false} DistinctIdsCount(bins: BinMap, keys: set<BinKey>)
    requires OneTextPerBin(bins) && keys <= bins.Keys
    ensures |IdsOf(keys)| == |keys|
    decreases |keys|
  {
    if keys != {} {
      var key :| key in keys;
      DistinctIdsCount(bins, keys - {key});
      assert IdsOf(keys) == IdsOf(keys - {key}) + {key.id};
    }
  }

  lemma {:induction false} RangeCount(ids: set<int>, low: int, high: int)
    requires forall id :: id in ids ==> low <= id <= high
    ensures |ids| <= if high < low then 0 else high - low + 1
    decreases high - low + 1
  {
    if high < low {
      assert forall id: int :: id !in ids;
      assert |ids| == 0;
    } else {
      RangeCount(ids - {high}, low, high - 1);
      assert ids <= ids - {high} + {high};
      if high in ids {
        assert ids == ids - {high} + {high};
      } else {
        assert ids == ids - {high};
      }
    }
  }

  lemma WindowFitsOneText(bins: BinMap, active: int, radius: nat)
    requires OneTextPerBin(bins) && forall key :: key in bins ==> bins[key].bin == key
    ensures WindowFits(bins, active, radius)
  {
    var keys := Within(bins, active - radius, active + radius);
    forall listed | IsWindow(listed, bins, active - radius, active + radius)
      ensures |listed| <= radius * 2 + 1
    {
      ListingLength(listed, bins, keys);
      DistinctIdsCount(bins, keys);
      RangeCount(IdsOf(keys), active - radius, active + radius);
    }
  }

  lemma TwoTextsOverflow(bins: BinMap, a: BinKey, b: BinKey)
    requires a in bins && b in bins && a.id == b.id && a != b
    requires forall key :: key in bins ==> bins[key].bin == key
    ensures !WindowFits(bins, a.id, 0)
  {
    var keys := Within(bins, a.id - 0, a.id + 0);
    var listed := SomeListing(bins, keys);
    assert {a, b} <= keys && |{a, b}| == 2;
    Cardinality({a, b}, keys);
    ListingLength(listed, bins, keys);
    assert IsWindow(listed, bins, a.id - 0, a.id + 0);
  }

  lemma {:induction false} Cardinality(a: set<BinKey>, b: set<BinKey>)
    requires a <= b
    ensures |a| <= |b|
    decreases |a|
  {
    if a != {} {
      var key :| key in a;
      Cardinality(a - {key}, b - {key});
    }
  }

  /** Main result on the bound: the server's window keeps to 2r + 1 bins, for every radius around every active
      bin, exactly when no two stored texts stand for one numeric bin; and then, and only then, it does so at
      radius 0 around every stored bin. */
  lemma WindowsFitIff(pool: Pool)
    requires IndexAgrees(pool.bins, pool.numeric)
    ensures (forall active: nat, radius: nat :: WindowFits(pool.bins, active, radius)) <==> OneTextPerBin(pool.bins)
    ensures (forall key :: key in pool.bins ==> WindowFits(pool.bins, key.id, 0)) <==> OneTextPerBin(pool.bins)
  {
    if OneTextPerBin(pool.bins) {
      forall active: int, radius: nat
        ensures WindowFits(pool.bins, active, radius)
      {
        WindowFitsOneText(pool.bins, active, radius);
      }
    } else {
      var a, b :| a in pool.bins && b in pool.bins && a.id == b.id && a != b;
      TwoTextsOverflow(pool.bins, a, b);
    }
  }
}
