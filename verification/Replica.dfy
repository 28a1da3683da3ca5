/** The browser's copy of a pool: a bootstrap window kept current by folding the server's updates. */
module Replica {
  import opened Domain
  import opened PoolState

  /** The browser's snapshot. */
  datatype Live = Live(state: State, bins: seq<PoolBin>, cursor: nat, radius: nat, lastEvent: Option<EventId>)

  /** A server update with the stream cursor it was sent under. */
  datatype Message = Message(cursor: nat, update: Update)

  /** What applying a message yields: a refusal (the code throws), the snapshot itself, or a new one. */
  datatype Applied = Refused | Kept | Next(live: Live)

  predicate Refuses(current: Live, m: Message) {
    var s, now := m.update.state, current.state;
    || s.ident.pair != now.ident.pair || s.chainId != now.chainId
    || s.ident.tokenX != now.ident.tokenX || s.ident.tokenY != now.ident.tokenY
    || s.ident.decimalsX != now.ident.decimalsX || s.ident.decimalsY != now.ident.decimalsY
    || s.binStep != now.binStep
    || m.cursor < current.cursor
  }

  predicate Stale(current: Live, m: Message) {
    var s, now := m.update.state, current.state;
    || s.asOfBlock < now.asOfBlock
    || (s.asOfBlock == now.asOfBlock && s.asOfHash != now.asOfHash)
    || s.revision < now.revision
    || (s.revision == now.revision && current.lastEvent != Some(m.update.eventId))
  }

  function ById(bins: seq<PoolBin>): BinMap {
    if bins == [] then map[] else ById(bins[..|bins| - 1])[bins[|bins| - 1].bin := bins[|bins| - 1]]
  }

  /** Puts replacements into the browser's map; a bin revision that moves backwards refuses the message. */
  function PutAll(bins: BinMap, replacements: seq<PoolBin>): Option<BinMap> {
    if replacements == [] then Some(bins)
    else
      var rest := PutAll(bins, replacements[..|replacements| - 1]);
      var b := replacements[|replacements| - 1];
      if rest.None? || (b.bin in rest.value && b.revision < rest.value[b.bin].revision) then None
      else Some(rest.value[b.bin := b])
  }

  function LowEnd(active: int, radius: nat): int {
    if active > radius then active - radius else 0
  }

  function HighEnd(active: int, radius: nat): int {
    if active + radius > UINT24_MAX then UINT24_MAX else active + radius
  }

  /** A bin text the browser's parser accepts: no superfluous zeros, and a numeric id that fits 24 bits. */
  predicate Canonical(key: BinKey) {
    key.zeros == 0 && key.id <= UINT24_MAX
  }

  /** A map filed under canonical keys. */
  ghost predicate CanonicalMap(bins: BinMap) {
    forall key :: key in bins ==> Canonical(key) && bins[key].bin == key
  }

  /** The bins of a window in order of numeric id, for a map filed under canonical keys. */
  function Window(bins: BinMap, low: int, high: int): seq<PoolBin>
    requires low >= 0
    decreases high - low + 1
  {
    if high < low then []
    else Window(bins, low, high - 1) + (if BinKey(high, 0) in bins then [bins[BinKey(high, 0)]] else [])
  }

  lemma NothingListed(bins: BinMap)
    ensures Lists([], bins, {})
  {
  }

  method Gather(bins: BinMap, low: int, high: int) returns (r: seq<PoolBin>)
    requires CanonicalMap(bins) && low >= 0
    ensures r == Window(bins, low, high)
  {
    hide Lists, Canonical, InsertBin;
    NothingListed(bins);
    r := [];
    var rest := set key | key in bins && low <= key.id <= high;
    ghost var all := rest;
    ghost var done: set<BinKey> := {};
    while rest != {}
      invariant rest <= all && rest !! done && done + rest == all
      invariant Lists(r, bins, done)
      decreases |rest|
    {
      var key :| key in rest;
      NewInList(r, bins, done, key);
      r := InsertBin(r, bins[key]);
      rest, done := rest - {key}, done + {key};
    }
    assert done == all == Within(bins, low, high);
    ListIsWindow(r, bins, low, high);
  }

  /** A window lists exactly the bins inside it. */
  lemma {:induction false} WindowLists(bins: BinMap, low: int, high: int)
    requires CanonicalMap(bins) && low >= 0
    ensures Lists(Window(bins, low, high), bins, Within(bins, low, high))
    decreases high - low + 1
  {
    if high < low {
      assert Within(bins, low, high) == {};
    } else {
      WindowLists(bins, low, high - 1);
      var key := BinKey(high, 0);
      if key in bins {
        ListOneMore(Window(bins, low, high - 1), bins, Within(bins, low, high - 1), key);
        assert Within(bins, low, high) == Within(bins, low, high - 1) + {key};
      } else {
        assert Within(bins, low, high) == Within(bins, low, high - 1);
      }
    }
  }

  /** With canonical keys there is only one sorted listing of a window. */
  lemma ListIsWindow(r: seq<PoolBin>, bins: BinMap, low: int, high: int)
    requires CanonicalMap(bins) && low >= 0
    requires Lists(r, bins, Within(bins, low, high))
    ensures r == Window(bins, low, high)
  {
    WindowLists(bins, low, high);
    CanonicalListsEqual(r, Window(bins, low, high), bins, Within(bins, low, high));
  }

  lemma {:induction false} CanonicalListsEqual(a: seq<PoolBin>, b: seq<PoolBin>, bins: BinMap, keys: set<BinKey>)
    requires CanonicalMap(bins) && keys <= bins.Keys
    requires Lists(a, bins, keys) && Lists(b, bins, keys)
    ensures a == b
  {
    if a == [] || b == [] {
      EmptyIff(a, bins, keys);
      EmptyIff(b, bins, keys);
    } else {
      var x, y := a[|a| - 1], b[|b| - 1];
      assert x in a && y in b;
      LastHasGreatestId(a, bins, keys, y);
      LastHasGreatestId(b, bins, keys, x);
      assert x.bin == y.bin;
      DropLast(a, bins, keys);
      DropLast(b, bins, keys);
      CanonicalListsEqual(a[..|a| - 1], b[..|b| - 1], bins, keys - {x.bin});
      assert a == a[..|a| - 1] + [x] && b == b[..|b| - 1] + [y];
    }
  }

  lemma EmptyIff(a: seq<PoolBin>, bins: BinMap, keys: set<BinKey>)
    requires CanonicalMap(bins) && keys <= bins.Keys && Lists(a, bins, keys)
    ensures a == [] <==> keys == {}
  {
    if keys != {} {
      var key :| key in keys;
      assert bins[key] in a;
    }
    if a != [] {
      assert a[0] in a;
      assert a[0].bin in keys;
    }
  }

  lemma LastHasGreatestId(a: seq<PoolBin>, bins: BinMap, keys: set<BinKey>, y: PoolBin)
    requires Lists(a, bins, keys) && a != []
    requires y.bin in keys && y.bin in bins && bins[y.bin] == y
    ensures y.bin.id <= a[|a| - 1].bin.id
    ensures a[|a| - 1].bin in keys && a[|a| - 1].bin in bins && bins[a[|a| - 1].bin] == a[|a| - 1]
  {
    assert a[|a| - 1] in a && y in a;
    var i :| 0 <= i < |a| && a[i] == y;
  }

  lemma DropLast(a: seq<PoolBin>, bins: BinMap, keys: set<BinKey>)
    requires Lists(a, bins, keys) && a != []
    ensures Lists(a[..|a| - 1], bins, keys - {a[|a| - 1].bin})
  {
    var init, last := a[..|a| - 1], a[|a| - 1];
    assert a == init + [last];
    LastDominates(a);
    forall b
      ensures b in init <==> b.bin in keys - {last.bin} && b.bin in bins && bins[b.bin] == b
    {
      assert b in a <==> b in init || b == last;
    }
  }

  /** A window is never longer than its span, so the check on the bounded window cannot fire. */
  lemma {:induction false} WindowBounded(bins: BinMap, low: int, high: int)
    requires low >= 0
    ensures |Window(bins, low, high)| <= if high < low then 0 else high - low + 1
    decreases high - low + 1
  {
    if low <= high {
      WindowBounded(bins, low, high - 1);
    }
  }

  /** Two maps show the same window exactly when they agree on every key in it. */
  lemma {:induction false} WindowsEqualIff(a: BinMap, b: BinMap, low: int, high: int)
    requires CanonicalMap(a) && CanonicalMap(b) && low >= 0
    ensures Window(a, low, high) == Window(b, low, high) <==>
            forall id: nat :: low <= id <= high ==> FindBin(a, BinKey(id, 0)) == FindBin(b, BinKey(id, 0))
    decreases high - low + 1
  {
    WindowLists(a, low, high);
    WindowLists(b, low, high);
    if Window(a, low, high) == Window(b, low, high) {
      forall id: nat | low <= id <= high
        ensures FindBin(a, BinKey(id, 0)) == FindBin(b, BinKey(id, 0))
      {
        SeenInWindow(a, b, low, high, id);
        SeenInWindow(b, a, low, high, id);
      }
    }
    if forall id: nat :: low <= id <= high ==> FindBin(a, BinKey(id, 0)) == FindBin(b, BinKey(id, 0)) {
      AgreeingWindows(a, b, low, high);
    }
  }

  lemma SeenInWindow(a: BinMap, b: BinMap, low: int, high: int, id: nat)
    requires CanonicalMap(a) && CanonicalMap(b) && low >= 0 && low <= id <= high
    requires Window(a, low, high) == Window(b, low, high)
    requires Lists(Window(a, low, high), a, Within(a, low, high))
    requires Lists(Window(b, low, high), b, Within(b, low, high))
    ensures BinKey(id, 0) in a ==> BinKey(id, 0) in b && b[BinKey(id, 0)] == a[BinKey(id, 0)]
  {
    var key := BinKey(id, 0);
    if key in a {
      assert a[key].bin == key && key in Within(a, low, high);
      assert a[key] in Window(a, low, high);
      assert a[key] in Window(b, low, high);
    }
  }

  lemma {:induction false} AgreeingWindows(a: BinMap, b: BinMap, low: int, high: int)
    requires low >= 0
    requires forall id: nat :: low <= id <= high ==> FindBin(a, BinKey(id, 0)) == FindBin(b, BinKey(id, 0))
    ensures Window(a, low, high) == Window(b, low, high)
    decreases high - low + 1
  {
    if low <= high {
      AgreeingWindows(a, b, low, high - 1);
      assert FindBin(a, BinKey(high, 0)) == FindBin(b, BinKey(high, 0));
    }
  }

  lemma NewInList(r: seq<PoolBin>, bins: BinMap, done: set<BinKey>, key: BinKey)
    requires Lists(r, bins, done) && key in bins && key !in done && bins[key].bin == key
    ensures Lists(InsertBin(r, bins[key]), bins, done + {key})
  {
    InsertBinKeeps(r, bins[key]);
    InsertBinMembers(r, bins[key]);
  }

  /** What the browser's parser has established about a message's bins. */
  ghost predicate Parsed(m: Message) {
    && DistinctKeys(m.update.binReplacements)
    && (forall b :: b in m.update.binReplacements ==> Canonical(b.bin))
    && 0 <= m.update.state.activeId <= UINT24_MAX
  }

  ghost predicate LiveOk(live: Live) {
    && DistinctKeys(live.bins)
    && (forall b :: b in live.bins ==> Canonical(b.bin))
  }

  /** The fold step of the browser. */
  function Apply(current: Live, m: Message): Applied {
    if Refuses(current, m) then Refused
    else if m.cursor == current.cursor then
      if current.lastEvent == Some(m.update.eventId) then Kept else Refused
    else if Stale(current, m) then Refused
    else
      var put := PutAll(if m.update.replaceBinWindow then map[] else ById(current.bins), m.update.binReplacements);
      if put.None? then Refused
      else
        var active := m.update.state.activeId;
        var bounded := Window(put.value, LowEnd(active, current.radius), HighEnd(active, current.radius));
        if |bounded| > current.radius * 2 + 1 then Refused
        else Next(Live(m.update.state, bounded, m.cursor, current.radius, Some(m.update.eventId)))
  }

  /** Applies one message: identity, cursor and revision checks, a map filled by a loop, then the window. */
  method ApplyPoolStateUpdate(current: Live, m: Message) returns (r: Applied)
    requires LiveOk(current) && Parsed(m)
    ensures r == Apply(current, m)
  {
    hide Refuses, Stale, Window, ById, DistinctKeys;
    if Refuses(current, m) {
      return Refused;
    }
    if m.cursor == current.cursor {
      if current.lastEvent == Some(m.update.eventId) {
        return Kept;
      }
      return Refused;
    }
    if Stale(current, m) {
      return Refused;
    }
    var bins: BinMap := if m.update.replaceBinWindow then map[] else ById(current.bins);
    ghost var start := bins;
    ByIdKeys(current.bins);
    var i := 0;
    while i < |m.update.binReplacements|
      invariant i <= |m.update.binReplacements|
      invariant PutAll(start, m.update.binReplacements[..i]) == Some(bins)
      invariant CanonicalMap(bins)
    {
      var b := m.update.binReplacements[i];
      assert m.update.binReplacements[..i + 1][..i] == m.update.binReplacements[..i];
      i := i + 1;
      if b.bin in bins && b.revision < bins[b.bin].revision {
        PutAllStuck(start, m.update.binReplacements, i);
        return Refused;
      }
      bins := bins[b.bin := b];
    }
    assert m.update.binReplacements[..i] == m.update.binReplacements;
    var active := m.update.state.activeId;
    var bounded := Gather(bins, LowEnd(active, current.radius), HighEnd(active, current.radius));
    if |bounded| > current.radius * 2 + 1 {
      return Refused;
    }
    r := Next(Live(m.update.state, bounded, m.cursor, current.radius, Some(m.update.eventId)));
  }

  lemma {:induction false} PutAllStuck(bins: BinMap, replacements: seq<PoolBin>, i: nat)
    requires i <= |replacements| && PutAll(bins, replacements[..i]) == None
    ensures PutAll(bins, replacements) == None
    decreases |replacements| - i
  {
    if i < |replacements| {
      assert replacements[..i + 1][..i] == replacements[..i];
      PutAllStuck(bins, replacements, i + 1);
    } else {
      assert replacements[..i] == replacements;
    }
  }

  lemma {:induction false} ByIdKeys(bins: seq<PoolBin>)
    ensures forall key :: key in ById(bins) ==> ById(bins)[key].bin == key && ById(bins)[key] in bins
    ensures forall b :: b in bins ==> b.bin in ById(bins)
  {
    if bins != [] {
      ByIdKeys(bins[..|bins| - 1]);
      assert bins == bins[..|bins| - 1] + [bins[|bins| - 1]];
    }
  }

  lemma ByIdHolds(bins: seq<PoolBin>)
    requires DistinctKeys(bins)
    ensures forall b :: b in bins <==> b.bin in ById(bins) && ById(bins)[b.bin] == b
  {
    ByIdKeys(bins);
    forall b | b in bins
      ensures ById(bins)[b.bin] == b
    {
      KeyIdentifies(bins, b, ById(bins)[b.bin]);
    }
  }

  lemma KeyIdentifies(bins: seq<PoolBin>, a: PoolBin, b: PoolBin)
    requires DistinctKeys(bins) && a in bins && b in bins && a.bin == b.bin
    ensures a == b
  {
    var i :| 0 <= i < |bins| && bins[i] == a;
    var j :| 0 <= j < |bins| && bins[j] == b;
    assert i == j;
  }

  // The server side of one observation

  ghost predicate DistinctUpdates(updates: seq<BinSnapshot>) {
    forall i, j :: 0 <= i < j < |updates| ==> updates[i].bin != updates[j].bin
  }

  /** Keys that an observation re-sends: all it lists when it replaces the window, else those that changed. */
  ghost function SentKeys(replaced: seq<PoolBin>): set<BinKey> {
    set b | b in replaced :: b.bin
  }

  /** Applying bin updates overlays the replacements, which are filed under distinct keys, are at least as
      new as the bins they replace, and come from the listed updates. */
  ghost predicate Overlays(previous: BinMap, base: BinMap, a: Applying, updates: seq<BinSnapshot>) {
    && DistinctKeys(a.replaced)
    && (forall b :: b in a.replaced ==> (exists i :: 0 <= i < |updates| && updates[i].bin == b.bin))
    && (forall b :: b in a.replaced && b.bin in previous ==> b.revision >= previous[b.bin].revision)
    && (forall b :: b in a.replaced ==> b.bin in a.bins && a.bins[b.bin] == b)
    && (forall key :: key !in SentKeys(a.replaced) ==> FindBin(a.bins, key) == FindBin(base, key))
  }

  lemma {:induction false} ApplyBinsOverlays(pool: Pool, updates: seq<BinSnapshot>, replace: bool, at: At)
    requires DistinctUpdates(updates)
    requires forall key :: key in pool.bins ==> pool.bins[key].bin == key
    ensures Overlays(pool.bins, StartBins(pool, replace).bins,
                     ApplyBins(pool.bins, StartBins(pool, replace), updates, replace, at), updates)
  {
    if updates == [] {
      assert SentKeys([]) == {};
    } else {
      var init, s := updates[..|updates| - 1], updates[|updates| - 1];
      ApplyBinsOverlays(pool, init, replace, at);
      assert forall i :: 0 <= i < |init| ==> init[i].bin != s.bin;
      var a := ApplyBins(pool.bins, StartBins(pool, replace), init, replace, at);
      OverlayStep(pool, a, init, s, replace, at);
      assert updates == init + [s];
    }
  }

  lemma OverlayStep(pool: Pool, a: Applying, init: seq<BinSnapshot>, s: BinSnapshot, replace: bool, at: At)
    requires forall key :: key in pool.bins ==> pool.bins[key].bin == key
    requires Overlays(pool.bins, StartBins(pool, replace).bins, a, init)
    requires forall i :: 0 <= i < |init| ==> init[i].bin != s.bin
    ensures Overlays(pool.bins, StartBins(pool, replace).bins, ApplyBin(pool.bins, a, s, replace, at), init + [s])
  {
    SentOnlyUpdates(a.replaced, init, s.bin);
    var current := FindBin(if replace then pool.bins else a.bins, s.bin);
    assert current == FindBin(pool.bins, s.bin);
    var produced := Produced(current, s, replace, at);
    if produced.Some? {
      OverlayAdd(pool.bins, StartBins(pool, replace).bins, a, init, s, produced.value,
                 IndexBin(a.numeric, produced.value));
    } else {
      ListedMore(a.replaced, init, s);
    }
  }

  lemma SentOnlyUpdates(replaced: seq<PoolBin>, updates: seq<BinSnapshot>, key: BinKey)
    requires forall b :: b in replaced ==> (exists i :: 0 <= i < |updates| && updates[i].bin == b.bin)
    requires forall i :: 0 <= i < |updates| ==> updates[i].bin != key
    ensures key !in SentKeys(replaced)
    ensures forall b :: b in replaced ==> b.bin != key
  {
  }

  lemma ListedMore(replaced: seq<PoolBin>, updates: seq<BinSnapshot>, s: BinSnapshot)
    requires forall b :: b in replaced ==> (exists i :: 0 <= i < |updates| && updates[i].bin == b.bin)
    ensures forall b :: b in replaced ==> (exists i :: 0 <= i < |updates + [s]| && (updates + [s])[i].bin == b.bin)
  {
    forall b | b in replaced
      ensures exists i :: 0 <= i < |updates + [s]| && (updates + [s])[i].bin == b.bin
    {
      var i :| 0 <= i < |updates| && updates[i].bin == b.bin;
      assert (updates + [s])[i].bin == b.bin;
    }
  }

  lemma OverlayAdd(previous: BinMap, base: BinMap, a: Applying, init: seq<BinSnapshot>, s: BinSnapshot, b: PoolBin,
                   numeric: NumericIndex)
    requires Overlays(previous, base, a, init) && b.bin == s.bin
    requires forall x :: x in a.replaced ==> x.bin != b.bin
    requires b.bin in previous ==> b.revision >= previous[b.bin].revision
    ensures Overlays(previous, base, Applying(a.bins[b.bin := b], numeric, a.replaced + [b]), init + [s])
  {
    var replaced := a.replaced + [b];
    assert forall x :: x in replaced <==> x in a.replaced || x == b;
    assert SentKeys(replaced) == SentKeys(a.replaced) + {b.bin};
    ListedMore(a.replaced, init, s);
    assert (init + [s])[|init|].bin == b.bin;
    forall i | 0 <= i < |a.replaced|
      ensures a.replaced[i].bin != b.bin
    {
      assert a.replaced[i] in a.replaced;
    }
  }

  /** Overlaying distinct, not-older replacements never refuses, and yields exactly the overlay. */
  lemma {:induction false} PutAllOverlays(bins: BinMap, replacements: seq<PoolBin>)
    requires DistinctKeys(replacements)
    requires forall b :: b in replacements && b.bin in bins ==> b.revision >= bins[b.bin].revision
    ensures PutAll(bins, replacements).Some?
    ensures Overlaid(bins, replacements, PutAll(bins, replacements).value)
  {
    hide Overlaid, DistinctKeys;
    if replacements == [] {
      NothingOverlaid(bins);
    } else {
      var init, last := replacements[..|replacements| - 1], replacements[|replacements| - 1];
      assert replacements == init + [last];
      LastKey(init, last);
      PutAllOverlays(bins, init);
      OverlaidMore(bins, init, PutAll(bins, init).value, last);
    }
  }

  /** The replacements, and under every other key what was there. */
  ghost predicate Overlaid(bins: BinMap, replacements: seq<PoolBin>, r: BinMap) {
    && (forall b :: b in replacements ==> b.bin in r && r[b.bin] == b)
    && (forall key :: key !in SentKeys(replacements) ==> FindBin(r, key) == FindBin(bins, key))
  }

  lemma NothingOverlaid(bins: BinMap)
    ensures Overlaid(bins, [], bins)
  {
  }

  lemma LastKey(init: seq<PoolBin>, last: PoolBin)
    requires DistinctKeys(init + [last])
    ensures DistinctKeys(init) && last.bin !in SentKeys(init)
  {
    var all := init + [last];
    assert all[|init|] == last && forall i :: 0 <= i < |init| ==> all[i] == init[i];
  }

  lemma OverlaidMore(bins: BinMap, init: seq<PoolBin>, r: BinMap, last: PoolBin)
    requires Overlaid(bins, init, r) && last.bin !in SentKeys(init)
    ensures FindBin(r, last.bin) == FindBin(bins, last.bin)
    ensures Overlaid(bins, init + [last], r[last.bin := last])
  {
    forall b | b in init
      ensures b.bin in SentKeys(init)
    {
    }
    forall key | key !in SentKeys(init + [last])
      ensures FindBin(r[last.bin := last], key) == FindBin(bins, key)
    {
      assert last in init + [last];
      assert forall b :: b in init ==> b in init + [last];
    }
  }
}
