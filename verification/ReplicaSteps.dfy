/** What the browser does with one server message, told from the snapshot it shows and the message. */
module ReplicaSteps {
  import opened Domain
  import opened PoolState
  import opened Replica

  /** The message is about another pool, or its pair changed what never changes. */
  predicate OtherPool(current: Live, m: Message) {
    var s, now := m.update.state, current.state;
    !(&& s.chainId == now.chainId && s.ident.pair == now.ident.pair && s.binStep == now.binStep
      && s.ident.tokenX == now.ident.tokenX && s.ident.decimalsX == now.ident.decimalsX
      && s.ident.tokenY == now.ident.tokenY && s.ident.decimalsY == now.ident.decimalsY)
  }

  /** The message is sent later but tells of an earlier or of a different past. */
  predicate Contradicts(current: Live, m: Message) {
    var s, now := m.update.state, current.state;
    || s.asOfBlock < now.asOfBlock
    || (s.asOfBlock == now.asOfBlock && s.asOfHash != now.asOfHash)
    || s.revision < now.revision
    || (s.revision == now.revision && current.lastEvent != Some(m.update.eventId))
  }

  /** A bin that stays shown would go back to an earlier revision. */
  predicate BinGoesBack(current: Live, m: Message) {
    && !m.update.replaceBinWindow
    && exists shown, b :: shown in current.bins && b in m.update.binReplacements
                          && b.bin == shown.bin && b.revision < shown.revision
  }

  predicate Shows(live: Live, id: int) {
    live.state.activeId - live.radius <= id <= live.state.activeId + live.radius
  }

  /** The bin is sent with the message, or was shown and is neither dropped nor sent anew. */
  predicate Remains(current: Live, m: Message, b: PoolBin) {
    || b in m.update.binReplacements
    || (&& !m.update.replaceBinWindow && b in current.bins
        && forall x :: x in m.update.binReplacements ==> x.bin != b.bin)
  }

  /** Putting replacements into a map. */
  ghost predicate Put(bins: BinMap, replacements: seq<PoolBin>, r: Option<BinMap>) {
    && (r.None? <==> exists b :: b in replacements && b.bin in bins && b.revision < bins[b.bin].revision)
    && (r.Some? ==> forall b :: b in replacements ==> FindBin(r.value, b.bin) == Some(b))
    && (r.Some? ==> forall key :: (forall b :: b in replacements ==> b.bin != key) ==>
          FindBin(r.value, key) == FindBin(bins, key))
  }

  lemma {:induction false} PutAllIs(bins: BinMap, replacements: seq<PoolBin>)
    requires DistinctKeys(replacements)
    ensures Put(bins, replacements, PutAll(bins, replacements))
  {
    if replacements != [] {
      var init, last := replacements[..|replacements| - 1], replacements[|replacements| - 1];
      PutAllIs(bins, init);
      LastIsNew(init, last, replacements);
      PutOneMore(bins, init, last, PutAll(bins, init), replacements);
    }
  }

  lemma LastIsNew(init: seq<PoolBin>, last: PoolBin, replacements: seq<PoolBin>)
    requires replacements == init + [last] && DistinctKeys(replacements)
    ensures forall b :: b in init ==> b.bin != last.bin
  {
    forall b | b in init ensures b.bin != last.bin {
      var i :| 0 <= i < |init| && init[i] == b;
      assert replacements[i] == b && replacements[|init|] == last;
    }
  }

  lemma PutOneMore(bins: BinMap, init: seq<PoolBin>, last: PoolBin, r: Option<BinMap>, all: seq<PoolBin>)
    requires Put(bins, init, r) && all == init + [last] && forall b :: b in init ==> b.bin != last.bin
    ensures Put(bins, all, if r.None? || (last.bin in r.value && last.revision < r.value[last.bin].revision) then None
                           else Some(r.value[last.bin := last]))
  {
    assert forall b :: b in all <==> b in init || b == last;
    if r.Some? {
      assert FindBin(r.value, last.bin) == FindBin(bins, last.bin);
    }
  }

  lemma RegressesIff(current: Live, m: Message)
    requires LiveOk(current) && Parsed(m)
    ensures var start := if m.update.replaceBinWindow then map[] else ById(current.bins);
            PutAll(start, m.update.binReplacements).None? <==> BinGoesBack(current, m)
  {
    PutAllIs(if m.update.replaceBinWindow then map[] else ById(current.bins), m.update.binReplacements);
    if !m.update.replaceBinWindow {
      ByIdHolds(current.bins);
      ByIdKeys(current.bins);
    }
  }

  /** After a message the map holds exactly what remains, under canonical keys. */
  lemma RemainsIff(current: Live, m: Message, b: PoolBin)
    requires LiveOk(current) && Parsed(m)
    requires PutAll(if m.update.replaceBinWindow then map[] else ById(current.bins), m.update.binReplacements).Some?
    ensures var put := PutAll(if m.update.replaceBinWindow then map[] else ById(current.bins),
                              m.update.binReplacements).value;
            FindBin(put, b.bin) == Some(b) <==> Remains(current, m, b)
  {
    var start := if m.update.replaceBinWindow then map[] else ById(current.bins);
    PutAllIs(start, m.update.binReplacements);
    if !m.update.replaceBinWindow {
      ByIdHolds(current.bins);
    }
    if x :| x in m.update.binReplacements && x.bin == b.bin {
      assert FindBin(PutAll(start, m.update.binReplacements).value, b.bin) == Some(x);
    }
  }

  lemma PutCanonical(current: Live, m: Message)
    requires LiveOk(current) && Parsed(m)
    requires PutAll(if m.update.replaceBinWindow then map[] else ById(current.bins), m.update.binReplacements).Some?
    ensures CanonicalMap(PutAll(if m.update.replaceBinWindow then map[] else ById(current.bins),
                                m.update.binReplacements).value)
  {
    var start := if m.update.replaceBinWindow then map[] else ById(current.bins);
    var put := PutAll(start, m.update.binReplacements).value;
    PutAllIs(start, m.update.binReplacements);
    ByIdKeys(current.bins);
    forall key | key in put ensures Canonical(key) && put[key].bin == key {
      if x :| x in m.update.binReplacements && x.bin == key {
        assert FindBin(put, key) == Some(x);
      } else {
        assert FindBin(put, key) == FindBin(start, key);
      }
    }
  }

  /** Main result on one message: when it is refused, when it is a repeat, and what is shown after any other. */
  lemma ApplyIs(current: Live, m: Message)
    requires LiveOk(current) && Parsed(m)
    ensures var r := Apply(current, m);
            && (r == Refused <==>
                  || OtherPool(current, m)
                  || m.cursor < current.cursor
                  || (m.cursor == current.cursor && current.lastEvent != Some(m.update.eventId))
                  || (m.cursor > current.cursor && (Contradicts(current, m) || BinGoesBack(current, m))))
            && (r == Kept <==>
                  !OtherPool(current, m) && m.cursor == current.cursor && current.lastEvent == Some(m.update.eventId))
            && (r.Next? ==>
                  && r.live == Live(m.update.state, r.live.bins, m.cursor, current.radius, Some(m.update.eventId))
                  && SortedById(r.live.bins) && DistinctKeys(r.live.bins)
                  && forall b :: b in r.live.bins <==> Shows(r.live, b.bin.id) && Remains(current, m, b))
  {
    hide PutAll, BinGoesBack, Remains;
    RegressesIff(current, m);
    if m.cursor > current.cursor && !BinGoesBack(current, m) {
      var put := PutAll(if m.update.replaceBinWindow then map[] else ById(current.bins),
                        m.update.binReplacements).value;
      var active := m.update.state.activeId;
      var low, high := LowEnd(active, current.radius), HighEnd(active, current.radius);
      PutCanonical(current, m);
      WindowLists(put, low, high);
      WindowBounded(put, low, high);
      forall b: PoolBin
        ensures FindBin(put, b.bin) == Some(b) <==> Remains(current, m, b)
      {
        RemainsIff(current, m, b);
      }
    }
  }
}
