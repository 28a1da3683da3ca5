/** The retained chain: block validation, removal of repeated source events, the identity index, and the
    decision what an incoming block does to the chain. */
module Chain {
  import opened Domain

  const UINT24 := 0xff_ffff
  const UINT16 := 0xffff

  // Validation

  predicate ValidSource(s: Source) {
    && s.sequence >= 0
    && match s.kind
       case Log => s.transaction.Some? && s.logIndex.Some? && s.logIndex.value >= 0
       case BlockSnapshot => s.transaction.None? && s.logIndex.None?
  }

  predicate ValidMarket(m: Market) {
    && (m.priceQuote.Some? ==> m.priceQuote.value > 0)
    && (m.activeId.Some? ==> 0 <= m.activeId.value <= UINT24)
    && (m.binStep.Some? ==> 0 < m.binStep.value <= UINT16)
  }

  predicate ValidObservation(o: Observation) {
    && o.sourceEventIds != []
    && (forall i, j :: 0 <= i < j < |o.sourceEventIds| ==> o.sourceEventIds[i] != o.sourceEventIds[j])
    && (forall i, j :: 0 <= i < j < |o.binUpdates| ==> o.binUpdates[i].bin != o.binUpdates[j].bin)
    && (forall b :: b in o.binUpdates ==> b.bin.id <= UINT24 && b.reserveX >= 0 && b.reserveY >= 0 && b.totalSupply >= 0)
  }

  /** A protocol share that is present is within its total fee. */
  predicate ShareWithin(share: Option<int>, fee: int) {
    share.Some? ==> 0 <= share.value <= fee
  }

  predicate ValidEvent(e: Event, chainId: Option<int>) {
    && (e.source.Some? ==> chainId.Some? && ValidSource(e.source.value))
    && (e.Swap? ==> e.feeX >= 0 && e.feeY >= 0 && ShareWithin(e.protocolFeeX, e.feeX) && ShareWithin(e.protocolFeeY, e.feeY))
    && (e.IsMarket() ==> ValidMarket(e.market))
    && (e.PairSnapshot? && e.poolState.Some? ==>
          && chainId.Some? && e.source.Some? && e.source.value.kind == BlockSnapshot
          && e.market.activeId.Some? && e.market.binStep.Some? && e.market.priceQuote.Some?
          && ValidObservation(e.poolState.value))
  }

  predicate ValidBlock(b: Block) {
    && b.number >= 0 && b.timestamp >= 0
    && (b.chainId.Some? ==> b.chainId.value > 0)
    && forall e :: e in b.events ==> ValidEvent(e, b.chainId)
  }

  // Source identities

  datatype SourceKey = SourceKey(chainId: int, eventId: Id)

  /** The chain id and the events already seen, by source key. */
  datatype Context = Context(chainId: Option<int>, sources: map<SourceKey, Event>)

  const EMPTY_CONTEXT := Context(None, map[])

  function KeyIn(chainId: Option<int>, e: Event): Option<SourceKey> {
    if e.source.None? then None else Some(SourceKey(chainId.GetOr(0), e.source.value.eventId))
  }

  /** Events kept so far, the keys seen in this block, and whether no repeated key changed its payload. */
  datatype Dedup = Dedup(kept: seq<Event>, seen: map<SourceKey, Event>, ok: bool)

  function Keep(d: Dedup, known: map<SourceKey, Event>, key: Option<SourceKey>, e: Event): Dedup {
    if !d.ok then d
    else if key.None? then d.(kept := d.kept + [e])
    else
      var k := key.value;
      if k in d.seen then (if d.seen[k] == e then d else d.(ok := false))
      else if k in known then (if known[k] == e then d else d.(ok := false))
      else Dedup(d.kept + [e], d.seen[k := e], true)
  }

  function DedupAll(chainId: Option<int>, known: map<SourceKey, Event>, events: seq<Event>): Dedup {
    if events == [] then Dedup([], map[], true)
    else
      var last := events[|events| - 1];
      Keep(DedupAll(chainId, known, events[..|events| - 1]), known, KeyIn(chainId, last), last)
  }

  predicate IsObservation(e: Event) {
    e.PairSnapshot? && e.poolState.Some?
  }

  /** A pool observation is the last market event of its pair in the block, hence also the only observation. */
  predicate ObservationsLast(events: seq<Event>) {
    forall i, j :: 0 <= i < j < |events| && IsObservation(events[i]) && events[j].IsMarket() ==>
      events[i].ident.pair != events[j].ident.pair
  }

  /** The block as it is retained, or `None` where the code throws. */
  function Canonicalize(b: Block, ctx: Context): Option<Block> {
    if b.chainId.Some? && ctx.chainId.Some? && b.chainId != ctx.chainId then None
    else
      var d := DedupAll(b.chainId, ctx.sources, b.events);
      if d.ok && ObservationsLast(d.kept) then Some(b.(events := d.kept)) else None
  }

  /** Records a block's identities; `None` where history holds two chains or a changed payload. */
  function AddBlock(ctx: Context, b: Block): Option<Context> {
    if b.chainId.None? then Some(ctx)
    else if ctx.chainId.Some? && ctx.chainId != b.chainId then None
    else
      var sources := AddSources(ctx.sources, b.chainId, b.events);
      if sources.None? then None else Some(Context(b.chainId, sources.value))
  }

  function AddSources(sources: map<SourceKey, Event>, chainId: Option<int>, events: seq<Event>)
    : Option<map<SourceKey, Event>>
  {
    if events == [] then Some(sources)
    else
      var before := AddSources(sources, chainId, events[..|events| - 1]);
      var last := events[|events| - 1];
      var key := KeyIn(chainId, last);
      if before.None? || key.None? then before
      else if key.value in before.value && before.value[key.value] != last then None
      else Some(before.value[key.value := last])
  }

  function ContextOf(blocks: seq<Block>): Option<Context> {
    if blocks == [] then Some(EMPTY_CONTEXT)
    else
      var before := ContextOf(blocks[..|blocks| - 1]);
      if before.None? then None else AddBlock(before.value, blocks[|blocks| - 1])
  }

  // Canonical blocks

  lemma {:induction false} DedupShape(chainId: Option<int>, known: map<SourceKey, Event>, events: seq<Event>)
    ensures var d := DedupAll(chainId, known, events);
            && |d.kept| <= |events|
            && (forall e :: e in d.kept ==> e in events)
            && (forall k :: k in d.seen ==> k !in known)
            && (forall e :: e in d.kept && KeyIn(chainId, e).Some? ==> KeyIn(chainId, e).value in d.seen)
  {
    if events != [] {
      DedupShape(chainId, known, events[..|events| - 1]);
      assert events == events[..|events| - 1] + [events[|events| - 1]];
    }
  }

  /** What removal of repeats keeps, it keeps again: nothing in its result repeats. */
  lemma {:induction false} DedupIdempotent(chainId: Option<int>, known: map<SourceKey, Event>, events: seq<Event>)
    requires DedupAll(chainId, known, events).ok
    ensures var d := DedupAll(chainId, known, events); DedupAll(chainId, known, d.kept) == d
  {
    if events != [] {
      var init, last := events[..|events| - 1], events[|events| - 1];
      DedupIdempotent(chainId, known, init);
      var before := DedupAll(chainId, known, init);
      var d := DedupAll(chainId, known, events);
      if d != before {
        assert d.kept == before.kept + [last];
        assert d.kept[..|d.kept| - 1] == before.kept;
      }
    }
  }

  /** Canonicalizing a retained block again changes nothing. */
  lemma CanonicalizeIdempotent(b: Block, ctx: Context)
    requires Canonicalize(b, ctx).Some?
    ensures Canonicalize(Canonicalize(b, ctx).value, ctx) == Canonicalize(b, ctx)
  {
    DedupIdempotent(b.chainId, ctx.sources, b.events);
  }

  lemma CanonicalizeKeepsValid(b: Block, ctx: Context)
    requires ValidBlock(b) && Canonicalize(b, ctx).Some?
    ensures ValidBlock(Canonicalize(b, ctx).value)
  {
    DedupShape(b.chainId, ctx.sources, b.events);
  }

  /** Source keys of a canonical block are new to the context and appear once in the block. */
  ghost predicate FreshKeys(known: map<SourceKey, Event>, chainId: Option<int>, events: seq<Event>) {
    && (forall i :: 0 <= i < |events| && KeyIn(chainId, events[i]).Some? ==> KeyIn(chainId, events[i]).value !in known)
    && (forall i, j :: 0 <= i < j < |events| && KeyIn(chainId, events[i]).Some? ==>
          KeyIn(chainId, events[i]) != KeyIn(chainId, events[j]))
  }

  lemma DedupStep(chainId: Option<int>, known: map<SourceKey, Event>, init: seq<Event>, last: Event)
    ensures DedupAll(chainId, known, init + [last])
            == Keep(DedupAll(chainId, known, init), known, KeyIn(chainId, last), last)
  {
    hide Keep, KeyIn;
    assert (init + [last])[..|init|] == init;
  }

  /** An event that is kept after all earlier ones has a new key. */
  lemma KeptIsFresh(d: Dedup, known: map<SourceKey, Event>, key: Option<SourceKey>, init: seq<Event>, last: Event)
    requires var r := Keep(d, known, key, last); r.ok && r.kept == init + [last]
    requires |d.kept| <= |init|
    ensures d.ok && d.kept == init && (key.Some? ==> key.value !in known && key.value !in d.seen)
  {
    assert |init + [last]| == |init| + 1;
    assert (d.kept + [last])[..|d.kept|] == d.kept && (init + [last])[..|init|] == init;
  }

  /** When nothing is dropped, the last event's key is new. */
  lemma LastIsFresh(chainId: Option<int>, known: map<SourceKey, Event>, init: seq<Event>, last: Event)
    requires DedupAll(chainId, known, init + [last]).ok && DedupAll(chainId, known, init + [last]).kept == init + [last]
    ensures var before, key := DedupAll(chainId, known, init), KeyIn(chainId, last);
            && before.ok && before.kept == init
            && (key.Some? ==> key.value !in known && key.value !in before.seen)
  {
    hide KeyIn, Keep, DedupAll;
    DedupStep(chainId, known, init, last);
    DedupShape(chainId, known, init);
    KeptIsFresh(DedupAll(chainId, known, init), known, KeyIn(chainId, last), init, last);
  }

  lemma {:induction false} DedupFresh(chainId: Option<int>, known: map<SourceKey, Event>, events: seq<Event>)
    requires DedupAll(chainId, known, events).ok && DedupAll(chainId, known, events).kept == events
    ensures FreshKeys(known, chainId, events)
  {
    hide DedupAll, KeyIn;
    if events != [] {
      var init, last := events[..|events| - 1], events[|events| - 1];
      assert events == init + [last];
      LastIsFresh(chainId, known, init, last);
      DedupShape(chainId, known, init);
      DedupFresh(chainId, known, init);
      forall i | 0 <= i < |init| && KeyIn(chainId, init[i]).Some?
        ensures KeyIn(chainId, init[i]) != KeyIn(chainId, last)
      {
        assert init[i] in init;
      }
    }
  }

  lemma CanonicalFresh(b: Block, ctx: Context)
    requires Canonicalize(b, ctx) == Some(b)
    ensures FreshKeys(ctx.sources, b.chainId, b.events)
  {
    hide DedupAll, KeyIn;
    DedupFresh(b.chainId, ctx.sources, b.events);
  }

  /** Some event has the key. */
  ghost predicate HasKey(chainId: Option<int>, events: seq<Event>, key: SourceKey) {
    exists i :: 0 <= i < |events| && KeyIn(chainId, events[i]) == Some(key)
  }

  lemma HasKeyGrows(chainId: Option<int>, init: seq<Event>, last: Event, key: SourceKey)
    ensures HasKey(chainId, init + [last], key) <==> HasKey(chainId, init, key) || KeyIn(chainId, last) == Some(key)
  {
    hide KeyIn;
    var events := init + [last];
    assert events[|init|] == last;
    if HasKey(chainId, init, key) {
      var i :| 0 <= i < |init| && KeyIn(chainId, init[i]) == Some(key);
      assert KeyIn(chainId, events[i]) == Some(key);
    }
  }

  lemma AddSourcesStep(sources: map<SourceKey, Event>, chainId: Option<int>, init: seq<Event>, last: Event)
    ensures var before, key := AddSources(sources, chainId, init), KeyIn(chainId, last);
            AddSources(sources, chainId, init + [last])
            == if before.None? || key.None? then before
               else if key.value in before.value && before.value[key.value] != last then None
               else Some(before.value[key.value := last])
  {
    hide KeyIn;
    assert (init + [last])[..|init|] == init;
  }

  lemma NoSources(sources: map<SourceKey, Event>, chainId: Option<int>)
    ensures AddSources(sources, chainId, []) == Some(sources)
  {
  }

  lemma FreshParts(sources: map<SourceKey, Event>, chainId: Option<int>, init: seq<Event>, last: Event)
    requires FreshKeys(sources, chainId, init + [last])
    ensures FreshKeys(sources, chainId, init)
    ensures var key := KeyIn(chainId, last);
            key.Some? ==> key.value !in sources && !HasKey(chainId, init, key.value)
  {
    hide KeyIn;
    var events := init + [last];
    assert events[|init|] == last && forall i :: 0 <= i < |init| ==> events[i] == init[i];
  }

  lemma {:induction false} AddFreshSources(sources: map<SourceKey, Event>, chainId: Option<int>, events: seq<Event>)
    requires FreshKeys(sources, chainId, events)
    ensures var r := AddSources(sources, chainId, events);
            r.Some? && forall key :: key in r.value <==> key in sources || HasKey(chainId, events, key)
  {
    hide AddSources, KeyIn, FreshKeys, HasKey;
    if events == [] {
      NoSources(sources, chainId);
      NoKeys(chainId);
    } else {
      var init, last := events[..|events| - 1], events[|events| - 1];
      assert events == init + [last];
      FreshParts(sources, chainId, init, last);
      AddFreshSources(sources, chainId, init);
      AddSourcesStep(sources, chainId, init, last);
      forall key
        ensures HasKey(chainId, events, key) <==> HasKey(chainId, init, key) || KeyIn(chainId, last) == Some(key)
      {
        HasKeyGrows(chainId, init, last, key);
      }
    }
  }

  lemma NoKeys(chainId: Option<int>)
    ensures forall key :: !HasKey(chainId, [], key)
  {
  }

  // The canonical chain

  ghost predicate Extends(init: seq<Block>, b: Block) {
    && ValidBlock(b)
    && ContextOf(init).Some? && Canonicalize(b, ContextOf(init).value) == Some(b)
    && (init != [] ==> b.number == init[|init| - 1].number + 1 && b.parentHash == init[|init| - 1].hash)
    && (forall i :: 0 <= i < |init| ==> init[i].hash != b.hash)
  }

  /** Blocks are valid and canonical in their context, linked by hash with consecutive numbers, and no hash
      repeats. */
  ghost predicate CanonicalChain(blocks: seq<Block>) {
    blocks == [] || (CanonicalChain(blocks[..|blocks| - 1]) && Extends(blocks[..|blocks| - 1], blocks[|blocks| - 1]))
  }

  lemma {:induction false} PrefixCanonical(blocks: seq<Block>, n: nat)
    requires CanonicalChain(blocks) && n <= |blocks|
    ensures CanonicalChain(blocks[..n])
    ensures n < |blocks| ==> Extends(blocks[..n], blocks[n])
  {
    if n < |blocks| {
      var init := blocks[..|blocks| - 1];
      if n < |init| {
        PrefixCanonical(init, n);
        assert init[..n] == blocks[..n];
      } else {
        assert blocks[..n] == init;
      }
    } else {
      assert blocks[..n] == blocks;
    }
  }

  lemma CanonicalAppend(blocks: seq<Block>, b: Block)
    requires CanonicalChain(blocks) && Extends(blocks, b)
    ensures CanonicalChain(blocks + [b])
  {
    assert (blocks + [b])[..|blocks|] == blocks;
  }

  /** The identity index of a canonical chain never conflicts. */
  lemma ContextExists(blocks: seq<Block>)
    requires CanonicalChain(blocks)
    ensures ContextOf(blocks).Some?
  {
    if blocks != [] {
      AddBlockKeys(ContextOf(blocks[..|blocks| - 1]).value, blocks[|blocks| - 1]);
    }
  }

  /** The event at position (i, a) has the given source key. */
  ghost predicate OccursAt(blocks: seq<Block>, i: int, a: int, key: SourceKey) {
    && 0 <= i < |blocks| && 0 <= a < |blocks[i].events|
    && KeyIn(blocks[i].chainId, blocks[i].events[a]) == Some(key)
  }

  /** The index lists exactly the source keys that occur in the chain. */
  lemma {:induction false} ContextListsOccurrences(blocks: seq<Block>)
    requires CanonicalChain(blocks)
    ensures ContextOf(blocks).Some?
    ensures forall key :: key in ContextOf(blocks).value.sources <==> exists i, a :: OccursAt(blocks, i, a, key)
  {
    if blocks != [] {
      var init, b := blocks[..|blocks| - 1], blocks[|blocks| - 1];
      ContextListsOccurrences(init);
      ContextExists(blocks);
      AddBlockKeys(ContextOf(init).value, b);
      assert blocks == init + [b];
      forall key
        ensures key in ContextOf(blocks).value.sources <==> exists i, a :: OccursAt(blocks, i, a, key)
      {
        OccurrencesGrow(init, b, key);
      }
    }
  }

  ghost predicate InBlock(b: Block, key: SourceKey) {
    HasKey(b.chainId, b.events, key)
  }

  /** Recording a canonical block adds exactly its own keys. */
  lemma AddBlockKeys(ctx: Context, b: Block)
    requires ValidBlock(b) && Canonicalize(b, ctx) == Some(b)
    ensures AddBlock(ctx, b).Some?
    ensures forall key :: key in AddBlock(ctx, b).value.sources <==> key in ctx.sources || InBlock(b, key)
  {
    CanonicalFresh(b, ctx);
    AddFreshSources(ctx.sources, b.chainId, b.events);
    if b.chainId.None? {
      forall a | 0 <= a < |b.events|
        ensures KeyIn(b.chainId, b.events[a]).None?
      {
        assert b.events[a] in b.events;
      }
    }
  }

  lemma OccurrencesGrow(init: seq<Block>, b: Block, key: SourceKey)
    ensures (exists i, a :: OccursAt(init + [b], i, a, key)) <==>
              (exists i, a :: OccursAt(init, i, a, key))
              || InBlock(b, key)
  {
    var blocks := init + [b];
    if exists i, a :: OccursAt(init, i, a, key) {
      var i, a :| OccursAt(init, i, a, key);
      assert OccursAt(blocks, i, a, key);
    }
    if InBlock(b, key) {
      var a :| 0 <= a < |b.events| && KeyIn(b.chainId, b.events[a]) == Some(key);
      assert OccursAt(blocks, |init|, a, key);
    }
    if exists i, a :: OccursAt(blocks, i, a, key) {
      var i, a :| OccursAt(blocks, i, a, key);
      if i < |init| {
        assert OccursAt(init, i, a, key);
      }
    }
  }

  /** Main result on identities: across a canonical chain each (chain, source event id) occurs at most once. */
  lemma {:induction false} SourcesUnique(blocks: seq<Block>, i: int, a: int, j: int, c: int, key: SourceKey)
    requires CanonicalChain(blocks)
    requires OccursAt(blocks, i, a, key) && OccursAt(blocks, j, c, key)
    ensures i == j && a == c
  {
    hide Canonicalize, ContextOf, ValidBlock, KeyIn;
    var init, b := blocks[..|blocks| - 1], blocks[|blocks| - 1];
    ContextListsOccurrences(init);
    var ctx := ContextOf(init).value;
    CanonicalFresh(b, ctx);
    assert i < |init| ==> OccursAt(init, i, a, key);
    assert j < |init| ==> OccursAt(init, j, c, key);
    if key in ctx.sources {
      assert i < |init| && j < |init|;
      SourcesUnique(init, i, a, j, c, key);
    } else {
      assert i == j == |init|;
    }
  }

  /** A chain whose head's events are replaced by canonical ones is canonical. */
  lemma ReplaceHead(blocks: seq<Block>, candidate: Block)
    requires CanonicalChain(blocks) && blocks != []
    requires var head := blocks[|blocks| - 1]; candidate == head.(events := candidate.events)
    requires ValidBlock(candidate)
    requires Canonicalize(candidate, ContextOf(blocks[..|blocks| - 1]).value).Some?
    ensures var init := blocks[..|blocks| - 1];
            CanonicalChain(init + [Canonicalize(candidate, ContextOf(init).value).value])
  {
    var init := blocks[..|blocks| - 1];
    var ctx := ContextOf(init).value;
    CanonicalizeIdempotent(candidate, ctx);
    CanonicalizeKeepsValid(candidate, ctx);
    CanonicalAppend(init, Canonicalize(candidate, ctx).value);
  }
}
