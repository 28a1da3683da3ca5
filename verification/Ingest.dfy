/** What an incoming block does to the retained chain, and the loops that decide it. */
module Ingest {
  import opened Domain
  import opened Chain

  // Payload comparison

  predicate SnapshotBefore(a: Event, b: Event)
    requires a.PositionSnapshot? && b.PositionSnapshot?
  {
    a.owner < b.owner || (a.owner == b.owner && a.ident.pair <= b.ident.pair)
  }

  function Snapshots(events: seq<Event>): (r: seq<Event>)
    ensures forall e :: e in r ==> e.PositionSnapshot?
  {
    if events == [] then []
    else
      var rest := Snapshots(events[..|events| - 1]);
      if events[|events| - 1].PositionSnapshot? then rest + [events[|events| - 1]] else rest
  }

  function NonSnapshots(events: seq<Event>): seq<Event> {
    if events == [] then []
    else
      var rest := NonSnapshots(events[..|events| - 1]);
      if events[|events| - 1].PositionSnapshot? then rest else rest + [events[|events| - 1]]
  }

  function InsertSnapshot(sorted: seq<Event>, e: Event): (r: seq<Event>)
    requires e.PositionSnapshot? && forall x :: x in sorted ==> x.PositionSnapshot?
    ensures forall x :: x in r ==> x.PositionSnapshot?
  {
    if sorted == [] || SnapshotBefore(sorted[|sorted| - 1], e) then sorted + [e]
    else InsertSnapshot(sorted[..|sorted| - 1], e) + [sorted[|sorted| - 1]]
  }

  function SortSnapshots(snapshots: seq<Event>): (r: seq<Event>)
    requires forall x :: x in snapshots ==> x.PositionSnapshot?
    ensures forall x :: x in r ==> x.PositionSnapshot?
  {
    if snapshots == [] then []
    else InsertSnapshot(SortSnapshots(snapshots[..|snapshots| - 1]), snapshots[|snapshots| - 1])
  }

  /** A block with its position snapshots moved behind the other events and sorted by owner and pair. */
  function Comparable(b: Block): Block {
    b.(events := NonSnapshots(b.events) + SortSnapshots(Snapshots(b.events)))
  }

  predicate HasSnapshotFor(events: seq<Event>, owner: Id, pair: Id) {
    exists e :: e in events && e.PositionSnapshot? && e.owner == owner && e.ident.pair == pair
  }

  /** Snapshots of the retained block that the incoming block does not carry. */
  function Missing(incoming: seq<Event>, existing: seq<Event>): seq<Event> {
    if existing == [] then []
    else
      var rest := Missing(incoming, existing[..|existing| - 1]);
      var last := existing[|existing| - 1];
      if last.PositionSnapshot? && !HasSnapshotFor(incoming, last.owner, last.ident.pair) then rest + [last] else rest
  }

  function WithMissing(incoming: Block, existing: Block): Block {
    incoming.(events := incoming.events + Missing(incoming.events, existing.events))
  }

  predicate SamePayload(existing: Block, incoming: Block) {
    Comparable(existing) == Comparable(incoming)
  }

  // The decision

  function HashIndex(blocks: seq<Block>, hash: Id): (r: Option<nat>)
    ensures r.Some? ==> r.value < |blocks| && blocks[r.value].hash == hash
    ensures r.None? ==> forall i :: 0 <= i < |blocks| ==> blocks[i].hash != hash
  {
    if blocks == [] then None
    else
      var earlier := HashIndex(blocks[..|blocks| - 1], hash);
      if earlier.Some? then earlier
      else if blocks[|blocks| - 1].hash == hash then Some(|blocks| - 1)
      else None
  }

  datatype Refusal = Malformed | NumberChanged | PayloadChanged | IdentityConflict | BeyondHistory | NumberGap

  datatype Plan = Refuse(why: Refusal) | AlreadyKnown | Append(block: Block) | Fork(parent: nat, block: Block)

  function CanonicalIn(blocks: seq<Block>, b: Block): Option<Block> {
    var ctx := ContextOf(blocks);
    if ctx.None? then None else Canonicalize(b, ctx.value)
  }

  /** Whether a block claims to come right above the head, or is the first. */
  predicate Follows(blocks: seq<Block>, b: Block) {
    blocks == [] || (b.number == blocks[|blocks| - 1].number + 1 && b.parentHash == blocks[|blocks| - 1].hash)
  }

  function PlanFor(blocks: seq<Block>, b: Block): Plan {
    if !ValidBlock(b) then Refuse(Malformed)
    else
      var existing := HashIndex(blocks, b.hash);
      if existing.Some? then PlanForKnown(blocks, b, existing.value)
      else if Follows(blocks, b) then PlanAppend(blocks, b)
      else
        var parent := HashIndex(blocks, b.parentHash);
        if parent.None? then Refuse(BeyondHistory)
        else if b.number != blocks[parent.value].number + 1 then Refuse(NumberGap)
        else
          var incoming := CanonicalIn(blocks[..parent.value + 1], b);
          if incoming.None? then Refuse(IdentityConflict) else Fork(parent.value, incoming.value)
  }

  function PlanAppend(blocks: seq<Block>, b: Block): Plan {
    var incoming := CanonicalIn(blocks, b);
    if incoming.None? then Refuse(IdentityConflict) else Append(incoming.value)
  }

  function PlanForKnown(blocks: seq<Block>, b: Block, i: nat): Plan
    requires i < |blocks|
  {
    if blocks[i].number != b.number then Refuse(NumberChanged)
    else
      var incoming := CanonicalIn(blocks[..i], b);
      if incoming.None? then Refuse(IdentityConflict)
      else if SamePayload(blocks[i], WithMissing(incoming.value, blocks[i])) then AlreadyKnown
      else Refuse(PayloadChanged)
  }

  /** The plan, case by case; a fork starts below the head. */
  lemma PlanCases(blocks: seq<Block>, b: Block)
    ensures !ValidBlock(b) ==> PlanFor(blocks, b) == Refuse(Malformed)
    ensures ValidBlock(b) && HashIndex(blocks, b.hash).Some? ==>
              var plan := PlanForKnown(blocks, b, HashIndex(blocks, b.hash).value);
              PlanFor(blocks, b) == plan && (plan.Refuse? || plan.AlreadyKnown?)
    ensures ValidBlock(b) && HashIndex(blocks, b.hash).None? && Follows(blocks, b) ==>
              PlanFor(blocks, b) == PlanAppend(blocks, b)
    ensures ValidBlock(b) && HashIndex(blocks, b.hash).None? && !Follows(blocks, b) ==>
              var parent := HashIndex(blocks, b.parentHash);
              if parent.None? then PlanFor(blocks, b) == Refuse(BeyondHistory)
              else if b.number != blocks[parent.value].number + 1 then PlanFor(blocks, b) == Refuse(NumberGap)
              else
                var incoming := CanonicalIn(blocks[..parent.value + 1], b);
                && parent.value < |blocks| - 1
                && PlanFor(blocks, b)
                   == if incoming.None? then Refuse(IdentityConflict) else Fork(parent.value, incoming.value)
  {
    hide ValidBlock, HashIndex, CanonicalIn, SamePayload, WithMissing;
  }

  /** The chain once a plan has been carried out. */
  function Retained(blocks: seq<Block>, plan: Plan): seq<Block> {
    match plan
    case Append(b) => blocks + [b]
    case Fork(parent, b) => if parent < |blocks| then blocks[..parent + 1] + [b] else blocks
    case _ => blocks
  }

  /** The chain without the block that a plan brought in. */
  function Below(blocks: seq<Block>, plan: Plan): seq<Block> {
    if plan.Fork? && plan.parent < |blocks| then blocks[..plan.parent + 1] else blocks
  }

  /** Main result on the chain: every plan keeps the retained blocks valid, canonical, hash-linked with
      consecutive numbers and distinct hashes. */
  lemma PlanKeepsChain(blocks: seq<Block>, b: Block)
    requires CanonicalChain(blocks)
    ensures CanonicalChain(Retained(blocks, PlanFor(blocks, b)))
  {
    var plan := PlanFor(blocks, b);
    if plan.Append? {
      AppendExtends(blocks, b);
      CanonicalAppend(blocks, plan.block);
    } else if plan.Fork? {
      PrefixCanonical(blocks, plan.parent + 1);
      ForkExtends(blocks, b);
      CanonicalAppend(blocks[..plan.parent + 1], plan.block);
    }
  }

  lemma AppendExtends(blocks: seq<Block>, b: Block)
    requires PlanFor(blocks, b).Append?
    ensures Extends(blocks, PlanFor(blocks, b).block)
  {
    ExtendsBy(blocks, b);
  }

  lemma ForkExtends(blocks: seq<Block>, b: Block)
    requires PlanFor(blocks, b).Fork?
    ensures var plan := PlanFor(blocks, b);
            plan.parent < |blocks| && Extends(blocks[..plan.parent + 1], plan.block)
  {
    var parent := PlanFor(blocks, b).parent;
    var kept := blocks[..parent + 1];
    assert kept[|kept| - 1] == blocks[parent];
    assert forall i :: 0 <= i < |kept| ==> kept[i] == blocks[i];
    ExtendsBy(kept, b);
  }

  lemma ExtendsBy(init: seq<Block>, b: Block)
    requires ValidBlock(b) && CanonicalIn(init, b).Some?
    requires init != [] ==> b.number == init[|init| - 1].number + 1 && b.parentHash == init[|init| - 1].hash
    requires forall i :: 0 <= i < |init| ==> init[i].hash != b.hash
    ensures Extends(init, CanonicalIn(init, b).value)
  {
    CanonicalizeIdempotent(b, ContextOf(init).value);
    CanonicalizeKeepsValid(b, ContextOf(init).value);
  }

  // Re-delivery

  lemma {:induction false} MissingNothing(incoming: seq<Event>, existing: seq<Event>)
    requires forall e :: e in existing ==> e in incoming
    ensures Missing(incoming, existing) == []
  {
    if existing != [] {
      var init, last := existing[..|existing| - 1], existing[|existing| - 1];
      assert existing == init + [last];
      MissingNothing(incoming, init);
      assert last in incoming;
    }
  }

  lemma {:induction false} HashIndexOfLast(blocks: seq<Block>, b: Block)
    requires forall i :: 0 <= i < |blocks| ==> blocks[i].hash != b.hash
    ensures HashIndex(blocks + [b], b.hash) == Some(|blocks|)
  {
    assert (blocks + [b])[..|blocks|] == blocks;
    var earlier := HashIndex(blocks, b.hash);
  }

  /** Delivering an appended block again is recognised as known: the engine answers "duplicate" without
      looking at derived state. */
  lemma AppendRedelivered(blocks: seq<Block>, b: Block, c: Block)
    requires PlanFor(blocks, b) == Append(c)
    ensures PlanFor(blocks + [c], b) == AlreadyKnown
  {
    AppendCame(blocks, b, c);
    Redelivered(blocks, c, b);
  }

  /** Likewise for a block that replaced a suffix of the chain. */
  lemma ForkRedelivered(blocks: seq<Block>, b: Block, parent: nat, c: Block)
    requires PlanFor(blocks, b) == Fork(parent, c)
    ensures parent < |blocks| && PlanFor(blocks[..parent + 1] + [c], b) == AlreadyKnown
  {
    ForkCame(blocks, b, parent, c);
    Redelivered(blocks[..parent + 1], c, b);
  }

  lemma AppendCame(blocks: seq<Block>, b: Block, c: Block)
    requires PlanFor(blocks, b) == Append(c)
    ensures ValidBlock(b) && CanonicalIn(blocks, b) == Some(c)
    ensures forall i :: 0 <= i < |blocks| ==> blocks[i].hash != b.hash
  {
  }

  lemma ForkCame(blocks: seq<Block>, b: Block, parent: nat, c: Block)
    requires PlanFor(blocks, b) == Fork(parent, c)
    ensures parent < |blocks|
    ensures ValidBlock(b) && CanonicalIn(blocks[..parent + 1], b) == Some(c)
    ensures forall i :: 0 <= i < |blocks| ==> blocks[i].hash != b.hash
  {
  }

  lemma Redelivered(kept: seq<Block>, c: Block, b: Block)
    requires ValidBlock(b) && CanonicalIn(kept, b) == Some(c)
    requires forall i :: 0 <= i < |kept| ==> kept[i].hash != b.hash
    ensures PlanFor(kept + [c], b) == AlreadyKnown
  {
    var blocks := kept + [c];
    HashIndexOfLast(kept, c);
    assert blocks[..|kept|] == kept && blocks[|kept|] == c;
    WithMissingSelf(c);
  }

  lemma WithMissingSelf(c: Block)
    ensures WithMissing(c, c) == c
  {
    MissingNothing(c.events, c.events);
    assert c.events + [] == c.events;
  }

  /** A retained block is recognised when it is offered again in its retained form. */
  lemma RetainedAppends(blocks: seq<Block>, n: nat)
    requires CanonicalChain(blocks) && n < |blocks|
    ensures PlanFor(blocks[..n], blocks[n]) == Append(blocks[n])
  {
    PrefixCanonical(blocks, n);
    var init := blocks[..n];
    assert HashIndex(init, blocks[n].hash).None?;
  }

  // The loops

  /** Removes repeated source events and checks pool observations. */
  method CanonicalizeBlock(b: Block, ctx: Context) returns (r: Option<Block>)
    ensures r == Canonicalize(b, ctx)
  {
    if b.chainId.Some? && ctx.chainId.Some? && b.chainId != ctx.chainId {
      return None;
    }
    var seen: map<SourceKey, Event> := map[];
    var events: seq<Event> := [];
    var i := 0;
    while i < |b.events|
      invariant i <= |b.events|
      invariant DedupAll(b.chainId, ctx.sources, b.events[..i]) == Dedup(events, seen, true)
    {
      var event := b.events[i];
      assert b.events[..i + 1][..i] == b.events[..i];
      i := i + 1;
      if event.source.None? {
        events := events + [event];
      } else {
        var key := SourceKey(b.chainId.GetOr(0), event.source.value.eventId);
        var previous := if key in seen then Some(seen[key])
                        else if key in ctx.sources then Some(ctx.sources[key]) else None;
        if previous.Some? {
          if previous.value != event {
            DedupStuck(b.chainId, ctx.sources, b.events, i);
            return None;
          }
        } else {
          seen := seen[key := event];
          events := events + [event];
        }
      }
    }
    assert b.events[..i] == b.events;
    var final := ObservationsAreLast(events);
    r := if final then Some(b.(events := events)) else None;
  }

  lemma {:induction false} DedupStuck(chainId: Option<int>, known: map<SourceKey, Event>, events: seq<Event>, i: nat)
    requires i <= |events| && !DedupAll(chainId, known, events[..i]).ok
    ensures !DedupAll(chainId, known, events).ok
    decreases |events| - i
  {
    if i < |events| {
      assert events[..i + 1][..i] == events[..i];
      DedupStuck(chainId, known, events, i + 1);
    } else {
      assert events[..i] == events;
    }
  }

  /** Looks, behind every observation, for a later market event of its pair. */
  method ObservationsAreLast(events: seq<Event>) returns (ok: bool)
    ensures ok == ObservationsLast(events)
  {
    var i := 0;
    while i < |events|
      invariant i <= |events|
      invariant forall a, b :: 0 <= a < i && a < b < |events| && IsObservation(events[a]) && events[b].IsMarket() ==>
                  events[a].ident.pair != events[b].ident.pair
    {
      if IsObservation(events[i]) {
        var j := i + 1;
        while j < |events|
          invariant i < j <= |events|
          invariant forall b :: i < b < j && events[b].IsMarket() ==> events[i].ident.pair != events[b].ident.pair
        {
          if events[j].IsMarket() && events[j].ident.pair == events[i].ident.pair {
            return false;
          }
          j := j + 1;
        }
      }
      i := i + 1;
    }
    ok := true;
  }

  /** Recomputes the identity index from the blocks. */
  method CanonicalEventContext(blocks: seq<Block>) returns (r: Option<Context>)
    ensures r == ContextOf(blocks)
  {
    var ctx := EMPTY_CONTEXT;
    var i := 0;
    while i < |blocks|
      invariant i <= |blocks|
      invariant ContextOf(blocks[..i]) == Some(ctx)
    {
      var block := blocks[i];
      assert blocks[..i + 1][..i] == blocks[..i];
      i := i + 1;
      var added := RecordIdentities(ctx, block);
      if added.None? {
        ContextStuck(blocks, i);
        return None;
      }
      ctx := added.value;
    }
    assert blocks[..i] == blocks;
    r := Some(ctx);
  }

  lemma {:induction false} ContextStuck(blocks: seq<Block>, i: nat)
    requires i <= |blocks| && ContextOf(blocks[..i]) == None
    ensures ContextOf(blocks) == None
    decreases |blocks| - i
  {
    if i < |blocks| {
      assert blocks[..i + 1][..i] == blocks[..i];
      ContextStuck(blocks, i + 1);
    } else {
      assert blocks[..i] == blocks;
    }
  }

  method RecordIdentities(ctx: Context, b: Block) returns (r: Option<Context>)
    ensures r == AddBlock(ctx, b)
  {
    if b.chainId.None? {
      return Some(ctx);
    }
    if ctx.chainId.Some? && ctx.chainId != b.chainId {
      return None;
    }
    var sources := ctx.sources;
    var i := 0;
    while i < |b.events|
      invariant i <= |b.events|
      invariant AddSources(ctx.sources, b.chainId, b.events[..i]) == Some(sources)
    {
      var event := b.events[i];
      assert b.events[..i + 1][..i] == b.events[..i];
      i := i + 1;
      if event.source.Some? {
        var key := SourceKey(b.chainId.value, event.source.value.eventId);
        if key in sources && sources[key] != event {
          SourcesStuck(ctx.sources, b.chainId, b.events, i);
          return None;
        }
        sources := sources[key := event];
      }
    }
    assert b.events[..i] == b.events;
    r := Some(Context(b.chainId, sources));
  }

  lemma SameChain(ctx: Context, b: Block)
    requires Canonicalize(b, ctx) == Some(b)
    ensures b.chainId.Some? ==> ctx.chainId.Or(b.chainId) == b.chainId
  {
  }

  /** Records an appended block's identities without looking for conflicts. */
  method RecordAppended(ctx: Context, b: Block) returns (r: Context)
    requires AddBlock(ctx, b).Some? && (b.chainId.Some? ==> ctx.chainId.Or(b.chainId) == b.chainId)
    ensures Some(r) == AddBlock(ctx, b)
  {
    if b.chainId.None? {
      return ctx;
    }
    var sources := ctx.sources;
    var i := 0;
    while i < |b.events|
      invariant i <= |b.events|
      invariant AddSources(ctx.sources, b.chainId, b.events[..i]) == Some(sources)
    {
      var event := b.events[i];
      assert b.events[..i + 1][..i] == b.events[..i];
      i := i + 1;
      if event.source.Some? {
        ghost var key := SourceKey(b.chainId.value, event.source.value.eventId);
        if key in sources && sources[key] != event {
          SourcesStuck(ctx.sources, b.chainId, b.events, i);
        }
        sources := sources[SourceKey(b.chainId.value, event.source.value.eventId) := event];
      }
    }
    assert b.events[..i] == b.events;
    r := Context(ctx.chainId.Or(b.chainId), sources);
  }

  lemma {:induction false} SourcesStuck(sources: map<SourceKey, Event>, chainId: Option<int>, events: seq<Event>, i: nat)
    requires i <= |events| && AddSources(sources, chainId, events[..i]) == None
    ensures AddSources(sources, chainId, events) == None
    decreases |events| - i
  {
    if i < |events| {
      assert events[..i + 1][..i] == events[..i];
      SourcesStuck(sources, chainId, events, i + 1);
    } else {
      assert events[..i] == events;
    }
  }

  method FindByHash(blocks: seq<Block>, hash: Id) returns (r: Option<nat>)
    ensures r == HashIndex(blocks, hash)
  {
    var i := 0;
    while i < |blocks|
      invariant i <= |blocks|
      invariant HashIndex(blocks[..i], hash) == None
    {
      assert blocks[..i + 1][..i] == blocks[..i];
      if blocks[i].hash == hash {
        HashFound(blocks, hash, i);
        return Some(i);
      }
      i := i + 1;
    }
    assert blocks[..i] == blocks;
    r := None;
  }

  lemma {:induction false} HashFound(blocks: seq<Block>, hash: Id, i: nat)
    requires i < |blocks| && blocks[i].hash == hash && HashIndex(blocks[..i], hash) == None
    ensures HashIndex(blocks, hash) == Some(i)
  {
    var init := blocks[..|blocks| - 1];
    if i < |init| {
      assert init[..i] == blocks[..i];
      HashFound(init, hash, i);
    }
  }
}
