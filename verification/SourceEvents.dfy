/** Which events of an incoming block are retained, told from the events before them. */
module SourceEvents {
  import opened Domain
  import opened Chain

  predicate SameSource(a: Event, b: Event) {
    a.source.Some? && b.source.Some? && a.source.value.eventId == b.source.value.eventId
  }

  predicate KnownBefore(known: map<SourceKey, Event>, chainId: Option<int>, e: Event) {
    e.source.Some? && SourceKey(chainId.GetOr(0), e.source.value.eventId) in known
  }

  /** The event's source was seen in an earlier block or earlier in this one. */
  ghost predicate Repeats(known: map<SourceKey, Event>, chainId: Option<int>, events: seq<Event>, i: nat)
    requires i < |events|
  {
    KnownBefore(known, chainId, events[i]) || exists j :: 0 <= j < i && SameSource(events[j], events[i])
  }

  ghost predicate ConsistentAt(known: map<SourceKey, Event>, chainId: Option<int>, events: seq<Event>, i: nat)
    requires i < |events|
  {
    var e := events[i];
    && (KnownBefore(known, chainId, e) ==> known[SourceKey(chainId.GetOr(0), e.source.value.eventId)] == e)
    && forall j :: 0 <= j < i && SameSource(events[j], e) ==> events[j] == e
  }

  /** No source event comes back with another payload. */
  ghost predicate Consistent(known: map<SourceKey, Event>, chainId: Option<int>, events: seq<Event>) {
    forall i: nat :: i < |events| ==> ConsistentAt(known, chainId, events, i)
  }

  ghost function FirstOnes(known: map<SourceKey, Event>, chainId: Option<int>, events: seq<Event>): seq<Event> {
    if events == [] then []
    else
      var n := |events| - 1;
      var rest := FirstOnes(known, chainId, events[..n]);
      if Repeats(known, chainId, events, n) then rest else rest + [events[n]]
  }

  /** The keys seen are those of this block's events that are not known, each with its event. */
  ghost predicate SeenAre(known: map<SourceKey, Event>, chainId: Option<int>, events: seq<Event>,
                          seen: map<SourceKey, Event>)
  {
    && (forall e :: e in events && KeyIn(chainId, e).Some? && KeyIn(chainId, e).value !in known ==>
          KeyIn(chainId, e).value in seen)
    && (forall key :: key in seen ==> seen[key] in events && KeyIn(chainId, seen[key]) == Some(key) && key !in known)
  }

  lemma ConsistentParts(known: map<SourceKey, Event>, chainId: Option<int>, init: seq<Event>, last: Event)
    ensures Consistent(known, chainId, init + [last])
            <==> Consistent(known, chainId, init) && ConsistentAt(known, chainId, init + [last], |init|)
  {
    var events := init + [last];
    forall i: nat | i < |init|
      ensures ConsistentAt(known, chainId, events, i) <==> ConsistentAt(known, chainId, init, i)
    {
      assert events[i] == init[i] && forall j :: 0 <= j < i ==> events[j] == init[j];
    }
  }

  /** One event more: it conflicts, repeats or is kept. */
  ghost predicate LastRight(d: Dedup, known: map<SourceKey, Event>, chainId: Option<int>, init: seq<Event>, last: Event)
  {
    var events, r := init + [last], Keep(d, known, KeyIn(chainId, last), last);
    && (r.ok <==> ConsistentAt(known, chainId, events, |init|))
    && (r.ok ==> SeenAre(known, chainId, events, r.seen)
                 && r.kept == if Repeats(known, chainId, events, |init|) then d.kept else d.kept + [last])
  }

  lemma LastEvent(d: Dedup, known: map<SourceKey, Event>, chainId: Option<int>, init: seq<Event>, last: Event)
    requires d.ok && SeenAre(known, chainId, init, d.seen) && Consistent(known, chainId, init)
    ensures LastRight(d, known, chainId, init, last)
  {
    hide SeenAre, Consistent, LastRight;
    if last.source.None? {
      LastPlain(d, known, chainId, init, last);
    } else if KeyIn(chainId, last).value in d.seen {
      LastSeen(d, known, chainId, init, last);
    } else if KeyIn(chainId, last).value in known {
      LastKnown(d, known, chainId, init, last);
    } else {
      LastNew(d, known, chainId, init, last);
    }
  }

  lemma LastPlain(d: Dedup, known: map<SourceKey, Event>, chainId: Option<int>, init: seq<Event>, last: Event)
    requires d.ok && SeenAre(known, chainId, init, d.seen) && last.source.None?
    ensures LastRight(d, known, chainId, init, last)
  {
    MoreMembers(init, last);
  }

  lemma MoreMembers(init: seq<Event>, last: Event)
    ensures (init + [last])[|init|] == last && forall j :: 0 <= j < |init| ==> (init + [last])[j] == init[j]
    ensures forall e :: e in init + [last] <==> e in init || e == last
  {
  }

  lemma LastSeen(d: Dedup, known: map<SourceKey, Event>, chainId: Option<int>, init: seq<Event>, last: Event)
    requires d.ok && SeenAre(known, chainId, init, d.seen) && Consistent(known, chainId, init)
    requires last.source.Some? && KeyIn(chainId, last).value in d.seen
    ensures LastRight(d, known, chainId, init, last)
  {
    MoreMembers(init, last);
    var key := KeyIn(chainId, last).value;
    var j :| 0 <= j < |init| && init[j] == d.seen[key];
    assert SameSource((init + [last])[j], last);
    forall k | 0 <= k < |init| && SameSource(init[k], last)
      ensures init[k] == d.seen[key]
    {
      SameKeyed(known, chainId, init, k, j);
    }
  }

  lemma LastKnown(d: Dedup, known: map<SourceKey, Event>, chainId: Option<int>, init: seq<Event>, last: Event)
    requires d.ok && SeenAre(known, chainId, init, d.seen) && Consistent(known, chainId, init)
    requires last.source.Some? && KeyIn(chainId, last).value !in d.seen && KeyIn(chainId, last).value in known
    ensures LastRight(d, known, chainId, init, last)
  {
    MoreMembers(init, last);
    KnownRepeats(known, chainId, init, last);
  }

  lemma LastNew(d: Dedup, known: map<SourceKey, Event>, chainId: Option<int>, init: seq<Event>, last: Event)
    requires d.ok && SeenAre(known, chainId, init, d.seen)
    requires last.source.Some? && KeyIn(chainId, last).value !in d.seen && KeyIn(chainId, last).value !in known
    ensures LastRight(d, known, chainId, init, last)
  {
    MoreMembers(init, last);
    forall k | 0 <= k < |init|
      ensures !SameSource(init[k], last)
    {
      assert init[k] in init;
    }
  }

  /** A known event is consistent exactly when it is the known one: its repeats in the block were compared already. */
  lemma KnownRepeats(known: map<SourceKey, Event>, chainId: Option<int>, init: seq<Event>, last: Event)
    requires Consistent(known, chainId, init) && KnownBefore(known, chainId, last)
    ensures known[KeyIn(chainId, last).value] == last ==>
              forall j :: 0 <= j < |init| && SameSource(init[j], last) ==> init[j] == last
  {
    forall j | 0 <= j < |init| && SameSource(init[j], last)
      ensures init[j] == known[KeyIn(chainId, last).value]
    {
      assert ConsistentAt(known, chainId, init, j);
    }
  }

  lemma SameKeyed(known: map<SourceKey, Event>, chainId: Option<int>, events: seq<Event>, a: nat, b: nat)
    requires Consistent(known, chainId, events) && a < |events| && b < |events| && SameSource(events[a], events[b])
    ensures events[a] == events[b]
  {
    assert ConsistentAt(known, chainId, events, if a < b then b else a);
  }

  lemma {:induction false} KeptAreFirst(chainId: Option<int>, known: map<SourceKey, Event>, events: seq<Event>)
    ensures var d := DedupAll(chainId, known, events);
            && (d.ok <==> Consistent(known, chainId, events))
            && (d.ok ==> d.kept == FirstOnes(known, chainId, events) && SeenAre(known, chainId, events, d.seen))
  {
    hide Keep, KeyIn, SeenAre, Consistent, ConsistentAt, Repeats;
    if events == [] {
      NothingSeen(known, chainId);
    } else {
      var init, last := events[..|events| - 1], events[|events| - 1];
      assert events == init + [last];
      KeptAreFirst(chainId, known, init);
      ConsistentParts(known, chainId, init, last);
      var d := DedupAll(chainId, known, init);
      if d.ok {
        LastEvent(d, known, chainId, init, last);
      } else {
        StillFailed(d, known, KeyIn(chainId, last), last);
      }
    }
  }

  lemma NothingSeen(known: map<SourceKey, Event>, chainId: Option<int>)
    ensures Consistent(known, chainId, []) && SeenAre(known, chainId, [], map[])
  {
  }

  lemma StillFailed(d: Dedup, known: map<SourceKey, Event>, key: Option<SourceKey>, e: Event)
    requires !d.ok
    ensures Keep(d, known, key, e) == d
  {
  }

  /** Main result on incoming blocks: a block is refused exactly when it is of another chain, a source event comes back
      with another payload, or a pool observation is not the last market event of its pair; otherwise it is retained
      with the first event of each source that is not known from earlier blocks, and with every event without source. */
  lemma CanonicalizeIff(b: Block, ctx: Context)
    ensures var events := FirstOnes(ctx.sources, b.chainId, b.events);
            Canonicalize(b, ctx)
            == if b.chainId.Some? && ctx.chainId.Some? && b.chainId != ctx.chainId then None
               else if !Consistent(ctx.sources, b.chainId, b.events) || !ObservationsLast(events) then None
               else Some(b.(events := events))
  {
    hide DedupAll, Consistent, FirstOnes, ObservationsLast;
    KeptAreFirst(b.chainId, ctx.sources, b.events);
  }
}
