/** What a block with a retained hash is answered, told from the events of the two blocks, and why enriching the head
    with position snapshots never turns a repeated delivery into a conflict. */
module Redelivery {
  import opened Domain
  import opened Chain
  import opened Ingest
  import opened Projection
  import opened Admission
  import opened EngineSpec
  import opened Engine

  // Parts of a block's events

  /** The events that satisfy a condition, in order. */
  function Only(events: seq<Event>, keep: Event -> bool): seq<Event> {
    if events == [] then []
    else
      var rest, last := Only(events[..|events| - 1], keep), events[|events| - 1];
      if keep(last) then rest + [last] else rest
  }

  predicate NoSnapshot(e: Event) {
    !e.PositionSnapshot?
  }

  predicate ShowsHolder(e: Event, owner: Id, pair: Id) {
    e.PositionSnapshot? && e.owner == owner && e.ident.pair == pair
  }

  function Others(events: seq<Event>): seq<Event> {
    Only(events, NoSnapshot)
  }

  /** The snapshots of an owner's position in a pair, in order. */
  function SnapshotsFor(events: seq<Event>, owner: Id, pair: Id): seq<Event> {
    Only(events, (e: Event) => ShowsHolder(e, owner, pair))
  }

  predicate SameHeader(a: Block, b: Block) {
    && a.chainId == b.chainId && a.number == b.number && a.hash == b.hash && a.parentHash == b.parentHash
    && a.timestamp == b.timestamp && a.prices == b.prices
  }

  /** The header and the non-snapshot events agree, and so do the snapshots of every position that `c` shows. */
  ghost predicate Agrees(kept: Block, c: Block) {
    && SameHeader(kept, c) && Others(c.events) == Others(kept.events)
    && forall owner, pair :: SnapshotsFor(c.events, owner, pair) != [] ==>
         SnapshotsFor(c.events, owner, pair) == SnapshotsFor(kept.events, owner, pair)
  }

  // Filtering

  lemma {:induction false} OnlyConcat(a: seq<Event>, b: seq<Event>, keep: Event -> bool)
    ensures Only(a + b, keep) == Only(a, keep) + Only(b, keep)
  {
    if b == [] {
      assert a + b == a;
    } else {
      var init, last := b[..|b| - 1], b[|b| - 1];
      OnlyConcat(a, init, keep);
      assert (a + b)[..|a + b| - 1] == a + init && (a + b)[|a + b| - 1] == last;
    }
  }

  lemma OnlyAppend(a: seq<Event>, e: Event, keep: Event -> bool)
    ensures Only(a + [e], keep) == if keep(e) then Only(a, keep) + [e] else Only(a, keep)
  {
    assert (a + [e])[..|a|] == a;
  }

  lemma {:induction false} OnlyMembers(events: seq<Event>, keep: Event -> bool)
    ensures forall e :: e in Only(events, keep) <==> e in events && keep(e)
  {
    if events != [] {
      var init, last := events[..|events| - 1], events[|events| - 1];
      OnlyMembers(init, keep);
      assert events == init + [last];
    }
  }

  lemma {:induction false} OnlyAll(events: seq<Event>, keep: Event -> bool)
    requires forall e :: e in events ==> keep(e)
    ensures Only(events, keep) == events
  {
    if events != [] {
      var init, last := events[..|events| - 1], events[|events| - 1];
      assert events == init + [last];
      OnlyAll(init, keep);
    }
  }

  lemma OnlyNone(events: seq<Event>, keep: Event -> bool)
    requires forall e :: e in events ==> !keep(e)
    ensures Only(events, keep) == []
  {
    OnlyMembers(events, keep);
    if Only(events, keep) != [] {
      assert Only(events, keep)[0] in Only(events, keep);
    }
  }

  lemma {:induction false} OnlyTwice(events: seq<Event>, first: Event -> bool, second: Event -> bool)
    requires forall e :: second(e) ==> first(e)
    ensures Only(Only(events, first), second) == Only(events, second)
  {
    if events != [] {
      var init, last := events[..|events| - 1], events[|events| - 1];
      OnlyTwice(init, first, second);
      OnlyAppend(Only(init, first), last, second);
    }
  }

  lemma {:induction false} PartsAre(events: seq<Event>)
    ensures NonSnapshots(events) == Others(events)
    ensures Snapshots(events) == Only(events, (e: Event) => e.PositionSnapshot?)
  {
    if events != [] {
      PartsAre(events[..|events| - 1]);
    }
  }

  // Sorting snapshots

  ghost predicate AllSnapshots(events: seq<Event>) {
    forall e :: e in events ==> e.PositionSnapshot?
  }

  /** Sorted by owner and pair. */
  ghost predicate Ordered(s: seq<Event>) {
    && AllSnapshots(s)
    && forall i, j :: 0 <= i < j < |s| ==> s[i] in s && s[j] in s && SnapshotBefore(s[i], s[j])
  }

  lemma OrderedParts(init: seq<Event>, last: Event)
    ensures Ordered(init + [last]) <==>
            Ordered(init) && last.PositionSnapshot? && forall e :: e in init ==> SnapshotBefore(e, last)
  {
    var s := init + [last];
    assert s[|init|] == last && forall k :: 0 <= k < |init| ==> s[k] == init[k];
  }

  lemma {:induction false} InsertSnapshotMembers(s: seq<Event>, e: Event)
    requires AllSnapshots(s) && e.PositionSnapshot?
    ensures forall x :: x in InsertSnapshot(s, e) <==> x in s || x == e
  {
    if s != [] && !SnapshotBefore(s[|s| - 1], e) {
      assert s == s[..|s| - 1] + [s[|s| - 1]];
      InsertSnapshotMembers(s[..|s| - 1], e);
    }
  }

  lemma {:induction false} InsertSnapshotOrdered(s: seq<Event>, e: Event)
    requires Ordered(s) && e.PositionSnapshot?
    ensures Ordered(InsertSnapshot(s, e))
  {
    hide Ordered, SnapshotBefore;
    OrderedSnapshots(s);
    if s == [] {
      NothingOrdered(s);
      OrderedParts(s, e);
    } else {
      var init, last := s[..|s| - 1], s[|s| - 1];
      assert s == init + [last];
      OrderedParts(init, last);
      if SnapshotBefore(last, e) {
        BeforeChain(init, last, e);
        OrderedParts(s, e);
      } else {
        InsertSnapshotOrdered(init, e);
        InsertSnapshotMembers(init, e);
        NotBefore(last, e);
        OrderedParts(InsertSnapshot(init, e), last);
      }
    }
  }

  lemma OrderedSnapshots(s: seq<Event>)
    requires Ordered(s)
    ensures AllSnapshots(s)
  {
  }

  lemma NothingOrdered(s: seq<Event>)
    requires s == []
    ensures Ordered(s)
  {
  }

  lemma BeforeChain(init: seq<Event>, last: Event, e: Event)
    requires AllSnapshots(init) && last.PositionSnapshot? && e.PositionSnapshot? && SnapshotBefore(last, e)
    requires forall x :: x in init ==> SnapshotBefore(x, last)
    ensures forall x :: x in init + [last] ==> SnapshotBefore(x, e)
  {
  }

  lemma NotBefore(a: Event, b: Event)
    requires a.PositionSnapshot? && b.PositionSnapshot? && !SnapshotBefore(a, b)
    ensures SnapshotBefore(b, a) && (a.owner != b.owner || a.ident.pair != b.ident.pair)
  {
  }

  /** Sorting is stable: it keeps the order of one position's snapshots. */
  lemma {:induction false} InsertSnapshotStable(s: seq<Event>, e: Event, owner: Id, pair: Id)
    requires AllSnapshots(s) && e.PositionSnapshot?
    ensures SnapshotsFor(InsertSnapshot(s, e), owner, pair) == SnapshotsFor(s + [e], owner, pair)
  {
    var keep := (x: Event) => ShowsHolder(x, owner, pair);
    if s != [] && !SnapshotBefore(s[|s| - 1], e) {
      var init, last := s[..|s| - 1], s[|s| - 1];
      InsertSnapshotStable(init, e, owner, pair);
      NotBefore(last, e);
      OnlyAppend(InsertSnapshot(init, e), last, keep);
      OnlyAppend(init, e, keep);
      OnlyAppend(s, e, keep);
    }
  }

  lemma {:induction false} SortSnapshotsOrdered(s: seq<Event>)
    requires AllSnapshots(s)
    ensures Ordered(SortSnapshots(s))
  {
    hide Ordered, InsertSnapshot;
    if s == [] {
      NothingOrdered(s);
    } else {
      SortSnapshotsOrdered(s[..|s| - 1]);
      InsertSnapshotOrdered(SortSnapshots(s[..|s| - 1]), s[|s| - 1]);
    }
  }

  lemma {:induction false} SortSnapshotsShow(s: seq<Event>, owner: Id, pair: Id)
    requires AllSnapshots(s)
    ensures SnapshotsFor(SortSnapshots(s), owner, pair) == SnapshotsFor(s, owner, pair)
  {
    hide InsertSnapshot;
    if s != [] {
      var init, last := s[..|s| - 1], s[|s| - 1];
      var sorted, keep := SortSnapshots(init), (e: Event) => ShowsHolder(e, owner, pair);
      SortSnapshotsShow(init, owner, pair);
      SortSnapshotsOrdered(init);
      InsertSnapshotStable(sorted, last, owner, pair);
      OnlyAppend(sorted, last, keep);
      OnlyAppend(init, last, keep);
      assert s == init + [last];
      hide Only, ShowsHolder;
    }
  }

  lemma SortSnapshotsKeeps(s: seq<Event>)
    requires AllSnapshots(s)
    ensures Ordered(SortSnapshots(s))
    ensures forall owner, pair :: SnapshotsFor(SortSnapshots(s), owner, pair) == SnapshotsFor(s, owner, pair)
  {
    hide Ordered, SnapshotsFor, SortSnapshots;
    SortSnapshotsOrdered(s);
    forall owner, pair
      ensures SnapshotsFor(SortSnapshots(s), owner, pair) == SnapshotsFor(s, owner, pair)
    {
      SortSnapshotsShow(s, owner, pair);
    }
  }

  ghost predicate SameByHolder(a: seq<Event>, b: seq<Event>) {
    forall owner, pair :: SnapshotsFor(a, owner, pair) == SnapshotsFor(b, owner, pair)
  }

  /** There is one sorted listing of given snapshots. */
  lemma {:induction false} OrderedUnique(a: seq<Event>, b: seq<Event>)
    requires Ordered(a) && Ordered(b) && SameByHolder(a, b)
    ensures a == b
    decreases |a|
  {
    if a == [] {
      if b != [] {
        LastShown(b);
        assert false;
      }
    } else {
      LastsAgree(a, b);
      var a0, b0 := a[..|a| - 1], b[..|b| - 1];
      assert a == a0 + [a[|a| - 1]] && b == b0 + [b[|b| - 1]];
      ButLastSame(a0, b0, a[|a| - 1]);
      hide SameByHolder, SnapshotsFor, SnapshotBefore;
      OrderedUnique(a0, b0);
    }
  }

  lemma ButLastSame(a: seq<Event>, b: seq<Event>, e: Event)
    requires SameByHolder(a + [e], b + [e])
    ensures SameByHolder(a, b)
  {
    hide SnapshotsFor;
    forall owner, pair
      ensures SnapshotsFor(a, owner, pair) == SnapshotsFor(b, owner, pair)
    {
      DropLastShown(a, b, e, owner, pair);
    }
  }

  lemma DropLastShown(a: seq<Event>, b: seq<Event>, e: Event, owner: Id, pair: Id)
    requires SnapshotsFor(a + [e], owner, pair) == SnapshotsFor(b + [e], owner, pair)
    ensures SnapshotsFor(a, owner, pair) == SnapshotsFor(b, owner, pair)
  {
    var keep := (x: Event) => ShowsHolder(x, owner, pair);
    OnlyAppend(a, e, keep);
    OnlyAppend(b, e, keep);
    if keep(e) {
      var x, y := Only(a, keep), Only(b, keep);
      assert (x + [e])[..|x|] == x && (y + [e])[..|y|] == y;
    }
  }

  /** The last snapshot of a listing is the last of its position. */
  lemma LastShown(s: seq<Event>)
    requires s != [] && AllSnapshots(s)
    ensures var e := s[|s| - 1]; e.PositionSnapshot? && (var t := SnapshotsFor(s, e.owner, e.ident.pair);
            t != [] && t[|t| - 1] == e)
  {
    assert s[|s| - 1] in s;
  }

  lemma LastsAgree(a: seq<Event>, b: seq<Event>)
    requires a != [] && Ordered(a) && Ordered(b) && SameByHolder(a, b)
    ensures b != [] && a[|a| - 1] == b[|b| - 1]
  {
    LastShown(a);
    var x := a[|a| - 1];
    assert SnapshotsFor(b, x.owner, x.ident.pair) == SnapshotsFor(a, x.owner, x.ident.pair);
    OnlyMembers(b, (e: Event) => ShowsHolder(e, x.owner, x.ident.pair));
    assert x in b;
    LastShown(b);
    var y := b[|b| - 1];
    assert SnapshotsFor(a, y.owner, y.ident.pair) == SnapshotsFor(b, y.owner, y.ident.pair);
    OnlyMembers(a, (e: Event) => ShowsHolder(e, y.owner, y.ident.pair));
    assert y in a;
    NotAfterLast(a, y);
    NotAfterLast(b, x);
  }

  lemma NotAfterLast(s: seq<Event>, e: Event)
    requires Ordered(s) && e in s
    ensures s[|s| - 1] in s && SnapshotBefore(e, s[|s| - 1])
  {
    var i :| 0 <= i < |s| && s[i] == e;
  }

  // The payload

  lemma ComparableParts(b: Block)
    ensures Others(Comparable(b).events) == Others(b.events)
    ensures Only(Comparable(b).events, (e: Event) => e.PositionSnapshot?) == SortSnapshots(Snapshots(b.events))
  {
    var others, sorted := NonSnapshots(b.events), SortSnapshots(Snapshots(b.events));
    var snapshot := (e: Event) => e.PositionSnapshot?;
    PartsAre(b.events);
    OnlyMembers(b.events, NoSnapshot);
    OnlyConcat(others, sorted, NoSnapshot);
    OnlyConcat(others, sorted, snapshot);
    OnlyAll(others, NoSnapshot);
    OnlyNone(sorted, NoSnapshot);
    OnlyNone(others, snapshot);
    OnlyAll(sorted, snapshot);
  }

  /** Two blocks have the same payload exactly when their headers, their other events in order, and the snapshots of
      each position in order agree. */
  lemma SamePayloadIff(a: Block, b: Block)
    ensures SamePayload(a, b) <==>
            SameHeader(a, b) && Others(a.events) == Others(b.events) && SameByHolder(a.events, b.events)
  {
    hide Others, SortSnapshots, Snapshots, SameByHolder, Ordered, NonSnapshots;
    ComparableParts(a);
    ComparableParts(b);
    PartsAre(a.events);
    PartsAre(b.events);
    SortSnapshotsKeeps(Snapshots(a.events));
    SortSnapshotsKeeps(Snapshots(b.events));
    HoldersOfSnapshots(a.events);
    HoldersOfSnapshots(b.events);
    if SamePayload(a, b) {
      assert SortSnapshots(Snapshots(a.events)) == SortSnapshots(Snapshots(b.events));
      SameChained(a.events, b.events);
    } else if SameHeader(a, b) && Others(a.events) == Others(b.events) && SameByHolder(a.events, b.events) {
      SameSorted(a.events, b.events);
      assert false;
    }
  }

  lemma HoldersOfSnapshots(events: seq<Event>)
    ensures SameByHolder(Snapshots(events), events)
  {
    PartsAre(events);
    forall owner, pair
      ensures SnapshotsFor(Snapshots(events), owner, pair) == SnapshotsFor(events, owner, pair)
    {
      OnlyTwice(events, (e: Event) => e.PositionSnapshot?, (e: Event) => ShowsHolder(e, owner, pair));
    }
  }

  lemma SameChained(a: seq<Event>, b: seq<Event>)
    requires SortSnapshots(Snapshots(a)) == SortSnapshots(Snapshots(b))
    ensures SameByHolder(a, b)
  {
    hide SortSnapshots, Snapshots;
    SortSnapshotsKeeps(Snapshots(a));
    SortSnapshotsKeeps(Snapshots(b));
    HoldersOfSnapshots(a);
    HoldersOfSnapshots(b);
    forall owner, pair
      ensures SnapshotsFor(a, owner, pair) == SnapshotsFor(b, owner, pair)
    {
      assert SnapshotsFor(SortSnapshots(Snapshots(a)), owner, pair) == SnapshotsFor(a, owner, pair);
    }
  }

  lemma SameSorted(a: seq<Event>, b: seq<Event>)
    requires SameByHolder(a, b)
    ensures SortSnapshots(Snapshots(a)) == SortSnapshots(Snapshots(b))
  {
    hide SortSnapshots, Snapshots, Ordered;
    SortSnapshotsKeeps(Snapshots(a));
    SortSnapshotsKeeps(Snapshots(b));
    HoldersOfSnapshots(a);
    HoldersOfSnapshots(b);
    OrderedUnique(SortSnapshots(Snapshots(a)), SortSnapshots(Snapshots(b)));
  }

  // Retained snapshots that are not delivered again

  lemma {:induction false} MissingParts(incoming: seq<Event>, existing: seq<Event>, owner: Id, pair: Id)
    ensures Others(Missing(incoming, existing)) == []
    ensures SnapshotsFor(Missing(incoming, existing), owner, pair)
            == if SnapshotsFor(incoming, owner, pair) != [] then [] else SnapshotsFor(existing, owner, pair)
  {
    var keep := (e: Event) => ShowsHolder(e, owner, pair);
    OnlyMembers(incoming, keep);
    ShownIff(incoming, owner, pair);
    if existing != [] {
      var init, last := existing[..|existing| - 1], existing[|existing| - 1];
      MissingParts(incoming, init, owner, pair);
      OnlyAppend(Missing(incoming, init), last, keep);
      OnlyAppend(Missing(incoming, init), last, NoSnapshot);
    }
  }

  lemma ShownIff(events: seq<Event>, owner: Id, pair: Id)
    ensures HasSnapshotFor(events, owner, pair) <==> SnapshotsFor(events, owner, pair) != []
  {
    var shown := SnapshotsFor(events, owner, pair);
    OnlyMembers(events, (e: Event) => ShowsHolder(e, owner, pair));
    if shown != [] {
      assert shown[0] in shown;
    }
  }

  lemma CompletedAgrees(kept: Block, c: Block)
    ensures SamePayload(kept, WithMissing(c, kept)) <==> Agrees(kept, c)
  {
    hide SamePayload, Missing, Only;
    var full := WithMissing(c, kept);
    var missing := Missing(c.events, kept.events);
    SamePayloadIff(kept, full);
    MissingParts(c.events, kept.events, 0, 0);
    OnlyConcat(c.events, missing, NoSnapshot);
    assert Others(c.events) + [] == Others(c.events);
    forall owner, pair
      ensures SnapshotsFor(full.events, owner, pair)
              == if SnapshotsFor(c.events, owner, pair) != [] then SnapshotsFor(c.events, owner, pair)
                 else SnapshotsFor(kept.events, owner, pair)
    {
      MissingParts(c.events, kept.events, owner, pair);
      OnlyConcat(c.events, missing, (e: Event) => ShowsHolder(e, owner, pair));
    }
  }

  /** Main result on repeated deliveries: a block whose hash is retained at `i` is answered "duplicate" exactly when,
      with repeats of earlier source events removed, it agrees with the retained block in number, parent, time, prices,
      chain, and other events in order, and the snapshots it carries are retained unchanged. */
  lemma DuplicateIff(blocks: seq<Block>, b: Block, i: nat)
    requires i < |blocks| && blocks[i].hash == b.hash && forall j :: 0 <= j < i ==> blocks[j].hash != b.hash
    requires ValidBlock(b)
    ensures var c := CanonicalIn(blocks[..i], b);
            PlanFor(blocks, b) == if b.number != blocks[i].number then Refuse(NumberChanged)
                                  else if c.None? then Refuse(IdentityConflict)
                                  else if Agrees(blocks[i], c.value) then AlreadyKnown else Refuse(PayloadChanged)
  {
    hide Agrees, SamePayload, WithMissing, Canonicalize, ValidBlock;
    HashIndexIs(blocks, b.hash, i);
    var c := CanonicalIn(blocks[..i], b);
    if c.Some? {
      CompletedAgrees(blocks[i], c.value);
    }
  }

  lemma HashIndexIs(blocks: seq<Block>, hash: Id, i: nat)
    requires i < |blocks| && blocks[i].hash == hash && forall j :: 0 <= j < i ==> blocks[j].hash != hash
    ensures HashIndex(blocks, hash) == Some(i)
  {
    HashFound(blocks, hash, i);
  }

  // Enriched heads

  /** A head that still holds what was delivered: only snapshots of positions that `c` does not show were added. */
  ghost predicate Enriched(c: Block, head: Block) {
    && SameHeader(head, c) && Others(head.events) == Others(c.events)
    && forall owner, pair :: SnapshotsFor(c.events, owner, pair) != [] ==>
         SnapshotsFor(head.events, owner, pair) == SnapshotsFor(c.events, owner, pair)
  }

  /** Position snapshots of positions that the block does not show. */
  ghost predicate Additional(c: Block, snapshots: seq<Event>) {
    && AllSnapshots(snapshots)
    && forall e :: e in snapshots ==> SnapshotsFor(c.events, e.owner, e.ident.pair) == []
  }

  /** Removing events from a canonical list leaves a canonical list. */
  lemma {:induction false} UnreplacedKept(chainId: Option<int>, known: map<SourceKey, Event>, events: seq<Event>,
                                          snapshots: seq<Event>)
    requires DedupAll(chainId, known, events).ok && DedupAll(chainId, known, events).kept == events
    ensures var d := DedupAll(chainId, known, Unreplaced(events, snapshots));
            && d.ok && d.kept == Unreplaced(events, snapshots)
            && d.seen.Keys <= DedupAll(chainId, known, events).seen.Keys
  {
    hide HasSnapshotFor, KeyIn, Keep, DedupAll;
    if events == [] {
      NothingDropped(chainId, known);
    } else {
      var init, last := events[..|events| - 1], events[|events| - 1];
      assert events == init + [last];
      var d, rest := DedupAll(chainId, known, init), Unreplaced(init, snapshots);
      LastIsFresh(chainId, known, init, last);
      DedupStep(chainId, known, init, last);
      UnreplacedKept(chainId, known, init, snapshots);
      DedupStep(chainId, known, rest, last);
      KeepFresh(d, known, KeyIn(chainId, last), last);
      KeepFresh(DedupAll(chainId, known, rest), known, KeyIn(chainId, last), last);
    }
  }

  lemma NothingDropped(chainId: Option<int>, known: map<SourceKey, Event>)
    ensures DedupAll(chainId, known, []) == Dedup([], map[], true)
  {
  }

  lemma KeepFresh(d: Dedup, known: map<SourceKey, Event>, key: Option<SourceKey>, e: Event)
    requires d.ok && (key.Some? ==> key.value !in known && key.value !in d.seen)
    ensures Keep(d, known, key, e)
            == Dedup(d.kept + [e], if key.Some? then d.seen[key.value := e] else d.seen, true)
  {
  }

  /** What follows a canonical list is appended to it, or dropped. */
  lemma {:induction false} DedupMore(chainId: Option<int>, known: map<SourceKey, Event>, events: seq<Event>,
                                     more: seq<Event>) returns (added: seq<Event>)
    requires DedupAll(chainId, known, events).kept == events
    ensures DedupAll(chainId, known, events + more).ok ==>
              DedupAll(chainId, known, events + more).kept == events + added
    ensures forall e :: e in added ==> e in more
    ensures DedupAll(chainId, known, events + more).ok && (forall e :: e in more ==> e.source.None?) ==> added == more
  {
    hide KeyIn, Keep, DedupAll;
    if more == [] {
      assert events + more == events && events + [] == events;
      added := [];
    } else {
      var init, last := more[..|more| - 1], more[|more| - 1];
      assert events + more == (events + init) + [last] && more == init + [last];
      added := DedupMore(chainId, known, events, init);
      DedupStep(chainId, known, events + init, last);
      var d := DedupAll(chainId, known, events + init);
      KeepOrDrop(d, known, chainId, last);
      if d.ok && Keep(d, known, KeyIn(chainId, last), last).kept != d.kept {
        assert (events + added) + [last] == events + (added + [last]);
        added := added + [last];
      }
    }
  }

  /** The snapshots of shown positions are removed, if any were given for them. */
  lemma {:induction false} UnreplacedShown(events: seq<Event>, snapshots: seq<Event>, owner: Id, pair: Id)
    requires SnapshotsFor(snapshots, owner, pair) != []
    ensures SnapshotsFor(Unreplaced(events, snapshots), owner, pair) == []
  {
    ShownIff(snapshots, owner, pair);
    if events != [] {
      var init, last := events[..|events| - 1], events[|events| - 1];
      UnreplacedShown(init, snapshots, owner, pair);
      OnlyAppend(Unreplaced(init, snapshots), last, (e: Event) => ShowsHolder(e, owner, pair));
    }
  }

  lemma KeepOrDrop(d: Dedup, known: map<SourceKey, Event>, chainId: Option<int>, e: Event)
    ensures var r := Keep(d, known, KeyIn(chainId, e), e);
            && (r.ok ==> d.ok && (r.kept == d.kept || r.kept == d.kept + [e]))
            && (r.ok && e.source.None? ==> r.kept == d.kept + [e])
            && d.kept + [e] != d.kept
  {
    assert |d.kept + [e]| == |d.kept| + 1;
  }

  lemma {:induction false} UnreplacedParts(events: seq<Event>, snapshots: seq<Event>, owner: Id, pair: Id)
    ensures Others(Unreplaced(events, snapshots)) == Others(events)
    ensures SnapshotsFor(snapshots, owner, pair) == [] ==>
              SnapshotsFor(Unreplaced(events, snapshots), owner, pair) == SnapshotsFor(events, owner, pair)
  {
    ShownIff(snapshots, owner, pair);
    if events != [] {
      var init, last := events[..|events| - 1], events[|events| - 1];
      UnreplacedParts(init, snapshots, owner, pair);
      OnlyAppend(Unreplaced(init, snapshots), last, (e: Event) => ShowsHolder(e, owner, pair));
      OnlyAppend(Unreplaced(init, snapshots), last, NoSnapshot);
    }
  }

  /** One augmentation with additional snapshots leaves the delivered part of the head as it is. */
  lemma AugmentKeeps(ctx: Context, c: Block, head: Block, snapshots: seq<Event>)
    requires Enriched(c, head) && Canonicalize(head, ctx) == Some(head) && Additional(c, snapshots)
    requires Canonicalize(Candidate(head, snapshots), ctx).Some?
    ensures Enriched(c, Canonicalize(Candidate(head, snapshots), ctx).value)
  {
    hide DedupAll, ObservationsLast, Unreplaced, Only, HasSnapshotFor;
    var known, rest := ctx.sources, Unreplaced(head.events, snapshots);
    UnreplacedKept(head.chainId, known, head.events, snapshots);
    var added := DedupMore(head.chainId, known, rest, snapshots);
    UnreplacedParts(head.events, snapshots, 0, 0);
    OnlyConcat(rest, added, NoSnapshot);
    OnlyNone(added, NoSnapshot);
    assert Others(rest) + [] == Others(rest);
    forall owner, pair | SnapshotsFor(c.events, owner, pair) != []
      ensures SnapshotsFor(rest + added, owner, pair) == SnapshotsFor(c.events, owner, pair)
    {
      var keep := (e: Event) => ShowsHolder(e, owner, pair);
      NotShown(c, snapshots, owner, pair);
      UnreplacedParts(head.events, snapshots, owner, pair);
      OnlyConcat(rest, added, keep);
      OnlyNone(added, keep);
      assert SnapshotsFor(rest, owner, pair) + [] == SnapshotsFor(rest, owner, pair);
    }
  }

  /** Main result on augmentation: it changes no other event, no header field and no position without a new snapshot;
      a position with new snapshots keeps none of its old ones, and gets all of the new ones if they name no source. */
  lemma AugmentReplaces(ctx: Context, head: Block, snapshots: seq<Event>, owner: Id, pair: Id)
    requires Canonicalize(head, ctx) == Some(head) && AllSnapshots(snapshots)
    requires Canonicalize(Candidate(head, snapshots), ctx).Some?
    ensures var after := Canonicalize(Candidate(head, snapshots), ctx).value;
            && SameHeader(after, head) && Others(after.events) == Others(head.events)
            && var given, shown := SnapshotsFor(snapshots, owner, pair), SnapshotsFor(after.events, owner, pair);
               && (given == [] ==> shown == SnapshotsFor(head.events, owner, pair))
               && (given != [] ==> forall e :: e in shown ==> e in snapshots)
               && (given != [] && (forall e :: e in snapshots ==> e.source.None?) ==> shown == given)
  {
    hide DedupAll, ObservationsLast, Unreplaced, Only, HasSnapshotFor;
    var known, rest := ctx.sources, Unreplaced(head.events, snapshots);
    var keep := (e: Event) => ShowsHolder(e, owner, pair);
    UnreplacedKept(head.chainId, known, head.events, snapshots);
    var added := DedupMore(head.chainId, known, rest, snapshots);
    UnreplacedParts(head.events, snapshots, owner, pair);
    OnlyConcat(rest, added, NoSnapshot);
    OnlyNone(added, NoSnapshot);
    OnlyConcat(rest, added, keep);
    OnlyMembers(added, keep);
    OnlyMembers(snapshots, keep);
    assert Others(rest) + [] == Others(rest);
    if SnapshotsFor(snapshots, owner, pair) == [] {
      OnlyNone(added, keep);
      assert SnapshotsFor(rest, owner, pair) + [] == SnapshotsFor(rest, owner, pair);
    } else {
      UnreplacedShown(head.events, snapshots, owner, pair);
      assert [] + SnapshotsFor(added, owner, pair) == SnapshotsFor(added, owner, pair);
    }
  }

  lemma NotShown(c: Block, snapshots: seq<Event>, owner: Id, pair: Id)
    requires Additional(c, snapshots) && SnapshotsFor(c.events, owner, pair) != []
    ensures SnapshotsFor(snapshots, owner, pair) == []
    ensures forall e :: e in snapshots ==> !ShowsHolder(e, owner, pair)
  {
    OnlyNone(snapshots, (e: Event) => ShowsHolder(e, owner, pair));
  }

  /** The chain after rounds of snapshots for its head. */
  function AugmentedBy(blocks: seq<Block>, rounds: seq<seq<Event>>): seq<Block>
    requires blocks != []
  {
    if rounds == [] then blocks
    else
      var head := blocks[|blocks| - 1];
      AugmentedChain(AugmentedBy(blocks, rounds[..|rounds| - 1]), head.number, head.hash, rounds[|rounds| - 1])
  }

  /** A chain that ends in an enriched form of `c`. */
  ghost predicate EndsIn(chain: seq<Block>, kept: seq<Block>, c: Block) {
    && |chain| == |kept| + 1 && chain[..|kept|] == kept
    && ContextOf(kept).Some? && CanonicalIn(kept, chain[|kept|]) == Some(chain[|kept|])
    && Enriched(c, chain[|kept|])
  }

  lemma {:induction false} AugmentedEndsIn(kept: seq<Block>, c: Block, rounds: seq<seq<Event>>)
    requires ContextOf(kept).Some? && CanonicalIn(kept, c) == Some(c)
    requires forall r :: r in rounds ==> Additional(c, r)
    ensures EndsIn(AugmentedBy(kept + [c], rounds), kept, c)
  {
    hide Enriched, Canonicalize, Additional, ContextOf;
    if rounds == [] {
      ItselfEnriched(c);
    } else {
      var init, last := rounds[..|rounds| - 1], rounds[|rounds| - 1];
      assert rounds == init + [last];
      AugmentedEndsIn(kept, c, init);
      AugmentedOnce(AugmentedBy(kept + [c], init), kept, c, last);
    }
  }

  lemma ItselfEnriched(c: Block)
    ensures Enriched(c, c)
  {
  }

  lemma AugmentedOnce(chain: seq<Block>, kept: seq<Block>, c: Block, snapshots: seq<Event>)
    requires EndsIn(chain, kept, c) && Additional(c, snapshots)
    ensures EndsIn(AugmentedChain(chain, c.number, c.hash, snapshots), kept, c)
  {
    hide Enriched, Canonicalize, Additional, ContextOf, Candidate, ValidBlock;
    var ctx, head := ContextOf(kept).value, chain[|kept|];
    var candidate := Candidate(head, snapshots);
    var after := AugmentedChain(chain, c.number, c.hash, snapshots);
    if after != chain {
      AugmentKeeps(ctx, c, head, snapshots);
      CanonicalizeIdempotent(candidate, ctx);
      assert after[..|kept|] == kept;
    }
  }

  /** Main result: however often the head is enriched with snapshots of positions that a delivered block does not show,
      delivering that block again is answered "duplicate". */
  lemma AugmentedRedelivered(blocks: seq<Block>, b: Block, rounds: seq<seq<Event>>)
    requires PlanFor(blocks, b).Append? || PlanFor(blocks, b).Fork?
    requires forall r :: r in rounds ==> Additional(PlanFor(blocks, b).block, r)
    ensures var chain := Retained(blocks, PlanFor(blocks, b));
            chain != [] && PlanFor(AugmentedBy(chain, rounds), b) == AlreadyKnown
  {
    hide PlanFor, Canonicalize, ContextOf, Additional, AugmentedBy;
    var plan := PlanFor(blocks, b);
    if plan.Append? {
      AppendCame(blocks, b, plan.block);
      EnrichedIsKnown(blocks, b, plan.block, rounds);
    } else {
      ForkCame(blocks, b, plan.parent, plan.block);
      EnrichedIsKnown(blocks[..plan.parent + 1], b, plan.block, rounds);
    }
  }

  lemma EnrichedIsKnown(kept: seq<Block>, b: Block, c: Block, rounds: seq<seq<Event>>)
    requires ValidBlock(b) && CanonicalIn(kept, b) == Some(c) && forall j :: 0 <= j < |kept| ==> kept[j].hash != b.hash
    requires forall r :: r in rounds ==> Additional(c, r)
    ensures PlanFor(AugmentedBy(kept + [c], rounds), b) == AlreadyKnown
  {
    hide PlanFor, Canonicalize, ContextOf, Additional, AugmentedBy, ValidBlock, Enriched, Agrees;
    var ctx := ContextOf(kept).value;
    CanonicalizeIdempotent(b, ctx);
    CanonicalizeKeepsHeader(b, ctx);
    AugmentedEndsIn(kept, c, rounds);
    EndsInKnown(AugmentedBy(kept + [c], rounds), kept, c, b);
  }

  lemma EndsInKnown(chain: seq<Block>, kept: seq<Block>, c: Block, b: Block)
    requires ValidBlock(b) && CanonicalIn(kept, b) == Some(c) && forall j :: 0 <= j < |kept| ==> kept[j].hash != b.hash
    requires EndsIn(chain, kept, c)
    ensures PlanFor(chain, b) == AlreadyKnown
    ensures |chain| == |kept| + 1 && SameHeader(chain[|kept|], b) && SameHeader(b, c)
  {
    hide PlanFor, Canonicalize, ContextOf, ValidBlock, Enriched, Agrees;
    CanonicalizeKeepsHeader(b, ContextOf(kept).value);
    EnrichedAgrees(c, chain[|kept|]);
    assert forall j :: 0 <= j < |kept| ==> chain[j] == kept[j];
    DuplicateIff(chain, b, |kept|);
  }

  lemma CanonicalizeKeepsHeader(b: Block, ctx: Context)
    requires Canonicalize(b, ctx).Some?
    ensures SameHeader(b, Canonicalize(b, ctx).value)
  {
  }

  lemma EnrichedAgrees(c: Block, head: Block)
    requires Enriched(c, head)
    ensures Agrees(head, c) && SameHeader(head, c)
  {
  }

  /** Where a planned block goes, and that it is new there. */
  lemma Planned(blocks: seq<Block>, b: Block) returns (kept: seq<Block>)
    requires PlanFor(blocks, b).Append? || PlanFor(blocks, b).Fork?
    ensures ValidBlock(b) && CanonicalIn(kept, b) == Some(PlanFor(blocks, b).block)
    ensures forall j :: 0 <= j < |kept| ==> kept[j].hash != b.hash
    ensures Retained(blocks, PlanFor(blocks, b)) == kept + [PlanFor(blocks, b).block]
    ensures EndsIn(kept + [PlanFor(blocks, b).block], kept, PlanFor(blocks, b).block)
  {
    hide PlanFor, Canonicalize, ContextOf, ValidBlock, Enriched;
    var plan := PlanFor(blocks, b);
    if plan.Append? {
      AppendCame(blocks, b, plan.block);
      kept := blocks;
    } else {
      ForkCame(blocks, b, plan.parent, plan.block);
      kept := blocks[..plan.parent + 1];
    }
    CanonicalizeIdempotent(b, ContextOf(kept).value);
    ItselfEnriched(plan.block);
    assert (kept + [plan.block])[..|kept|] == kept;
  }

  lemma SnapshotsOnly(c: Block, snapshots: seq<Event>)
    requires Additional(c, snapshots)
    ensures forall e :: e in snapshots ==> e.PositionSnapshot?
  {
  }

  lemma NotFollowing(chain: seq<Block>, kept: seq<Block>, b: Block)
    requires |chain| == |kept| + 1 && SameHeader(chain[|kept|], b)
    ensures !Follows(chain, b)
  {
  }

  /** An engine that gets a new block, has its head enriched round by round, and then gets the block again, answers
      "duplicate", even when applying the block or a round threw. */
  method DeliverTwice(e: AnalyticsEngine, b: Block, rounds: seq<seq<Event>>)
    returns (first: IngestResult, again: IngestResult)
    requires e.Valid()
    requires var plan := PlanFor(e.blocks, b);
             && (plan.Append? || plan.Fork?)
             && forall r :: r in rounds ==> Additional(plan.block, r)
    modifies e, e.priceBook
    ensures first == Appended || first == Reorganized || first == Failed
    ensures again == Duplicate
  {
    hide AnalyticsEngine.Valid, AnalyticsEngine.Thrown, PlanFor, EndsIn, AugmentedChain, AugmentAnswer, ValidBlock,
         Canonicalize, ContextOf, Admitted, Replay, NewlyFinalized, BucketsAt, MarketPairs;
    ghost var c := PlanFor(e.blocks, b).block;
    ghost var kept := Planned(e.blocks, b);
    first := e.IngestBlock(b);
    var i := 0;
    while i < |rounds|
      invariant i <= |rounds| && e.Recoverable()
      invariant e.priceBook == old(e.priceBook) || fresh(e.priceBook)
      invariant EndsIn(e.blocks, kept, c)
    {
      assert rounds[i] in rounds;
      SnapshotsOnly(c, rounds[i]);
      EndsInKnown(e.blocks, kept, c, b);
      AugmentedOnce(e.blocks, kept, c, rounds[i]);
      var r := e.AugmentHeadPositionSnapshots(b.number, b.hash, rounds[i]);
      i := i + 1;
    }
    EndsInKnown(e.blocks, kept, c, b);
    NotFollowing(e.blocks, kept, b);
    again := e.IngestBlock(b);
  }
}
