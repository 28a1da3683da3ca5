/** What the engine's operations do to the chain and to derived state, as functions, with the facts that the
    engine's methods rely on.
    The functions say which candles a new head finalizes, how an incoming block is placed on the chain, what a
    head augmented with snapshots looks like, and how far a restore gets. The lemmas advance a replay by one
    block or one event, carry a failure to the end of a replay, and put the parts of the state that the methods
    update one at a time back together. */
module EngineSpec {
  import opened Domain
  import opened PriceBook
  import opened PairIndex
  import opened Candles
  import opened Rollups
  import opened Chain
  import opened Ingest
  import opened Projection
  import opened Admission
  import opened ViewInvariants

  /** The as-of index of every pair is the index of its history. */
  ghost predicate IndexesBuilt(snapshots: map<Id, seq<Entry>>, histories: map<Id, seq<Stamp>>) {
    && snapshots.Keys == histories.Keys
    && forall p: Id :: p in snapshots ==> snapshots[p] == BuildIndex(histories[p])
  }

  function MarketPairs(events: seq<Event>): set<Id> {
    set e | e in events && e.IsMarket() :: e.ident.pair
  }

  datatype BackfillStatus = Unavailable | Running | Complete | PartialHistory | Capped

  datatype Backfill = Backfill(status: BackfillStatus, cursor: Option<Id>, error: Option<Id>,
                               coverageStart: Option<int>, coverageThrough: Option<int>)

  const FULL_HISTORY_START := -9_007_199_254_740_991

  const INTERVALS: seq<Interval> := [Minute, FiveMinutes, FifteenMinutes, Hour, FourHours, Day, Week]

  /** Candles that end between the previous head and the next. */
  function NewlyFinalized(pairs: set<Id>, c: CandleMap, previous: Option<int>, next: int): set<Key> {
    if previous.None? || next <= previous.value then {}
    else
      set p, i | p in pairs && i in INTERVALS && Finalizes(c, Bucket(p, i, previous.value), previous.value, next)
        :: Bucket(p, i, previous.value)
  }

  predicate Finalizes(c: CandleMap, k: Key, previous: int, next: int) {
    k in c && previous < k.start + Seconds(k.interval) <= next
  }

  /** The buckets that hold `t`, at every level, for the listed pairs. */
  function BucketsAt(pairs: set<Id>, t: int): set<Key> {
    set p, i | p in pairs && i in INTERVALS :: Bucket(p, i, t)
  }

  datatype Checkpoint = Checkpoint(reorgCount: int, blocks: seq<Block>, backfill: Backfill)

  datatype Head = Head(number: int, hash: Id, timestamp: int)

  datatype RewindResult = InvalidHead | OutsideHistory | HeadMoved | AtHead | Rewound

  function NumberIndex(blocks: seq<Block>, number: int): (r: Option<nat>)
    ensures r.Some? ==> r.value < |blocks| && blocks[r.value].number == number
    ensures r.None? ==> forall i :: 0 <= i < |blocks| ==> blocks[i].number != number
  {
    if blocks == [] then None
    else
      var earlier := NumberIndex(blocks[..|blocks| - 1], number);
      if earlier.Some? then earlier
      else if blocks[|blocks| - 1].number == number then Some(|blocks| - 1)
      else None
  }

  method FindByNumber(blocks: seq<Block>, number: int) returns (r: Option<nat>)
    ensures r == NumberIndex(blocks, number)
  {
    var i := 0;
    while i < |blocks|
      invariant i <= |blocks|
      invariant NumberIndex(blocks[..i], number) == None
    {
      assert blocks[..i + 1][..i] == blocks[..i];
      if blocks[i].number == number {
        NumberFound(blocks, number, i);
        return Some(i);
      }
      i := i + 1;
    }
    assert blocks[..i] == blocks;
    r := None;
  }

  lemma {:induction false} NumberFound(blocks: seq<Block>, number: int, i: nat)
    requires i < |blocks| && blocks[i].number == number && NumberIndex(blocks[..i], number) == None
    ensures NumberIndex(blocks, number) == Some(i)
  {
    var init := blocks[..|blocks| - 1];
    if i < |init| {
      assert init[..i] == blocks[..i];
      NumberFound(init, number, i);
    }
  }

  function RewindAnswer(blocks: seq<Block>, expected: Head): RewindResult {
    if expected.number < 0 || expected.timestamp < 0 then InvalidHead
    else
      var index := NumberIndex(blocks, expected.number);
      if index.None? then OutsideHistory
      else if blocks[index.value].hash != expected.hash || blocks[index.value].timestamp != expected.timestamp then HeadMoved
      else if index.value == |blocks| - 1 then AtHead else Rewound
  }

  function Receded(backfill: Backfill, timestamp: int): Backfill {
    if backfill.coverageThrough.Some? && timestamp < backfill.coverageThrough.value
    then backfill.(coverageThrough := Some(timestamp)) else backfill
  }

  datatype AugmentResult = NoHead | OtherHead | MalformedSnapshots | SnapshotConflict | Augmented | AugmentFailed

  /** The events that snapshots for the given owners and pairs do not replace. */
  function Unreplaced(events: seq<Event>, snapshots: seq<Event>): seq<Event>
  {
    if events == [] then []
    else
      var rest, last := Unreplaced(events[..|events| - 1], snapshots), events[|events| - 1];
      if last.PositionSnapshot? && HasSnapshotFor(snapshots, last.owner, last.ident.pair) then rest else rest + [last]
  }

  function Candidate(head: Block, snapshots: seq<Event>): Block {
    head.(events := Unreplaced(head.events, snapshots) + snapshots)
  }

  lemma CandidateShape(head: Block, snapshots: seq<Event>)
    ensures var c := Candidate(head, snapshots); c == head.(events := c.events)
  {
  }

  function AugmentedHead(blocks: seq<Block>, snapshots: seq<Event>): Option<Block>
    requires blocks != []
  {
    var candidate := Candidate(blocks[|blocks| - 1], snapshots);
    if !ValidBlock(candidate) then None else CanonicalIn(blocks[..|blocks| - 1], candidate)
  }

  function AugmentedChain(blocks: seq<Block>, number: int, hash: Id, snapshots: seq<Event>): seq<Block> {
    if blocks == [] || blocks[|blocks| - 1].number != number || blocks[|blocks| - 1].hash != hash then blocks
    else
      var head := AugmentedHead(blocks, snapshots);
      if head.None? then blocks else blocks[..|blocks| - 1] + [head.value]
  }

  function AugmentAnswer(blocks: seq<Block>, number: int, hash: Id, snapshots: seq<Event>, replays: bool): AugmentResult {
    if blocks == [] then NoHead
    else if blocks[|blocks| - 1].number != number || blocks[|blocks| - 1].hash != hash then OtherHead
    else if !ValidBlock(Candidate(blocks[|blocks| - 1], snapshots)) then MalformedSnapshots
    else if AugmentedHead(blocks, snapshots).None? then SnapshotConflict
    else if replays then Augmented else AugmentFailed
  }

  lemma RestoresNext(policies: Policies, blocks: seq<Block>, i: nat)
    requires CanonicalChain(blocks) && Replay(policies, blocks).ok && i < |blocks|
    ensures PlanFor(blocks[..i], blocks[i]) == Append(blocks[i])
    ensures blocks[..i] + [blocks[i]] == blocks[..i + 1] && Replay(policies, blocks[..i + 1]).ok
  {
    hide CanonicalChain, Replay, PlanFor;
    RetainedAppends(blocks, i);
    ReplayPrefixOk(policies, blocks, i + 1);
  }

  /** `Failed` is a throw after the block was retained. */
  datatype IngestResult = Appended | Duplicate | Reorganized | Refused(why: Refusal) | Failed

  function Answer(plan: Plan, replays: bool): IngestResult {
    match plan
    case Refuse(why) => Refused(why)
    case AlreadyKnown => Duplicate
    case Append(_) => if replays then Appended else Failed
    case Fork(_, _) => if replays then Reorganized else Failed
  }

  /** Ingesting throws after retaining the block exactly when the guard does not admit the new chain. */
  lemma FailedIff(policies: Policies, blocks: seq<Block>, b: Block)
    requires CanonicalChain(blocks)
    ensures var plan := PlanFor(blocks, b);
            Answer(plan, Replay(policies, Retained(blocks, plan)).ok).Failed? <==>
            (plan.Append? || plan.Fork?) && !Admitted(Retained(blocks, plan))
  {
    hide CanonicalChain, Replay, Admitted, PlanFor, Retained;
    PlanKeepsChain(blocks, b);
    CanonicalReplaysIff(policies, Retained(blocks, PlanFor(blocks, b)));
  }

  /** What restoring has done so far: the retained chain, the reorganisations counted, the coverage, and whether no
      block was refused or threw. */
  datatype Restored = Restored(chain: seq<Block>, reorgs: int, backfill: Backfill, ok: bool)

  ghost function RestoreStep(r: Restored, b: Block): Restored {
    var plan := PlanFor(r.chain, b);
    var chain := Retained(r.chain, plan);
    var applied := !plan.Refuse? && (plan.AlreadyKnown? || Admitted(chain));
    Restored(chain, r.reorgs + (if plan.Fork? then 1 else 0),
             if applied && !plan.AlreadyKnown? then Advanced(r.backfill, b.timestamp) else r.backfill, applied)
  }

  /** Ingesting a checkpoint's blocks one by one until one is refused or throws. */
  ghost function RestoreAll(start: Restored, blocks: seq<Block>): Restored {
    if blocks == [] then start
    else
      var before := RestoreAll(start, blocks[..|blocks| - 1]);
      if !before.ok then before else RestoreStep(before, blocks[|blocks| - 1])
  }

  lemma {:induction false} RestoreStuck(start: Restored, blocks: seq<Block>, i: nat)
    requires i <= |blocks| && !RestoreAll(start, blocks[..i]).ok
    ensures RestoreAll(start, blocks) == RestoreAll(start, blocks[..i])
    decreases |blocks| - i
  {
    hide RestoreStep;
    if i < |blocks| {
      assert blocks[..i + 1][..i] == blocks[..i];
      RestoreStuck(start, blocks, i + 1);
    } else {
      assert blocks[..i] == blocks;
    }
  }

  lemma RestoreNothing(start: Restored, blocks: seq<Block>)
    ensures RestoreAll(start, blocks[..0]) == start
  {
    assert blocks[..0] == [];
  }

  lemma RestoreNextBlock(start: Restored, blocks: seq<Block>, i: nat)
    requires i < |blocks| && RestoreAll(start, blocks[..i]).ok
    ensures RestoreAll(start, blocks[..i + 1]) == RestoreStep(RestoreAll(start, blocks[..i]), blocks[i])
  {
    hide RestoreStep;
    assert blocks[..i + 1][..i] == blocks[..i];
  }

  function HeadTimestamp(blocks: seq<Block>): Option<int> {
    if blocks == [] then None else Some(blocks[|blocks| - 1].timestamp)
  }

  lemma CanonicalizeKeepsTime(b: Block, ctx: Context)
    ensures Canonicalize(b, ctx).Some? ==> Canonicalize(b, ctx).value.timestamp == b.timestamp
  {
  }

  function Advanced(backfill: Backfill, timestamp: int): Backfill {
    if backfill.status == Complete then backfill.(coverageThrough := Some(timestamp)) else backfill
  }

  lemma ContextAppend(blocks: seq<Block>, c: Block, ctx: Context)
    requires ContextOf(blocks) == Some(ctx)
    ensures ContextOf(blocks + [c]) == AddBlock(ctx, c)
  {
    assert (blocks + [c])[..|blocks|] == blocks;
  }

  lemma NewlyFinalizedGrows(pairs: set<Id>, pair: Id, c: CandleMap, previous: Option<int>, next: int)
    ensures NewlyFinalized(pairs + {pair}, c, previous, next)
            == NewlyFinalized(pairs, c, previous, next) + NewlyFinalized({pair}, c, previous, next)
  {
    hide Boundary, Finalizes;
  }

  lemma NothingRolledUp()
    ensures IsRolledUp(map[])
  {
    forall k: Key | k.interval != Minute
      ensures BucketRight(map[], k)
    {
      RolledEmpty(k, Slots(k.interval));
    }
  }

  lemma NothingKept()
    ensures IndexesBuilt(map[], map[]) && MinutesOf(map[]) == map[]
  {
  }

  lemma ReplayNothing(policies: Policies, blocks: seq<Block>)
    ensures Replay(policies, blocks[..0]) == Outcome(EMPTY_VIEW, {}, false, [], true)
  {
    assert blocks[..0] == [];
  }

  lemma ReplayStep(policies: Policies, blocks: seq<Block>, i: nat)
    requires i < |blocks| && Replay(policies, blocks[..i]).ok
    ensures Replay(policies, blocks[..i + 1]) == AfterBlock(policies, Replay(policies, blocks[..i]).view, blocks[i])
  {
    hide AfterBlock;
    assert blocks[..i + 1] == blocks[..i] + [blocks[i]];
    ReplayAppend(policies, blocks[..i], blocks[i]);
  }

  lemma {:induction false} ReplayStuck(policies: Policies, blocks: seq<Block>, i: nat)
    requires i <= |blocks| && !Replay(policies, blocks[..i]).ok
    ensures Replay(policies, blocks) == Replay(policies, blocks[..i])
    decreases |blocks| - i
  {
    hide AfterBlock;
    if i < |blocks| {
      assert blocks[..i + 1] == blocks[..i] + [blocks[i]];
      ReplayAppend(policies, blocks[..i], blocks[i]);
      ReplayStuck(policies, blocks, i + 1);
    } else {
      assert blocks[..i] == blocks;
    }
  }

  lemma ChainValid(blocks: seq<Block>, i: nat)
    requires CanonicalChain(blocks) && i < |blocks|
    ensures ValidBlock(blocks[i])
  {
    PrefixCanonical(blocks, i);
  }

  lemma BookOk(policies: Policies, v: View)
    requires ViewOk(policies, v)
    ensures BookValid(policies, v.book)
  {
  }

  lemma NothingOffered(policies: Policies, book: Book, prices: seq<Sample>, t: int)
    ensures AppliedAll(policies, book, Offers(prices[..0], t)) == book
  {
    assert prices[..0] == [];
  }

  lemma PricesOnly(policies: Policies, before: View, after: View, b: Block)
    requires after.book == AppliedAll(policies, before.book, Offers(b.prices, b.timestamp))
    requires after.listing == before.listing && after.flows == before.flows && after.minutes == before.minutes
    requires after.holdings == before.holdings && after.activity == before.activity && after.pools == before.pools
    requires after.partialCount == before.partialCount && after.missing == before.missing
    ensures after == WithPrices(policies, before, b)
  {
  }

  lemma OffersStep(policies: Policies, book: Book, prices: seq<Sample>, t: int, i: nat)
    requires i < |prices|
    ensures AppliedAll(policies, book, Offers(prices[..i + 1], t))
            == Applied(policies, AppliedAll(policies, book, Offers(prices[..i], t)), Offer(prices[i], t))
  {
    hide Applied;
    assert prices[..i + 1][..i] == prices[..i];
    var offers := Offers(prices[..i], t);
    assert (offers + [Offer(prices[i], t)])[..|offers|] == offers;
  }

  lemma NoEvents(policies: Policies, v: View, b: Block)
    ensures b.events[..0] == [] && AfterEvents(policies, v, [], b) == Outcome(v, {}, false, [], true)
  {
  }

  lemma AfterEventsStep(policies: Policies, v: View, b: Block, i: nat)
    requires i < |b.events| && AfterEvents(policies, v, b.events[..i], b).ok
    ensures var before := AfterEvents(policies, v, b.events[..i], b);
            var r := AfterEvent(policies, before.view, b.events[i], b, i);
            AfterEvents(policies, v, b.events[..i + 1], b) == r.(updates := before.updates + r.updates)
  {
    hide AfterEvent;
    assert b.events[..i + 1][..i] == b.events[..i];
  }

  lemma {:induction false} AfterEventsStuck(policies: Policies, v: View, b: Block, i: nat)
    requires i <= |b.events| && !AfterEvents(policies, v, b.events[..i], b).ok
    ensures AfterEvents(policies, v, b.events, b) == AfterEvents(policies, v, b.events[..i], b)
    decreases |b.events| - i
  {
    hide AfterEvent;
    if i < |b.events| {
      assert b.events[..i + 1][..i] == b.events[..i];
      AfterEventsStuck(policies, v, b, i + 1);
    } else {
      assert b.events[..i] == b.events;
    }
  }

  lemma LocalChangeIn(a: CandleMap, b: CandleMap, c: CandleMap, events: seq<Event>, i: nat, t: int)
    requires i < |events| && LocalChange(a, b, MarketPairs(events), t)
    requires LocalChange(b, c, if events[i].IsMarket() then {events[i].ident.pair} else {}, t)
    ensures LocalChange(a, c, MarketPairs(events), t)
  {
    assert events[i] in events;
  }

  lemma NothingRecorded(v: View)
    ensures Recorded(Outcome(v, {}, false, [], false)) == v
  {
  }

  /** Tokens recorded before a step do not influence it. */
  lemma MissingCommutes(v: View, missing: set<Id>, e: Event, state: PairState, b: Block, q: Quotes)
    requires e.IsMarket()
    ensures var r := AfterPublished(v, e, state, b, q);
            && r.view.missing == v.missing
            && AfterPublished(v.(missing := missing), e, state, b, q) == r.(view := r.view.(missing := missing))
  {
    hide SwapRow, WithRow, WithSwapAt, AfterLiquidity, AfterObservation;
  }

  /** The state once a published pair state, if any, is listed, charted and its missing tokens recorded. */
  function AfterPublishing(v: View, published: Option<PairState>): View {
    if published.None? then v
    else
      var state := published.value;
      WithTouch(WithPair(v, state), state).(missing := v.missing + state.missing)
  }

  lemma Assemble(before: View, after: View, published: Option<PairState>)
    requires after.listing == if published.None? then before.listing else Listed(before.listing, published.value)
    requires after.minutes == if published.None? then before.minutes else TouchedAt(before.minutes, published.value)
    requires after.missing == before.missing + if published.None? then {} else published.value.missing
    requires after.book == before.book && after.flows == before.flows && after.holdings == before.holdings
    requires after.activity == before.activity && after.pools == before.pools
    requires after.partialCount == before.partialCount
    ensures after == AfterPublishing(before, published)
  {
    hide Listed, TouchedAt;
  }

  lemma LocalSelf(c: CandleMap, pairs: set<Id>, t: int)
    ensures LocalChange(c, c, pairs, t)
  {
  }

  lemma LocalChangeTwice(a: CandleMap, b: CandleMap, c: CandleMap, pairs: set<Id>, t: int)
    requires LocalChange(a, b, pairs, t) && LocalChange(b, c, pairs, t)
    ensures LocalChange(a, c, pairs, t)
  {
  }

  lemma NothingIndexed()
    ensures BuildIndex([]) == []
  {
  }

  lemma BuildIndexStep(history: seq<Stamp>, s: Stamp)
    ensures BuildIndex(history + [s]) == Indexed(BuildIndex(history), s)
  {
    assert (history + [s])[..|history|] == history;
  }

  lemma PutMinute(c: CandleMap, k: Key, candle: Candle)
    requires k.interval == Minute
    ensures MinutesOf(c[k := candle]) == MinutesOf(c)[k := candle]
    ensures forall x: Key :: x != k ==> Find(c[k := candle], x) == Find(c, x)
  {
  }
}
