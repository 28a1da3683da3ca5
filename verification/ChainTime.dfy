/** What ordered block times add: block ranges of candles run forward, the browser accepts every candle, and
    the keys an append reports cover every candle whose published form changed. */
module ChainTime {
  import opened Domain
  import opened PairIndex
  import opened Flows
  import opened Candles
  import opened CandleTheorems
  import opened Chain
  import opened Projection
  import opened ViewInvariants
  import opened EngineSpec
  import opened Engine

  ghost predicate TimesOrdered(blocks: seq<Block>) {
    forall i, j :: 0 <= i < j < |blocks| ==> blocks[i].timestamp <= blocks[j].timestamp
  }

  /** Minute candles so far: their ranges are ordered, end by `number`, start by `t`, and belong to known pairs. */
  ghost predicate MinutesBy(minutes: CandleMap, pairs: set<Id>, number: int, t: int) {
    && RangesOrdered(minutes, Minute)
    && forall k :: k in minutes ==> MinuteBy(k, minutes[k], pairs, number, t)
  }

  ghost predicate MinuteBy(k: Key, c: Candle, pairs: set<Id>, number: int, t: int) {
    k.interval == Minute && Aligned(k) && c.lastBlock <= number && k.start <= t && k.pair in pairs
  }

  lemma MinutesLater(minutes: CandleMap, pairs: set<Id>, number: int, t: int, n: int, u: int)
    requires MinutesBy(minutes, pairs, number, t) && number <= n && t <= u
    ensures MinutesBy(minutes, pairs, n, u)
  {
    hide Aligned, RangesOrdered;
  }

  lemma AlignedBefore(s: int, t: int)
    requires s == Boundary(s, Minute) && s <= t
    ensures s <= Boundary(t, Minute) <= t
  {
    BoundaryHolds(t, Minute);
    BoundaryTiles(t, s, Minute);
    BoundaryTiles(s, Boundary(t, Minute), Minute);
  }

  /** Touching the minute of a block no earlier than all before it. */
  lemma TouchedBy(minutes: CandleMap, pairs: set<Id>, state: PairState)
    requires MinutesBy(minutes, pairs, state.block, state.timestamp)
    ensures MinutesBy(TouchedAt(minutes, state), pairs + {state.ident.pair}, state.block, state.timestamp)
  {
    hide Boundary;
    var k, r := MinuteKey(state), TouchedAt(minutes, state);
    BoundaryHolds(state.timestamp, Minute);
    TouchedRange(minutes, state);
    forall x | x in minutes
      ensures x.start <= k.start
    {
      assert MinuteBy(x, minutes[x], pairs, state.block, state.timestamp);
      AlignedBefore(x.start, state.timestamp);
    }
    PutLastRange(minutes, k, r[k], state.block);
  }

  lemma TouchedRange(minutes: CandleMap, state: PairState)
    ensures var k, c := MinuteKey(state), TouchedAt(minutes, state)[MinuteKey(state)];
            && c.lastBlock == state.block
            && c.firstBlock == if k in minutes then minutes[k].firstBlock else state.block
  {
  }

  /** A candle that no other starts after may be stored with a later last block. */
  lemma PutLastRange(minutes: CandleMap, k: Key, c: Candle, number: int)
    requires RangesOrdered(minutes, Minute) && k.interval == Minute
    requires forall x :: x in minutes ==> x.interval == Minute && minutes[x].lastBlock <= number && x.start <= k.start
    requires c.lastBlock == number && c.firstBlock == if k in minutes then minutes[k].firstBlock else number
    ensures RangesOrdered(minutes[k := c], Minute)
  {
  }

  lemma SwappedBy(minutes: CandleMap, pairs: set<Id>, state: PairState, row: FlowRow)
    requires MinutesBy(minutes, pairs, state.block, state.timestamp) && MinuteKey(state) in minutes
    ensures MinutesBy(WithSwapAt(minutes, state, row), pairs, state.block, state.timestamp)
  {
    hide Boundary, Aligned;
    var k, r := MinuteKey(state), WithSwapAt(minutes, state, row);
    SwappedRange(minutes, state, row);
    assert MinuteBy(k, minutes[k], pairs, state.block, state.timestamp);
  }

  lemma SwappedRange(minutes: CandleMap, state: PairState, row: FlowRow)
    requires MinuteKey(state) in minutes
    ensures var k, c := MinuteKey(state), WithSwapAt(minutes, state, row)[MinuteKey(state)];
            c.lastBlock == minutes[k].lastBlock && c.firstBlock == minutes[k].firstBlock
  {
  }

  ghost predicate ViewBy(v: View, number: int, t: int) {
    MinutesBy(v.minutes, v.listing.pairs.Keys, number, t)
  }

  lemma MarketBy(policies: Policies, v: View, e: Event, b: Block)
    requires e.IsMarket() && ViewBy(v, b.number, b.timestamp) && AfterMarket(policies, v, e, b).ok
    ensures ViewBy(AfterMarket(policies, v, e, b).view, b.number, b.timestamp)
  {
    hide MinutesBy, Published, TouchedAt, WithSwapAt, SwapRow, QuotesAt, SamePairIdentity, AfterLiquidity,
         AfterObservation, WithRow;
    var current := CurrentPair(v.listing, e.ident.pair);
    var q := QuotesAt(policies, v.book, e.ident, b.timestamp);
    var state := Published(current, e, b, q);
    PublishedAt(current, e, b, q);
    TouchedBy(v.minutes, v.listing.pairs.Keys, state);
    var touched := WithTouch(WithPair(v, state), state);
    assert touched.listing.pairs.Keys == v.listing.pairs.Keys + {state.ident.pair};
    if e.Swap? {
      TouchedHas(v.minutes, state);
      SwappedBy(touched.minutes, touched.listing.pairs.Keys, state, SwapRow(e, state, q));
    }
  }

  lemma TouchedHas(minutes: CandleMap, state: PairState)
    ensures MinuteKey(state) in TouchedAt(minutes, state)
  {
  }

  lemma EventBy(policies: Policies, v: View, e: Event, b: Block, index: nat)
    requires ViewBy(v, b.number, b.timestamp) && AfterEvent(policies, v, e, b, index).ok
    ensures ViewBy(AfterEvent(policies, v, e, b, index).view, b.number, b.timestamp)
  {
    hide MinutesBy, AfterMarket, AfterSnapshot, AfterTransfer, QuotesAt, ActivityRow;
    var logged := Logged(v, e, b, index);
    if e.IsMarket() {
      MarketBy(policies, logged, e, b);
    }
  }

  lemma {:induction false} EventsBy(policies: Policies, v: View, events: seq<Event>, b: Block)
    requires ViewBy(v, b.number, b.timestamp) && AfterEvents(policies, v, events, b).ok
    ensures ViewBy(AfterEvents(policies, v, events, b).view, b.number, b.timestamp)
  {
    hide ViewBy, AfterEvent;
    if events != [] {
      var n := |events| - 1;
      EventsBy(policies, v, events[..n], b);
      EventBy(policies, AfterEvents(policies, v, events[..n], b).view, events[n], b, n);
    }
  }

  lemma BlockBy(policies: Policies, v: View, b: Block, number: int, t: int)
    requires ViewBy(v, number, t) && number <= b.number && t <= b.timestamp && AfterBlock(policies, v, b).ok
    ensures ViewBy(AfterBlock(policies, v, b).view, b.number, b.timestamp)
  {
    hide MinutesBy, AfterEvents;
    MinutesLater(v.minutes, v.listing.pairs.Keys, number, t, b.number, b.timestamp);
    EventsBy(policies, WithPrices(policies, v, b), b.events, b);
  }

  lemma NothingBy(number: int, t: int)
    ensures ViewBy(EMPTY_VIEW, number, t)
  {
  }

  lemma {:induction false} ReplayBy(policies: Policies, blocks: seq<Block>)
    requires CanonicalChain(blocks) && TimesOrdered(blocks) && blocks != [] && Replay(policies, blocks).ok
    ensures ViewBy(Replay(policies, blocks).view, blocks[|blocks| - 1].number, blocks[|blocks| - 1].timestamp)
  {
    hide ViewBy, AfterBlock, Canonicalize, ValidBlock, ContextOf;
    var init, b := blocks[..|blocks| - 1], blocks[|blocks| - 1];
    if init == [] {
      NothingBy(b.number, b.timestamp);
      BlockBy(policies, EMPTY_VIEW, b, b.number, b.timestamp);
    } else {
      ReplayBy(policies, init);
      BlockBy(policies, Replay(policies, init).view, b, init[|init| - 1].number, init[|init| - 1].timestamp);
    }
  }

  // The browser's checks

  lemma RangesOfMinutes(c: CandleMap)
    requires RangesOrdered(MinutesOf(c), Minute)
    ensures RangesOrdered(c, Minute)
  {
    forall k | k in c && k.interval == Minute
      ensures k in MinutesOf(c) && MinutesOf(c)[k] == c[k]
    {
    }
    forall a, b | a in c && b in c && Earlier(a, b, Minute)
      ensures c[a].lastBlock <= c[b].firstBlock
    {
      assert a in MinutesOf(c) && b in MinutesOf(c);
    }
  }

  lemma CandleAligned(c: CandleMap, k: Key)
    requires IsRolledUp(c) && k in c
    ensures Aligned(k)
  {
    if k.interval != Minute {
      assert BucketRight(c, k);
    }
  }

  /** When block times never decrease, every candle of a reachable engine, at every interval, passes the
      browser's range-independent checks. */
  lemma EngineCandlesAccepted(e: AnalyticsEngine, k: Key)
    requires e.Valid() && TimesOrdered(e.blocks) && k in e.candles
    ensures BrowserAccepts(Finalize(k, e.candles[k]))
  {
    hide ListingOk, OwnersOk, PoolsOk, FlowsOk, IsRolledUp, Replay, CanonicalChain, ContextOf, BrowserAccepts,
         Finalize, IndexesBuilt, SwapSums, Aligned, PricesCoherent, RangesOrdered;
    CandleAligned(e.candles, k);
    if e.blocks == [] {
      EmptyMinutes(e.policies, e.blocks);
      NothingBy(0, 0);
    } else {
      ReplayBy(e.policies, e.blocks);
    }
    RangesOfMinutes(e.candles);
    AllRangesOrdered(e.candles, k.interval);
    RangeOf(e.candles, k);
    forall m | m in e.candles && m.interval == Minute
      ensures PricesCoherent(e.candles[m])
    {
      assert m in MinutesOf(e.candles);
    }
    AllCoherent(e.candles, k);
    AcceptedIffForward(k, e.candles[k]);
  }

  lemma EmptyMinutes(policies: Policies, blocks: seq<Block>)
    requires blocks == []
    ensures Replay(policies, blocks).view == EMPTY_VIEW
  {
  }

  lemma RangeOf(c: CandleMap, k: Key)
    requires RangesOrdered(c, k.interval) && k in c
    ensures c[k].firstBlock <= c[k].lastBlock
  {
  }
}
