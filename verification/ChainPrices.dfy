/** The states a chain publishes for a pair, in order, and what they make of its minute candles. */
module ChainPrices {
  import opened Domain
  import opened PriceBook
  import opened PairIndex
  import opened Flows
  import opened Candles
  import opened Chain
  import opened Projection
  import opened ViewInvariants
  import opened EngineSpec
  import opened Engine
  import opened ChainSwaps
  import opened CandlePrices

  // Published states

  function LastState(states: seq<PairState>, before: Option<PairState>): Option<PairState> {
    if states == [] then before else Some(states[|states| - 1])
  }

  /** What an event publishes for a pair whose last published state is `before`, if anything. */
  function EventState(policies: Policies, book: Book, before: Option<PairState>, e: Event, b: Block, pair: Id)
    : seq<PairState>
  {
    if !e.IsMarket() || e.ident.pair != pair then []
    else [Published(before, e, b, QuotesAt(policies, book, e.ident, b.timestamp))]
  }

  /** What the events of a block publish for a pair, one after the other, when `before` was published last. */
  function EventStates(policies: Policies, book: Book, before: Option<PairState>, events: seq<Event>, b: Block,
                       pair: Id)
    : seq<PairState>
  {
    if events == [] then []
    else
      var rest, e := EventStates(policies, book, before, events[..|events| - 1], b, pair), events[|events| - 1];
      rest + EventState(policies, book, LastState(rest, before), e, b, pair)
  }

  /** What the market events of a pair publish over the retained blocks, in chain order. */
  function ChainStates(policies: Policies, blocks: seq<Block>, pair: Id): seq<PairState> {
    if blocks == [] then []
    else
      var rest, b := ChainStates(policies, blocks[..|blocks| - 1], pair), blocks[|blocks| - 1];
      rest + EventStates(policies, BookAfter(policies, blocks), LastState(rest, None), b.events, b, pair)
  }

  /** The states of a minute. */
  function InMinute(states: seq<PairState>, m: Key): seq<PairState> {
    if states == [] then []
    else
      var rest, last := InMinute(states[..|states| - 1], m), states[|states| - 1];
      if MinuteKey(last) == m then rest + [last] else rest
  }

  // What states make of a candle

  ghost predicate FirstPrice(v: Option<int>, states: seq<PairState>) {
    if v.None? then forall i :: 0 <= i < |states| ==> states[i].priceUsd.None?
    else exists i :: 0 <= i < |states| && states[i].priceUsd == v && forall j :: 0 <= j < i ==> states[j].priceUsd.None?
  }

  ghost predicate LastPrice(v: Option<int>, states: seq<PairState>) {
    if v.None? then forall i :: 0 <= i < |states| ==> states[i].priceUsd.None?
    else exists i :: 0 <= i < |states| && states[i].priceUsd == v
                     && forall j :: i < j < |states| ==> states[j].priceUsd.None?
  }

  ghost predicate TopPrice(v: Option<int>, states: seq<PairState>) {
    if v.None? then forall i :: 0 <= i < |states| ==> states[i].priceUsd.None?
    else && (exists i :: 0 <= i < |states| && states[i].priceUsd == v)
         && forall i :: 0 <= i < |states| && states[i].priceUsd.Some? ==> states[i].priceUsd.value <= v.value
  }

  ghost predicate BottomPrice(v: Option<int>, states: seq<PairState>) {
    if v.None? then forall i :: 0 <= i < |states| ==> states[i].priceUsd.None?
    else && (exists i :: 0 <= i < |states| && states[i].priceUsd == v)
         && forall i :: 0 <= i < |states| && states[i].priceUsd.Some? ==> v.value <= states[i].priceUsd.value
  }

  /** One source throughout, or a mix. */
  ghost predicate SourceIs(v: Option<PriceSource>, states: seq<PairState>)
    requires states != []
  {
    v == Some(if forall i :: 0 <= i < |states| ==> states[i].priceSource == states[0].priceSource
              then states[0].priceSource else Mixed)
  }

  /** First, last, greatest and least price, and the other fields, of the states published in the candle's minute. */
  ghost predicate PricedBy(c: Candle, states: seq<PairState>)
    requires states != []
  {
    var first, last := states[0], states[|states| - 1];
    && FirstPrice(c.open, states) && LastPrice(c.close, states)
    && TopPrice(c.high, states) && BottomPrice(c.low, states)
    && c.tvl == last.tvlUsd && c.lastBlock == last.block && c.lastHash == last.blockHash
    && c.firstBlock == first.block && c.firstHash == first.blockHash && c.quoteToken == first.quoteToken
    && SourceIs(c.source, states)
    && forall i :: 0 <= i < |states| ==> states[i].missing <= c.missing
  }

  ghost predicate MinuteRight(c: Option<Candle>, states: seq<PairState>) {
    if states == [] then c.None? else c.Some? && PricedBy(c.value, states)
  }

  // One state more

  lemma OneFirst(v: Option<int>, states: seq<PairState>, s: PairState)
    requires FirstPrice(v, states)
    ensures FirstPrice(v.Or(s.priceUsd), states + [s])
  {
    var more := states + [s];
    assert more[|states|] == s && forall i :: 0 <= i < |states| ==> more[i] == states[i];
    if v.Some? {
      var i :| 0 <= i < |states| && states[i].priceUsd == v && forall j :: 0 <= j < i ==> states[j].priceUsd.None?;
      assert more[i].priceUsd == v;
    } else if s.priceUsd.Some? {
      assert more[|states|].priceUsd == s.priceUsd;
    }
  }

  lemma OneLast(v: Option<int>, states: seq<PairState>, s: PairState)
    requires LastPrice(v, states)
    ensures LastPrice(s.priceUsd.Or(v), states + [s])
  {
    var more := states + [s];
    assert more[|states|] == s && forall i :: 0 <= i < |states| ==> more[i] == states[i];
    if s.priceUsd.Some? {
      assert more[|states|].priceUsd == s.priceUsd;
    } else if v.Some? {
      var i :| 0 <= i < |states| && states[i].priceUsd == v
               && forall j :: i < j < |states| ==> states[j].priceUsd.None?;
      assert more[i].priceUsd == v;
    }
  }

  lemma OneTop(v: Option<int>, states: seq<PairState>, s: PairState)
    requires TopPrice(v, states)
    ensures TopPrice(if s.priceUsd.None? then v else Higher(v, s.priceUsd.value), states + [s])
  {
    var more := states + [s];
    assert more[|states|] == s && forall i :: 0 <= i < |states| ==> more[i] == states[i];
    if v.Some? {
      var i :| 0 <= i < |states| && states[i].priceUsd == v;
      assert more[i].priceUsd == v;
    }
    if s.priceUsd.Some? {
      assert more[|states|].priceUsd == s.priceUsd;
    }
  }

  lemma OneBottom(v: Option<int>, states: seq<PairState>, s: PairState)
    requires BottomPrice(v, states)
    ensures BottomPrice(if s.priceUsd.None? then v else Lower(v, s.priceUsd.value), states + [s])
  {
    var more := states + [s];
    assert more[|states|] == s && forall i :: 0 <= i < |states| ==> more[i] == states[i];
    if v.Some? {
      var i :| 0 <= i < |states| && states[i].priceUsd == v;
      assert more[i].priceUsd == v;
    }
    if s.priceUsd.Some? {
      assert more[|states|].priceUsd == s.priceUsd;
    }
  }

  lemma OneSource(v: Option<PriceSource>, states: seq<PairState>, s: PairState)
    requires states == [] ==> v.None?
    requires states != [] ==> SourceIs(v, states)
    ensures SourceIs(Some(MergePriceSource(v, s.priceSource)), states + [s])
  {
    var more := states + [s];
    assert more[|states|] == s && forall i :: 0 <= i < |states| ==> more[i] == states[i];
    if states != [] && !(forall i :: 0 <= i < |states| ==> states[i].priceSource == states[0].priceSource) {
      var i :| 0 <= i < |states| && states[i].priceSource != states[0].priceSource;
      assert more[i].priceSource != more[0].priceSource;
    }
  }

  lemma TouchPriced(c: Candle, states: seq<PairState>, s: PairState)
    requires if states == [] then c == NewCandle(s.block, s.blockHash, s.quoteToken) else PricedBy(c, states)
    ensures PricedBy(Touched(c, s), states + [s])
  {
    hide FirstPrice, LastPrice, TopPrice, BottomPrice, SourceIs, Higher, Lower, MergePriceSource;
    if states == [] {
      NoPrices();
    }
    OneFirst(c.open, states, s);
    OneLast(c.close, states, s);
    OneTop(c.high, states, s);
    OneBottom(c.low, states, s);
    OneSource(c.source, states, s);
    var more := states + [s];
    assert more[|states|] == s && forall i :: 0 <= i < |states| ==> more[i] == states[i];
  }

  lemma NoPrices()
    ensures FirstPrice(None, []) && LastPrice(None, []) && TopPrice(None, []) && BottomPrice(None, [])
  {
  }

  lemma SwapPriced(c: Candle, states: seq<PairState>, row: FlowRow)
    requires states != [] && PricedBy(c, states)
    ensures PricedBy(WithSwap(c, row), states)
  {
    hide FirstPrice, LastPrice, TopPrice, BottomPrice, SourceIs, Plus;
  }

  // Over the chain

  /** The listing shows the last state of the pair, its history all of them, and its minute candles follow them. */
  ghost predicate Shows(v: View, pair: Id, states: seq<PairState>) {
    && CurrentPair(v.listing, pair) == LastState(states, None)
    && StatesOf(HistoryOf(v.listing, pair)) == states
    && forall m: Key :: m.interval == Minute && m.pair == pair ==> MinuteRight(Find(v.minutes, m), InMinute(states, m))
  }

  function StatesOf(history: seq<Stamp>): seq<PairState> {
    seq(|history|, i requires 0 <= i < |history| => history[i].state)
  }

  lemma InMinuteMore(states: seq<PairState>, s: PairState, m: Key)
    ensures InMinute(states + [s], m) == if MinuteKey(s) == m then InMinute(states, m) + [s] else InMinute(states, m)
  {
    assert (states + [s])[..|states|] == states;
  }

  /** Publishing a state and touching its minute. */
  lemma PublishedShows(v: View, pair: Id, states: seq<PairState>, s: PairState)
    requires Shows(v, pair, states) && s.ident.pair == pair
    ensures Shows(WithTouch(WithPair(v, s), s), pair, states + [s])
  {
    hide MinuteRight, Touched, Boundary;
    var r := WithTouch(WithPair(v, s), s);
    forall m: Key | m.interval == Minute && m.pair == pair
      ensures MinuteRight(Find(r.minutes, m), InMinute(states + [s], m))
    {
      InMinuteMore(states, s, m);
      if MinuteKey(s) == m {
        MinuteTouched(v.minutes, s, InMinute(states, m));
      }
    }
    HistoryMore(v.listing, s);
    assert (states + [s])[|states|] == s;
  }

  lemma HistoryMore(l: Listing, s: PairState)
    ensures StatesOf(HistoryOf(Projection.Listed(l, s), s.ident.pair)) == StatesOf(HistoryOf(l, s.ident.pair)) + [s]
  {
  }

  lemma MinuteTouched(minutes: CandleMap, s: PairState, states: seq<PairState>)
    requires MinuteRight(Find(minutes, MinuteKey(s)), states)
    ensures MinuteRight(Find(TouchedAt(minutes, s), MinuteKey(s)), states + [s])
  {
    hide PricedBy, Touched, Boundary;
    TouchPriced(CandleOr(minutes, s), states, s);
  }

  lemma OtherPublished(v: View, pair: Id, states: seq<PairState>, s: PairState)
    requires Shows(v, pair, states) && s.ident.pair != pair
    ensures Shows(WithTouch(WithPair(v, s), s), pair, states)
  {
    hide MinuteRight, Touched, Boundary, StatesOf;
  }

  lemma SwapShows(v: View, pair: Id, states: seq<PairState>, s: PairState, row: FlowRow)
    requires Shows(v, pair, states) && MinuteKey(s) in v.minutes
    ensures Shows(WithFlow(v, s, row), pair, states)
  {
    hide PricedBy, WithSwap, Boundary, StatesOf, InsertFlow;
    var k := MinuteKey(s);
    forall m: Key | m.interval == Minute && m.pair == pair
      ensures MinuteRight(Find(WithSwapAt(v.minutes, s, row), m), InMinute(states, m))
    {
      if m == k {
        SwapPriced(v.minutes[k], InMinute(states, m), row);
      }
    }
  }

  /** Changes outside listing and minutes. */
  lemma StillShows(v: View, r: View, pair: Id, states: seq<PairState>)
    requires Shows(v, pair, states) && r.listing == v.listing && r.minutes == v.minutes
    ensures Shows(r, pair, states)
  {
    hide MinuteRight, StatesOf, InMinute;
  }

  lemma MarketShows(policies: Policies, v: View, e: Event, b: Block, pair: Id, states: seq<PairState>)
    requires e.IsMarket() && AfterMarket(policies, v, e, b).ok && Shows(v, pair, states)
    ensures var s := Published(LastState(states, None), e, b, QuotesAt(policies, v.book, e.ident, b.timestamp));
            Shows(AfterMarket(policies, v, e, b).view, pair, if e.ident.pair == pair then states + [s] else states)
  {
    hide Published, QuotesAt, SamePairIdentity, AfterLiquidity, AfterObservation, WithTouch, WithPair, Shows, SwapRow,
         WithFlow, StatesOf;
    var current := CurrentPair(v.listing, e.ident.pair);
    var q := QuotesAt(policies, v.book, e.ident, b.timestamp);
    var s := Published(current, e, b, q);
    PublishedAt(current, e, b, q);
    var touched, all := WithTouch(WithPair(v, s), s), if e.ident.pair == pair then states + [s] else states;
    if e.ident.pair == pair {
      ShowsCurrent(v, pair, states);
      PublishedShows(v, pair, states, s);
    } else {
      OtherPublished(v, pair, states, s);
    }
    TouchedPresent(v, s);
    if e.Swap? {
      SwapShows(touched, pair, all, s, SwapRow(e, s, q));
    } else {
      StillShows(touched, AfterMarket(policies, v, e, b).view, pair, all);
    }
  }

  lemma ShowsCurrent(v: View, pair: Id, states: seq<PairState>)
    requires Shows(v, pair, states)
    ensures CurrentPair(v.listing, pair) == LastState(states, None)
  {
  }

  lemma TouchedPresent(v: View, s: PairState)
    ensures MinuteKey(s) in WithTouch(WithPair(v, s), s).minutes
  {
  }

  lemma EventShows(policies: Policies, v: View, e: Event, b: Block, index: nat, pair: Id, states: seq<PairState>)
    requires AfterEvent(policies, v, e, b, index).ok && Shows(v, pair, states)
    ensures Shows(AfterEvent(policies, v, e, b, index).view, pair,
                  states + EventState(policies, v.book, LastState(states, None), e, b, pair))
  {
    hide AfterMarket, AfterSnapshot, AfterTransfer, QuotesAt, ActivityRow, Published, Shows;
    var logged := Logged(v, e, b, index);
    StillShows(v, logged, pair, states);
    assert states + [] == states;
    if e.IsMarket() {
      MarketShows(policies, logged, e, b, pair, states);
      StillShows(AfterMarket(policies, logged, e, b).view, AfterEvent(policies, v, e, b, index).view, pair,
                 if e.ident.pair != pair then states
                 else states + [Published(LastState(states, None), e, b,
                                          QuotesAt(policies, v.book, e.ident, b.timestamp))]);
    } else {
      StillShows(v, AfterEvent(policies, v, e, b, index).view, pair, states);
    }
  }

  lemma {:induction false} EventsShow(policies: Policies, v: View, events: seq<Event>, b: Block, pair: Id,
                                      states: seq<PairState>)
    requires AfterEvents(policies, v, events, b).ok && Shows(v, pair, states)
    ensures Shows(AfterEvents(policies, v, events, b).view, pair,
                  states + EventStates(policies, v.book, LastState(states, None), events, b, pair))
  {
    hide AfterEvent, AfterEvents, Shows, EventState, EventStates, LastState, ChainSwaps.FlowsAdd;
    EventsSplit(policies, v, events, b);
    StatesSplit(policies, v.book, LastState(states, None), events, b, pair);
    if events == [] {
      assert states + [] == states;
    } else {
      var n := |events| - 1;
      var e, more := events[n], EventStates(policies, v.book, LastState(states, None), events[..n], b, pair);
      EventsShow(policies, v, events[..n], b, pair, states);
      EventsAdd(policies, v, events[..n], b, pair, 0, 0);
      EventShows(policies, AfterEvents(policies, v, events[..n], b).view, e, b, n, pair, states + more);
      LastOfBoth(states, more);
      var s := EventState(policies, v.book, LastState(states + more, None), e, b, pair);
      assert (states + more) + s == states + (more + s);
    }
  }

  lemma EventsSplit(policies: Policies, v: View, events: seq<Event>, b: Block)
    requires AfterEvents(policies, v, events, b).ok
    ensures if events == [] then AfterEvents(policies, v, events, b).view == v
            else var n := |events| - 1;
                 var before := AfterEvents(policies, v, events[..n], b);
                 var r := AfterEvent(policies, before.view, events[n], b, n);
                 before.ok && r.ok && AfterEvents(policies, v, events, b).view == r.view
  {
    hide AfterEvent;
  }

  lemma StatesSplit(policies: Policies, book: Book, before: Option<PairState>, events: seq<Event>, b: Block, pair: Id)
    ensures EventStates(policies, book, before, events, b, pair)
            == if events == [] then []
               else var rest := EventStates(policies, book, before, events[..|events| - 1], b, pair);
                    var e := events[|events| - 1];
                    rest + EventState(policies, book, LastState(rest, before), e, b, pair)
  {
    hide EventState;
  }

  lemma LastOfBoth(a: seq<PairState>, b: seq<PairState>)
    ensures LastState(a + b, None) == LastState(b, LastState(a, None))
  {
    assert a + [] == a;
  }

  lemma NothingShown(pair: Id)
    ensures Shows(EMPTY_VIEW, pair, [])
  {
  }

  /** The derived state shows, for every pair, exactly the states that the chain publishes for it. */
  lemma {:induction false} ReplayShows(policies: Policies, blocks: seq<Block>, pair: Id)
    requires Replay(policies, blocks).ok
    ensures Shows(Replay(policies, blocks).view, pair, ChainStates(policies, blocks, pair))
  {
    hide AfterEvents, Shows, EventStates, BookAfter;
    if blocks == [] {
      NothingShown(pair);
    } else {
      var init, b := blocks[..|blocks| - 1], blocks[|blocks| - 1];
      ReplayShows(policies, init, pair);
      var v := Replay(policies, init).view;
      var priced := WithPrices(policies, v, b);
      ReplaySums(policies, init, pair, 0, 0);
      BookNext(policies, blocks);
      StillShows(v, priced, pair, ChainStates(policies, init, pair));
      EventsShow(policies, priced, b.events, b, pair, ChainStates(policies, init, pair));
    }
  }

  lemma BookNext(policies: Policies, blocks: seq<Block>)
    requires blocks != []
    ensures var b := blocks[|blocks| - 1];
            BookAfter(policies, blocks)
            == AppliedAll(policies, BookAfter(policies, blocks[..|blocks| - 1]), Offers(b.prices, b.timestamp))
  {
  }

  /** Main result on minute candles: in a reachable engine a minute candle exists exactly when a retained market
      event of its pair was published in its minute, and its open, high, low and close are the first, greatest, least
      and last price published there, in chain order. */
  lemma MinutePrices(e: AnalyticsEngine, m: Key)
    requires e.Valid() && m.interval == Minute
    ensures var states := InMinute(ChainStates(e.policies, e.blocks, m.pair), m);
            if states == [] then m !in e.candles else m in e.candles && PricedBy(e.candles[m], states)
  {
    hide PricedBy, InMinute, ChainStates, ViewOk, IsRolledUp, Replay, CanonicalChain, ContextOf, IndexesBuilt, StatesOf;
    ReplayShows(e.policies, e.blocks, m.pair);
    MinuteFound(e.candles, m);
  }

  lemma MinuteFound(c: CandleMap, m: Key)
    requires m.interval == Minute
    ensures Find(MinutesOf(c), m) == Find(c, m)
  {
  }

  /** The current state and the history of a pair are those states as well. */
  lemma PairShows(e: AnalyticsEngine, pair: Id)
    requires e.Valid()
    ensures var states := ChainStates(e.policies, e.blocks, pair);
            && (pair in e.pairs <==> states != []) && (pair in e.pairs ==> e.pairs[pair] == states[|states| - 1])
            && StatesOf(HistoryOf(e.PairListing(), pair)) == states
  {
    hide PricedBy, InMinute, ChainStates, ViewOk, IsRolledUp, Replay, CanonicalChain, ContextOf, IndexesBuilt, StatesOf,
         MinuteRight;
    ReplayShows(e.policies, e.blocks, pair);
  }

  /** Main result on candles: at every interval of a reachable engine a candle takes its prices from the minutes of its
      window, each of which has the prices published in it. */
  lemma EngineCandlePrices(e: AnalyticsEngine, k: Key)
    requires e.Valid() && k in e.candles
    ensures FromEdge(e.candles, k, Minute, OpenOf, false) && FromEdge(e.candles, k, Minute, CloseOf, true)
    ensures FromTop(e.candles, k, Minute, HighOf) && FromTop(e.candles, k, Minute, Lowest)
    ensures FromEdge(e.candles, k, Minute, FirstOf, false) && FromEdge(e.candles, k, Minute, LastOf, true)
    ensures FromUnion(e.candles, k, Minute)
  {
    hide ViewOk, IsRolledUp, Replay, CanonicalChain, ContextOf, IndexesBuilt, FromEdge, FromTop, FromUnion;
    CandlePricesOfMinutes(e.candles, k);
  }
}
