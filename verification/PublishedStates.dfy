/** What a market event publishes, told from the event, the state published before it and the prices of its tokens. */
module PublishedStates {
  import opened Domain
  import opened Fixed
  import opened Flows
  import opened PairIndex
  import opened PriceBook
  import opened Projection
  import TrustedPrices
  import opened Valuations

  /** The quotes at which a block values its events: for each of the pair's tokens what the book says at the block's
      time. */
  lemma QuotesAre(policies: Policies, book: Book, ident: PairIdentity, t: int)
    requires BookValid(policies, book)
    ensures var q := QuotesAt(policies, book, ident, t);
            && (q.x.Some? <==> exists n :: TrustedPrices.Priced(policies, book, ident.tokenX, t, n))
            && (q.x.Some? ==> TrustedPrices.Priced(policies, book, ident.tokenX, t, q.x.value))
            && (q.y.Some? <==> exists n :: TrustedPrices.Priced(policies, book, ident.tokenY, t, n))
            && (q.y.Some? ==> TrustedPrices.Priced(policies, book, ident.tokenY, t, q.y.value))
  {
    hide BookValid, PriceAt, TrustedPrices.Priced;
    TrustedPrices.PriceAtIs(policies, book, ident.tokenX, t);
    TrustedPrices.PriceAtIs(policies, book, ident.tokenY, t);
  }

  /** The quote of a state: the event's own, or the one published before. */
  function QuoteAfter(current: Option<PairState>, e: Event): Option<int>
    requires e.IsMarket()
  {
    if e.market.priceQuote.Some? then e.market.priceQuote
    else if current.Some? then current.value.marketPriceQuote else None
  }

  /** The price in USD: quote times the price of the quote token, rounded down to eighteen decimals, or else the
      price of the base token itself. */
  ghost predicate PriceIs(s: PairState, quote: Option<int>, q: Quotes) {
    if quote.Some? && q.y.Some? then
      && s.priceSource == ActiveBinQuote && s.priceUsd.Some?
      && (quote.value >= 0 && q.y.value >= 0 ==>
            RoundedDown(quote.value * q.y.value, 1_000_000_000_000_000_000, s.priceUsd.value))
    else s.priceSource == TrustedToken && s.priceUsd == q.x
  }

  /** Value locked is the worth of both reserves, known exactly when every token of which there is some has a price. */
  predicate LockedIs(s: PairState, e: Event, q: Quotes)
    requires e.IsMarket()
  {
    s.tvlUsd == if (e.reserveX != 0 && q.x.None?) || (e.reserveY != 0 && q.y.None?) then None
                else Some(Worth(e.reserveX, e.ident.decimalsX, q.x) + Worth(e.reserveY, e.ident.decimalsY, q.y))
  }

  /** The tokens that are missing for value locked or for the price. */
  ghost predicate MissingIs(s: PairState, e: Event, q: Quotes)
    requires e.IsMarket()
  {
    forall t :: t in s.missing <==>
      ((t == e.ident.tokenX && e.reserveX != 0 && q.x.None?) || (t == e.ident.tokenY && e.reserveY != 0 && q.y.None?)
       || (s.priceUsd.None? && t == if s.marketPriceQuote.None? then e.ident.tokenX else e.ident.tokenY))
  }

  /** Main result on published states. */
  lemma PublishedIs(current: Option<PairState>, e: Event, b: Block, q: Quotes)
    requires e.IsMarket()
    ensures var s := Published(current, e, b, q);
            && s.ident == e.ident && s.reserveX == e.reserveX && s.reserveY == e.reserveY
            && s.quoteToken == e.ident.tokenY
            && s.block == b.number && s.blockHash == b.hash && s.timestamp == b.timestamp
            && s.marketPriceQuote == QuoteAfter(current, e)
            && s.activeId == (if e.market.activeId.Some? then e.market.activeId
                              else if current.Some? then current.value.activeId else None)
            && s.binStep == (if e.market.binStep.Some? then e.market.binStep
                             else if current.Some? then current.value.binStep else None)
            && PriceIs(s, QuoteAfter(current, e), q) && LockedIs(s, e, q) && MissingIs(s, e, q)
  {
    hide ValueAmounts, TruncDiv, Worth, RoundedDown;
    ValueAmountsIs(e.ident, e.reserveX, e.reserveY, q.x, q.y);
    var quote := QuoteAfter(current, e);
    if quote.Some? && q.y.Some? {
      if quote.value >= 0 && q.y.value >= 0 {
        MulMonotone(0, quote.value, q.y.value);
      }
      TruncatesTowardZero(quote.value * q.y.value, USD_SCALE);
    }
  }

  // Activity

  lemma {:induction false} SumsAre(a: seq<BinChange>, b: seq<BinChange>)
    ensures SumX([]) == SumY([]) == 0
    ensures forall c: BinChange :: SumX([c]) == c.amountX && SumY([c]) == c.amountY
    ensures SumX(a + b) == SumX(a) + SumX(b) && SumY(a + b) == SumY(a) + SumY(b)
  {
    forall c: BinChange
      ensures SumX([c]) == c.amountX && SumY([c]) == c.amountY
    {
      assert [c][..0] == [];
    }
    if b == [] {
      assert a + b == a;
    } else {
      var init := b[..|b| - 1];
      SumsAre(a, init);
      assert (a + b)[..|a + b| - 1] == a + init;
    }
  }

  /** Main result on activity: a swap, liquidity change or transfer is logged under its pair with its own amounts,
      owners and bins, under its source if it names one and under its index in the block otherwise. */
  lemma ActivityIs(v: View, e: Event, b: Block, index: nat)
    ensures var pair, after := e.ident.pair, Logged(v, e, b, index).activity;
            var rows := if pair in v.activity then v.activity[pair] else [];
            && (forall p :: p != pair ==> (p in after <==> p in v.activity))
            && (forall p :: p != pair && p in after ==> after[p] == v.activity[p])
            && (e.PairSnapshot? || e.PositionSnapshot? ==> after == v.activity)
            && (!e.PairSnapshot? && !e.PositionSnapshot? ==>
                  && pair in after && |after[pair]| == |rows| + 1 && after[pair][..|rows|] == rows
                  && RowIs(after[pair][|rows|], e, b, index))
  {
    hide ActivityRow, RowIs;
    if !e.PairSnapshot? && !e.PositionSnapshot? {
      ActivityRowIs(e, b, index);
    }
  }

  ghost predicate RowIs(r: Activity, e: Event, b: Block, index: nat)
    requires !e.PairSnapshot? && !e.PositionSnapshot?
  {
    && r.pair == e.ident.pair && r.block == b.number && r.blockHash == b.hash && r.timestamp == b.timestamp
    && (match e.source
        case Some(s) => && r.id == FromSource(b.hash, s.eventId) && r.transaction == s.transaction
                        && r.logIndex == s.logIndex && r.sequence == s.sequence
        case None => && r.id == FromIndex(b.hash, index) && r.transaction.None? && r.logIndex.None?
                     && r.sequence == index)
    && match e
       case Swap(_, _, _, _, _, inX, inY, _, _, _, _) =>
         && r.kind == SwapActivity && r.amountX == Some(inX) && r.amountY == Some(inY)
         && r.owner.None? && r.from.None? && r.to.None? && r.bins == []
       case Liquidity(_, _, _, _, _, deposit, owner, changes) =>
         && r.kind == (if deposit then DepositActivity else WithdrawActivity) && r.owner == Some(owner)
         && r.amountX == Some(SumX(changes)) && r.amountY == Some(SumY(changes)) && r.from.None? && r.to.None?
         && |r.bins| == |changes| && forall i :: 0 <= i < |changes| ==> r.bins[i] == changes[i].bin
       case PositionTransfer(_, _, from, to, transfers) =>
         && r.kind == TransferActivity && r.from == Some(from) && r.to == Some(to) && r.owner.None?
         && r.amountX.None? && r.amountY.None?
         && |r.bins| == |transfers| && forall i :: 0 <= i < |transfers| ==> r.bins[i] == transfers[i].bin
  }

  lemma ActivityRowIs(e: Event, b: Block, index: nat)
    requires !e.PairSnapshot? && !e.PositionSnapshot?
    ensures RowIs(ActivityRow(e, b, index), e, b, index)
  {
    hide SumX, SumY;
  }
}
