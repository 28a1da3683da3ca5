/** What the fixed-point arithmetic means: quotients rounded toward zero, powers of ten, and the worth of amounts. */
module Valuations {
  import opened Domain
  import opened Fixed
  import opened Flows

  /** `q` is `a / d` rounded down. */
  predicate RoundedDown(a: int, d: int, q: int) {
    q * d <= a < (q + 1) * d
  }

  lemma TruncatesTowardZero(a: int, d: int)
    requires d > 0
    ensures a >= 0 ==> RoundedDown(a, d, TruncDiv(a, d))
    ensures a < 0 ==> RoundedDown(-a, d, -TruncDiv(a, d))
    ensures TruncDiv(a, -d) == -TruncDiv(a, d)
  {
    QuotientBounds(if a >= 0 then a else -a, d);
  }

  lemma QuotientBounds(n: nat, d: nat)
    requires d > 0
    ensures RoundedDown(n, d, n / d)
  {
    var q := n / d;
    assert n == q * d + n % d;
    assert (q + 1) * d == q * d + d;
  }

  /** There is only one such quotient. */
  lemma RoundedOnce(a: int, d: int, p: int, q: int)
    requires d > 0 && RoundedDown(a, d, p) && RoundedDown(a, d, q)
    ensures p == q
  {
    if p < q {
      MulMonotone(p + 1, q, d);
      assert false;
    } else if q < p {
      MulMonotone(q + 1, p, d);
      assert false;
    }
  }

  lemma {:induction false} PowersOfTen(m: nat, n: nat)
    ensures Pow10(0) == 1 && Pow10(1) == 10 && Pow10(m + n) == Pow10(m) * Pow10(n)
  {
    if m > 0 {
      PowersOfTen(m - 1, n);
      Tenfold(Pow10(m - 1), Pow10(n));
      assert Pow10(m) == 10 * Pow10(m - 1) && Pow10(m + n) == 10 * Pow10(m - 1 + n);
      hide Pow10;
    }
  }

  lemma Tenfold(a: int, b: int)
    ensures 10 * (a * b) == (10 * a) * b
  {
  }

  lemma ScaleIsTenTo18()
    ensures USD_SCALE == Pow10(18) && BPS_SCALE == Pow10(4)
  {
    PowersOfTen(2, 2);
    PowersOfTen(1, 1);
    PowersOfTen(4, 4);
    PowersOfTen(8, 8);
    PowersOfTen(16, 2);
  }

  /** The worth of an amount: amount times price over ten to the decimals, rounded down. */
  lemma WorthIs(amount: int, decimals: Decimals, priceUsd: int)
    requires amount >= 0 && priceUsd >= 0
    ensures RoundedDown(amount * priceUsd, Pow10(decimals), TokenAmountToUsd(amount, decimals, priceUsd))
  {
    MulMonotone(0, amount, priceUsd);
    TruncatesTowardZero(amount * priceUsd, Pow10(decimals));
  }

  /** The worth of one token, zero when it has no price. */
  function Worth(amount: int, decimals: Decimals, price: Option<int>): int {
    if price.None? then 0 else TokenAmountToUsd(amount, decimals, price.value)
  }

  /** Amounts have a total exactly when every token of which there is some has a price, and then it is the sum of what
      the two are worth; the missing tokens are those others. */
  lemma ValueAmountsIs(ident: PairIdentity, amountX: int, amountY: int, priceX: Option<int>, priceY: Option<int>)
    ensures var v := ValueAmounts(ident, amountX, amountY, priceX, priceY);
            && (forall t :: t in v.missing <==> ((t == ident.tokenX && amountX != 0 && priceX.None?)
                                                 || (t == ident.tokenY && amountY != 0 && priceY.None?)))
            && v.total == if (amountX != 0 && priceX.None?) || (amountY != 0 && priceY.None?) then None
                          else Some(Worth(amountX, ident.decimalsX, priceX) + Worth(amountY, ident.decimalsY, priceY))
  {
    var v := ValueAmounts(ident, amountX, amountY, priceX, priceY);
    if amountX != 0 && priceX.None? {
      assert ident.tokenX in {ident.tokenX};
    }
    NothingWorth(ident.decimalsX);
    NothingWorth(ident.decimalsY);
  }

  lemma NothingWorth(decimals: Decimals)
    ensures TokenAmountToUsd(0, decimals, 0) == 0
  {
    assert 0 * 0 == 0;
  }

  /** A ratio with eighteen decimals, rounded toward zero; there is none over zero. */
  lemma RatioIs(n: int, d: int)
    ensures RatioE18(n, d).None? <==> d == 0
    ensures n >= 0 && d > 0 ==> RoundedDown(n * USD_SCALE, d, RatioE18(n, d).value)
  {
    if d > 0 {
      TruncatesTowardZero(n * USD_SCALE, d);
    }
  }
}
