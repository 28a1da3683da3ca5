/** Integer arithmetic of the analytics packages: truncating division, valuation and its rounding loss. */
module Fixed {
  import opened Domain

  const USD_SCALE: int := 1_000_000_000_000_000_000
  const BPS_SCALE: int := 10_000

  /** Division that rounds toward zero, as JavaScript's bigint division does. */
  function TruncDiv(a: int, b: int): (q: int)
    requires b != 0
  {
    if a >= 0 then (if b > 0 then a / b else -(a / -b))
    else (if b > 0 then -(-a / b) else -a / -b)
  }

  function Pow10(decimals: nat): (p: int)
    ensures p >= 1
  {
    if decimals == 0 then 1 else 10 * Pow10(decimals - 1)
  }

  function TokenAmountToUsd(amount: int, decimals: Decimals, priceUsd: int): int {
    TruncDiv(amount * priceUsd, Pow10(decimals))
  }

  function RatioE18(numerator: int, denominator: int): Option<int> {
    if denominator == 0 then None else Some(TruncDiv(numerator * USD_SCALE, denominator))
  }

  lemma FloorUnique(n: int, d: int, q: int)
    requires d > 0
    requires q * d <= n < (q + 1) * d
    ensures n / d == q
  {
    var k := n / d;
    assert k * d <= n < (k + 1) * d;
    if k < q {
      MulMonotone(k + 1, q, d);
      assert false;
    } else if k > q {
      MulMonotone(q + 1, k, d);
      assert false;
    }
  }

  lemma MulMonotone(a: int, b: int, d: int)
    requires a <= b && d >= 0
    ensures a * d <= b * d
  {
    assert (b - a) * d >= 0;
  }

  /** Splitting a non-negative amount before rounding loses at most one unit. */
  lemma FloorSplit(a: int, b: int, d: int)
    requires d > 0 && a >= 0 && b >= 0
    ensures 0 <= (a + b) / d - a / d - b / d <= 1
  {
    var qa, ra := a / d, a % d;
    var qb, rb := b / d, b % d;
    assert a == qa * d + ra && b == qb * d + rb;
    var carry := if ra + rb < d then 0 else 1;
    assert (qa + qb + carry) * d == qa * d + qb * d + carry * d;
    assert (qa + qb + carry + 1) * d == qa * d + qb * d + carry * d + d;
    FloorUnique(a + b, d, qa + qb + carry);
  }

  /** Valuing the protocol share and the remainder of a fee apart loses at most one unit per token,
      and never gains. */
  lemma SplitValuationLoss(fee: int, share: int, decimals: Decimals, priceUsd: int)
    requires 0 <= share <= fee && priceUsd >= 0
    ensures 0 <= TokenAmountToUsd(fee, decimals, priceUsd)
                 - TokenAmountToUsd(share, decimals, priceUsd)
                 - TokenAmountToUsd(fee - share, decimals, priceUsd) <= 1
    ensures TokenAmountToUsd(fee, decimals, priceUsd) >= 0
  {
    SplitLoss(fee, share, priceUsd, Pow10(decimals));
  }

  lemma SplitLoss(fee: int, share: int, priceUsd: int, d: int)
    requires 0 <= share <= fee && priceUsd >= 0 && d > 0
    ensures 0 <= TruncDiv(fee * priceUsd, d) - TruncDiv(share * priceUsd, d)
                 - TruncDiv((fee - share) * priceUsd, d) <= 1
    ensures TruncDiv(fee * priceUsd, d) >= 0
  {
    var s, r := share * priceUsd, (fee - share) * priceUsd;
    MulMonotone(0, share, priceUsd);
    MulMonotone(0, fee - share, priceUsd);
    assert s + r == fee * priceUsd;
    FloorSplit(s, r, d);
    var whole := fee * priceUsd;
    assert whole >= 0;
    FloorNonNegative(whole, d);
  }

  lemma FloorNonNegative(n: int, d: int)
    requires n >= 0 && d > 0
    ensures n / d >= 0
  {
  }
}
