/** Evenly spaced grids of integers: the arithmetic behind candle boundaries. */
module Grid {
  import opened Fixed

  /** The greatest point `q * step + offset` that is not above `t`. */
  function Floor(t: int, step: int, offset: int): int
    requires step > 0
  {
    (t - offset) / step * step + offset
  }

  lemma FloorAtPoint(q: int, step: int, offset: int, t: int)
    requires step > 0
    requires q * step + offset <= t < q * step + offset + step
    ensures Floor(t, step, offset) == q * step + offset
  {
    assert (q + 1) * step == q * step + step;
    FloorUnique(t - offset, step, q);
  }

  /** The index of the grid point below `t`. */
  lemma FloorIndex(t: int, step: int, offset: int) returns (q: int)
    requires step > 0
    ensures q == (t - offset) / step
    ensures Floor(t, step, offset) == q * step + offset
    ensures q * step + offset <= t < q * step + offset + step
  {
    q := (t - offset) / step;
    var n := t - offset;
    assert n == n / step * step + n % step;
  }

  lemma FloorHolds(t: int, step: int, offset: int)
    requires step > 0
    ensures var f := Floor(t, step, offset); f <= t < f + step && Floor(f, step, offset) == f
  {
    var q := FloorIndex(t, step, offset);
    FloorAtPoint(q, step, offset, q * step + offset);
  }

  lemma FloorTiles(t: int, s: int, step: int, offset: int)
    requires step > 0 && Floor(s, step, offset) == s
    ensures s <= t < s + step <==> Floor(t, step, offset) == s
  {
    var q := FloorIndex(s, step, offset);
    if s <= t < s + step {
      FloorAtPoint(q, step, offset, t);
    }
    FloorHolds(t, step, offset);
  }

  /** A point of the coarse grid is a point of the fine grid. */
  lemma CoarseIsFine(q: int, fine: int, ratio: int, shift: int, j: int)
    requires fine > 0
    ensures q * (ratio * fine) + shift * fine + j * fine == (q * ratio + shift + j) * fine
  {
    assert (q * ratio + shift + j) * fine == q * ratio * fine + shift * fine + j * fine;
    assert q * (ratio * fine) == q * ratio * fine;
  }

  /** A coarse grid whose points are fine points: rounding in two steps is rounding in one. */
  lemma FloorNests(t: int, fine: int, ratio: int, shift: int)
    requires fine > 0 && ratio > 0
    ensures ratio * fine > 0
    ensures Floor(Floor(t, fine, 0), ratio * fine, shift * fine) == Floor(t, ratio * fine, shift * fine)
  {
    MulMonotone(1, ratio, fine);
    var coarse, offset := ratio * fine, shift * fine;
    var q := FloorIndex(t, coarse, offset);
    var p := FloorIndex(t, fine, 0);
    CoarseIsFine(q, fine, ratio, shift, 0);
    var point := q * ratio + shift;
    assert (p + 1) * fine == p * fine + fine;
    if p < point {
      MulMonotone(p + 1, point, fine);
      assert false;
    }
    MulMonotone(point, p, fine);
    FloorAtPoint(q, coarse, offset, p * fine);
  }

  /** The fine points inside a coarse cell are its first `ratio` slots. */
  lemma SlotInCell(s: int, j: int, fine: int, ratio: int, shift: int)
    requires fine > 0 && ratio > 0 && ratio * fine > 0
    requires Floor(s, ratio * fine, shift * fine) == s && 0 <= j < ratio
    ensures Floor(s + j * fine, fine, 0) == s + j * fine
    ensures Floor(s + j * fine, ratio * fine, shift * fine) == s
  {
    var q := FloorIndex(s, ratio * fine, shift * fine);
    CoarseIsFine(q, fine, ratio, shift, j);
    CoarseIsFine(q, fine, ratio, shift, 0);
    FloorAtPoint(q * ratio + shift + j, fine, 0, s + j * fine);
    MulMonotone(0, j, fine);
    MulMonotone(j + 1, ratio, fine);
    assert (j + 1) * fine == j * fine + fine;
    FloorAtPoint(q, ratio * fine, shift * fine, s + j * fine);
  }

  lemma CellSlot(s: int, u: int, fine: int, ratio: int, shift: int) returns (j: int)
    requires fine > 0 && ratio > 0 && ratio * fine > 0
    requires Floor(s, ratio * fine, shift * fine) == s && Floor(u, fine, 0) == u
    requires s <= u < s + ratio * fine
    ensures 0 <= j < ratio && u == s + j * fine
  {
    var q := FloorIndex(s, ratio * fine, shift * fine);
    var p := FloorIndex(u, fine, 0);
    CoarseIsFine(q, fine, ratio, shift, 0);
    j := p - (q * ratio + shift);
    assert p * fine == (q * ratio + shift) * fine + j * fine;
    if j < 0 {
      MulMonotone(j, -1, fine);
      assert false;
    }
    if j >= ratio {
      MulMonotone(ratio, j, fine);
      assert false;
    }
  }
}
