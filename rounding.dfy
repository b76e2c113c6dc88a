/**
 * Python's integer conversions on exact reals: math.ceil, int() (truncation
 * toward zero) and round() (nearest integer, ties to the even neighbour).
 */
module Rounding {

  /** math.ceil: the least integer not below x. */
  function Ceil(x: real): (r: int)
    ensures r as real >= x
    ensures (r - 1) as real < x
  {
    -((-x).Floor)
  }

  /** int(x) on a float: drops the fractional part, toward zero. */
  function Trunc(x: real): (r: int)
    ensures x >= 0.0 ==> r >= 0 && r as real <= x < (r + 1) as real
    ensures x < 0.0 ==> r <= 0 && (r - 1) as real < x <= r as real
  {
    if x >= 0.0 then x.Floor else -((-x).Floor)
  }

  /** round(x): the nearest integer; at an exact half, the even one. */
  function RoundHalfEven(x: real): (r: int)
    ensures -0.5 <= r as real - x <= 0.5
    ensures (r as real - x == 0.5 || r as real - x == -0.5) ==> r % 2 == 0
  {
    var f := x.Floor;
    var frac := x - f as real;
    if frac < 0.5 then f
    else if frac > 0.5 then f + 1
    else if f % 2 == 0 then f else f + 1
  }

  /** Multiplying both sides by a non-negative factor keeps an inequality. */
  lemma MulLeq(a: real, b: real, c: real)
    requires a <= b && c >= 0.0
    ensures a * c <= b * c
  {
    assert (b - a) * c >= 0.0;
  }

  /** Dividing by a non-zero number and multiplying back gives the number. */
  lemma DivTimes(a: real, s: real)
    requires s != 0.0
    ensures (a / s) * s == a
  {
  }

  /** A factor may move into the numerator of a quotient. */
  lemma MulDiv(x: real, y: real, c: real)
    requires c != 0.0
    ensures x * (y / c) == (x * y) / c
  {
    DivTimes(y, c);
    DivTimes(x * y, c);
    assert x * (y / c) * c == x * y;
  }

  lemma MulLess(a: real, b: real, c: real)
    requires a < b && c > 0.0
    ensures a * c < b * c
  {
    assert (b - a) * c > 0.0;
  }

  /** Ceil is the least integer n with n >= x. */
  lemma CeilLeast(x: real, n: int)
    requires n as real >= x
    ensures Ceil(x) <= n
  {
  }

  lemma CeilMonotonic(x: real, y: real)
    requires x <= y
    ensures Ceil(x) <= Ceil(y)
  {
    CeilLeast(x, Ceil(y));
  }

  /** The two conditions of RoundHalfEven's contract pin down its result. */
  lemma RoundUnique(x: real, n: int)
    requires -0.5 <= n as real - x <= 0.5
    requires (n as real - x == 0.5 || n as real - x == -0.5) ==> n % 2 == 0
    ensures RoundHalfEven(x) == n
  {
  }

  /** round() never reverses the order of its arguments. */
  lemma RoundMonotonic(x: real, y: real)
    requires x <= y
    ensures RoundHalfEven(x) <= RoundHalfEven(y)
  {
    var rx, ry := RoundHalfEven(x), RoundHalfEven(y);
    if rx > ry {
      assert false;
    }
  }

  lemma RoundInteger(n: int)
    ensures RoundHalfEven(n as real) == n
  {
    RoundUnique(n as real, n);
  }

  /**
   * Rounding a split of an even integer: round(x) + round(m - x) == m.  This is
   * what makes a pulse and its delay fill the whole pulse period.
   */
  lemma RoundComplement(x: real, m: int)
    requires m % 2 == 0
    ensures RoundHalfEven(x) + RoundHalfEven(m as real - x) == m
  {
    var r := RoundHalfEven(x);
    var n := m - r;
    assert -0.5 <= n as real - (m as real - x) <= 0.5;
    if n as real - (m as real - x) == 0.5 || n as real - (m as real - x) == -0.5 {
      assert r % 2 == 0;
      assert n % 2 == 0;
    }
    RoundUnique(m as real - x, n);
  }

  /** Rounding a product only depends on the factors' values. */
  lemma ScaledRoundCongruent(e: real, x: real, y: real)
    requires x == y
    ensures RoundHalfEven(e * x) == RoundHalfEven(e * y)
  {
    var u, v := e * x, e * y;
    assert u == v;
  }

  /** ceil(t / s) sweeps of length s cover t, and one fewer does not. */
  lemma CeilDivBounds(t: real, s: real)
    requires s > 0.0
    ensures Ceil(t / s) as real * s >= t
    ensures (Ceil(t / s) - 1) as real * s < t
  {
    DivTimes(t, s);
    MulLeq(t / s, Ceil(t / s) as real, s);
    MulLess((Ceil(t / s) - 1) as real, t / s, s);
  }

  /** Rounding d·m and (1 - d)·m for an even m gives two counts that add up to m. */
  lemma ComplementScaled(d: real, m: int)
    requires m % 2 == 0
    ensures RoundHalfEven(d * m as real) + RoundHalfEven((1.0 - d) * m as real) == m
  {
    assert (1.0 - d) * m as real == m as real - d * m as real;
    RoundComplement(d * m as real, m);
  }

  /** The two ends of a symmetric span, scaled by g, lie 2·l·g apart. */
  lemma Spread(l: real, g: real)
    ensures l * 1.0 * g - (-l) * 1.0 * g == 2.0 * l * g
  {
  }

  /** Scaled by c > 0, a non-negative x (whose product with c is y) lies between its truncation and the next integer. */
  lemma TruncScaledBounds(x: real, c: real, y: real)
    requires x >= 0.0 && c > 0.0 && x * c == y
    ensures Trunc(x) as real * c <= y < (Trunc(x) + 1) as real * c
  {
    TruncScaledBelow(x, c, y);
    TruncScaledAbove(x, c, y);
  }

  lemma TruncScaledBelow(x: real, c: real, y: real)
    requires x >= 0.0 && c > 0.0 && x * c == y
    ensures Trunc(x) as real * c <= y
  {
    MulLeq(Trunc(x) as real, x, c);
  }

  lemma TruncScaledAbove(x: real, c: real, y: real)
    requires x >= 0.0 && c > 0.0 && x * c == y
    ensures y < (Trunc(x) + 1) as real * c
  {
    MulLess(x, (Trunc(x) + 1) as real, c);
  }
}
