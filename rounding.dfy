/** Python's `round(x, d)` on exact reals: to d decimal places, ties to the even neighbour. */
module Rounding {

  function Abs(x: real): (r: real)
    ensures r >= 0.0 && (r == x || r == -x)
  {
    if x < 0.0 then -x else x
  }

  /** 10 to the power d, the scale of `round(x, d)`. */
  function Pow10(d: nat): (s: real)
    ensures s >= 1.0
  {
    if d == 0 then 1.0 else 10.0 * Pow10(d - 1)
  }

  /** The integer nearest to y; an exact tie goes to the even integer. */
  function RoundHalfEven(y: real): (n: int)
    ensures Abs(n as real - y) <= 0.5
  {
    var f := y.Floor;
    var frac := y - f as real;
    if frac < 0.5 then f
    else if frac > 0.5 then f + 1
    else if f % 2 == 0 then f
    else f + 1
  }

  /** The multiple of 1/scale nearest to x, ties to an even multiple. */
  function RoundToScale(x: real, scale: real): (r: real)
    requires scale >= 1.0
    ensures Abs(r - x) * scale <= 0.5
  {
    var n := RoundHalfEven(x * scale);
    ErrorScales(x, scale, n);
    n as real / scale
  }

  /** `round(x, d)`: x to d decimal places, within half a unit of the last place. */
  function Round(x: real, d: nat): (r: real)
    ensures Abs(r - x) * Pow10(d) <= 0.5
  {
    RoundToScale(x, Pow10(d))
  }

  /* The arithmetic helpers below take products and quotients as plain variables; the
     solver does poorly when Floor, a product of two unknowns and a recursive function
     meet in one proof. */

  lemma ErrorScales(x: real, s: real, n: int)
    requires s >= 1.0 && Abs(n as real - x * s) <= 0.5
    ensures Abs(n as real / s - x) * s <= 0.5
  {
    UnscaleDifference(x, s, n as real);
    AbsScale(n as real / s - x, s);
  }

  lemma UnscaleDifference(x: real, s: real, y: real)
    requires s >= 1.0
    ensures (y / s - x) * s == y - x * s
  {
  }

  lemma AbsScale(e: real, s: real)
    requires s >= 1.0
    ensures Abs(e) * s == Abs(e * s)
  {
    if e < 0.0 {
      assert (-e) * s == -(e * s);
    }
  }

  lemma Unscale(y: real, s: real)
    requires s >= 1.0
    ensures (y / s) * s == y && (y * s) / s == y
  {
  }

  lemma ScaleMonotone(a: real, b: real, s: real)
    requires a <= b && s > 0.0
    ensures a * s <= b * s && a / s <= b / s
  {
  }

  lemma RoundHalfEvenOfInteger(y: real, n: int)
    requires y == n as real
    ensures RoundHalfEven(y) == n
  {
    assert y.Floor == n;
  }

  lemma {:induction false} RoundHalfEvenMonotone(y: real, y': real)
    requires y <= y'
    ensures RoundHalfEven(y) <= RoundHalfEven(y')
  {
    var f, f' := y.Floor, y'.Floor;
    assert f <= f';
    if f == f' {
      var frac, frac' := y - f as real, y' - f' as real;
      assert frac <= frac';
    }
  }

  lemma RoundToScaleMonotone(x: real, y: real, s: real)
    requires x <= y && s >= 1.0
    ensures RoundToScale(x, s) <= RoundToScale(y, s)
  {
    var xs, ys := x * s, y * s;
    ScaleMonotone(x, y, s);
    assert xs <= ys;
    RoundHalfEvenMonotone(xs, ys);
    RoundToScaleValue(x, s);
    RoundToScaleValue(y, s);
    QuotientMonotone(RoundHalfEven(xs), RoundHalfEven(ys), s);
  }

  lemma RoundToScaleValue(x: real, s: real)
    requires s >= 1.0
    ensures RoundToScale(x, s) == RoundHalfEven(x * s) as real / s
  {
  }

  lemma QuotientMonotone(n: int, m: int, s: real)
    requires n <= m && s >= 1.0
    ensures n as real / s <= m as real / s
  {
    ScaleMonotone(n as real, m as real, s);
  }

  lemma RoundToScaleExact(x: real, s: real, units: int)
    requires s >= 1.0 && x * s == units as real
    ensures RoundToScale(x, s) == x
  {
    RoundHalfEvenOfInteger(x * s, units);
    Unscale(x, s);
  }

  /** A rounded figure has at most d decimals: scaled by s = 10^d it is the whole number nearest
      to x scaled by s. */
  lemma {:induction false} RoundHasDecimals(x: real, d: nat, s: real)
    requires s == Pow10(d)
    ensures Round(x, d) * s == RoundHalfEven(x * s) as real
  {
    RoundToScaleUnits(x, s);
  }

  lemma RoundToScaleUnits(x: real, s: real)
    requires s >= 1.0
    ensures RoundToScale(x, s) * s == RoundHalfEven(x * s) as real
  {
    RoundToScaleValue(x, s);
    Rescale(RoundToScale(x, s), RoundHalfEven(x * s) as real, s);
  }

  lemma Rescale(r: real, q: real, s: real)
    requires s >= 1.0 && r == q / s
    ensures r * s == q
  {
  }

  /** Rounding never reverses the order of two amounts. */
  lemma RoundMonotone(x: real, y: real, d: nat)
    requires x <= y
    ensures Round(x, d) <= Round(y, d)
  {
    RoundToScaleMonotone(x, y, Pow10(d));
  }

  /** An amount that is already a whole number of 10^-d units is left unchanged. */
  lemma RoundExact(x: real, d: nat, units: int)
    requires x * Pow10(d) == units as real
    ensures Round(x, d) == x
  {
    RoundToScaleExact(x, Pow10(d), units);
  }

  lemma RoundHalfEvenNearest(y: real, n: int)
    requires n as real - 0.5 < y < n as real + 0.5
    ensures RoundHalfEven(y) == n
  {
    if y >= n as real {
      assert y.Floor == n;
    } else {
      assert y.Floor == n - 1;
    }
  }

  /** An amount closer than half a unit to a multiple of 10^-d rounds to that multiple. */
  lemma RoundToNearest(x: real, d: nat, units: int)
    requires units as real - 0.5 < x * Pow10(d) < units as real + 0.5
    ensures Round(x, d) == units as real / Pow10(d)
  {
    RoundHalfEvenNearest(x * Pow10(d), units);
    RoundToScaleValue(x, Pow10(d));
  }

  /** Rounding twice is rounding once. */
  lemma RoundIdempotent(x: real, d: nat)
    ensures Round(Round(x, d), d) == Round(x, d)
  {
    RoundToScaleIdempotent(x, Pow10(d));
  }

  lemma RoundToScaleIdempotent(x: real, s: real)
    requires s >= 1.0
    ensures RoundToScale(RoundToScale(x, s), s) == RoundToScale(x, s)
  {
    var n := RoundHalfEven(x * s);
    RoundToScaleValue(x, s);
    var r := n as real / s;
    Unscale(n as real, s);
    RoundToScaleExact(r, s, n);
  }

  /** A non-negative amount never rounds below zero. */
  lemma RoundNonNegative(x: real, d: nat)
    requires x >= 0.0
    ensures Round(x, d) >= 0.0
  {
    RoundMonotone(0.0, x, d);
    RoundExact(0.0, d, 0);
  }
}
