/** Fixed-point decimal arithmetic as java.math.BigDecimal does it in the
    analytics services: values are exact rationals, and every division or
    rescaling rounds to a given number of fractional digits with
    RoundingMode.HALF_UP. Comparison (compareTo) is by value, so a `real`
    stands for a BigDecimal whatever its scale. */
module Decimal {

  /** 10^n. */
  function Pow10(n: nat): (p: nat)
    ensures p >= 1
    ensures n > 0 ==> p >= 10
  {
    if n == 0 then 1 else 10 * Pow10(n - 1)
  }

  /** 10^scale as a real: the number of grid steps per unit at that scale. */
  function Step(scale: nat): (m: real)
    ensures m >= 1.0
  {
    Pow10(scale) as real
  }

  /** The integer nearest to `v`, a tie going away from zero. */
  function HalfUpUnits(v: real): int
  {
    if v >= 0.0 then (v + 0.5).Floor else -((-v) + 0.5).Floor
  }

  /** `x` rounded to `scale` fractional digits, half up: to the nearest
      multiple of 10^-scale, and on a tie away from zero. This is what
      `a.divide(b, scale, RoundingMode.HALF_UP)` returns for x = a / b and
      what `setScale(scale, RoundingMode.HALF_UP)` returns for x. */
  function RoundHalfUp(x: real, scale: nat): real
  {
    RoundToGrid(x, Step(scale))
  }

  /** `x` rounded half up to a multiple of 1/m. */
  function RoundToGrid(x: real, m: real): real
    requires m > 0.0
  {
    (HalfUpUnits(x * m) as real) / m
  }

  /** `r` is a multiple of 1/m within half a step of `x`, a tie (exactly
      half a step) lying away from zero. */
  predicate NearestOnGrid(x: real, r: real, m: real)
  {
    && (r * m).Floor as real == r * m
    && (x >= 0.0 ==> x * m - 0.5 < r * m <= x * m + 0.5)
    && (x < 0.0 ==> x * m - 0.5 <= r * m < x * m + 0.5)
  }

  /** The result lies on the grid of 10^-scale, within half a step of `x`;
      a tie goes away from zero. These facts determine RoundHalfUp
      uniquely. */
  lemma RoundHalfUpIsNearest(x: real, scale: nat)
    ensures NearestOnGrid(x, RoundHalfUp(x, scale), Step(scale))
  {
    GridNearest(x, Step(scale));
  }

  lemma GridNearest(x: real, m: real)
    requires m > 0.0
    ensures NearestOnGrid(x, RoundToGrid(x, m), m)
  {
    var u := HalfUpUnits(x * m);
    DivMulCancel(u as real, m);
    assert RoundToGrid(x, m) * m == u as real;
    if x >= 0.0 {
      MulMonotone(0.0, x, m);
    } else {
      MulMonotone(x, 0.0, m);
    }
  }

  /** Rounding keeps the sign: a non-negative value never rounds below 0
      and a non-positive one never above 0. */
  lemma RoundHalfUpSign(x: real, scale: nat)
    ensures x >= 0.0 ==> RoundHalfUp(x, scale) >= 0.0
    ensures x <= 0.0 ==> RoundHalfUp(x, scale) <= 0.0
  {
    var m := Step(scale);
    var u := HalfUpUnits(x * m);
    if x >= 0.0 {
      MulMonotone(0.0, x, m);
      DivMonotone(0.0, u as real, m);
    }
    if x <= 0.0 {
      MulMonotone(x, 0.0, m);
      DivMonotone(u as real, 0.0, m);
    }
  }

  /** A value already on the grid of 10^-scale is left unchanged. */
  lemma RoundHalfUpExact(x: real, scale: nat)
    requires (x * Step(scale)).Floor as real == x * Step(scale)
    ensures RoundHalfUp(x, scale) == x
  {
    GridExact(x, Step(scale));
  }

  lemma GridExact(x: real, m: real)
    requires m > 0.0
    requires (x * m).Floor as real == x * m
    ensures RoundToGrid(x, m) == x
  {
    var k := (x * m).Floor;
    assert HalfUpUnits(x * m) == k;
    MulDivCancel(x, m);
  }

  /** Rounding is monotone: it never reverses the order of two values. */
  lemma RoundHalfUpMonotone(x: real, y: real, scale: nat)
    requires x <= y
    ensures RoundHalfUp(x, scale) <= RoundHalfUp(y, scale)
  {
    GridMonotone(x, y, Step(scale));
  }

  lemma GridMonotone(x: real, y: real, m: real)
    requires x <= y && m > 0.0
    ensures RoundToGrid(x, m) <= RoundToGrid(y, m)
  {
    var xm, ym := x * m, y * m;
    MulMonotone(x, y, m);
    UnitsMonotone(xm, ym);
    DivMonotone(HalfUpUnits(xm) as real, HalfUpUnits(ym) as real, m);
  }

  lemma UnitsMonotone(v: real, w: real)
    requires v <= w
    ensures HalfUpUnits(v) <= HalfUpUnits(w)
  {
  }

  lemma DivMulCancel(a: real, m: real)
    requires m > 0.0
    ensures a / m * m == a
  {
  }

  lemma MulDivCancel(a: real, m: real)
    requires m > 0.0
    ensures a * m / m == a
  {
  }

  lemma MulMonotone(a: real, b: real, m: real)
    requires a <= b && m >= 0.0
    ensures a * m <= b * m
  {
    assert b * m - a * m == (b - a) * m;
  }

  lemma DivMonotone(a: real, b: real, m: real)
    requires a <= b && m > 0.0
    ensures a / m <= b / m
  {
    assert b / m - a / m == (b - a) / m;
  }
}
