/**
 * Fixed-point decimals, clamps and machine-integer arithmetic used across the services.
 * A `BigDecimal` at scale 4 is an `int` counting units of 1/10000; `RoundingMode.HALF_UP`
 * rounds ties away from zero. Java `long`/`int` wrap-around and truncating division are
 * written out where the services depend on them.
 */
module Numeric {
  /** Units in 1.0000 for a scale-4 decimal. */
  const SCALE4: int := 10000
  /** Units in 1.00 for a scale-2 decimal. */
  const SCALE2: int := 100

  const LONG_MIN: int := -0x8000_0000_0000_0000
  const LONG_MAX: int := 0x7FFF_FFFF_FFFF_FFFF
  const INT_MIN: int := -0x8000_0000
  const INT_MAX: int := 0x7FFF_FFFF

  predicate IsLong(x: int) { LONG_MIN <= x <= LONG_MAX }
  predicate IsInt(x: int) { INT_MIN <= x <= INT_MAX }

  /** Rounds to the nearest integer; a tie goes away from zero (`RoundingMode.HALF_UP`). */
  function HalfUp(x: real): (r: int)
    ensures x - 0.5 <= r as real <= x + 0.5
    ensures x >= 0.0 ==> r >= 0 && x - 0.5 < r as real
    ensures x < 0.0 ==> r <= 0 && r as real < x + 0.5
  {
    if x >= 0.0 then (x + 0.5).Floor else -((-x + 0.5).Floor)
  }

  /** `x.setScale(4, HALF_UP)` expressed in units of 1/10000. */
  function Scale4(x: real): int
  {
    HalfUp(x * SCALE4 as real)
  }

  /** `x.setScale(2, HALF_UP)` expressed in units of 1/100. */
  function Scale2(x: real): int
  {
    HalfUp(x * SCALE2 as real)
  }

  /** The real value of a scale-4 decimal given in units. */
  function Units4(u: int): real
  {
    u as real / SCALE4 as real
  }

  /** Rounding an integer is the identity. */
  lemma HalfUpOfInt(n: int)
    ensures HalfUp(n as real) == n
  {
  }

  /** Rounding is monotone. */
  lemma HalfUpMonotone(x: real, y: real)
    requires x <= y
    ensures HalfUp(x) <= HalfUp(y)
  {
    if x >= 0.0 {
      assert (x + 0.5).Floor <= (y + 0.5).Floor by { FloorMonotone(x + 0.5, y + 0.5); }
    } else if y < 0.0 {
      FloorMonotone(-y + 0.5, -x + 0.5);
    }
  }

  lemma FloorMonotone(x: real, y: real)
    requires x <= y
    ensures x.Floor <= y.Floor
  {
  }

  /** A value that already has at most four decimals is unchanged by `setScale(4, HALF_UP)`. */
  lemma Scale4OfUnits(u: int)
    ensures Scale4(Units4(u)) == u
  {
    assert Units4(u) * SCALE4 as real == u as real;
    HalfUpOfInt(u);
  }

  /** `setScale(4, HALF_UP)` is monotone. */
  lemma Scale4Monotone(x: real, y: real)
    requires x <= y
    ensures Scale4(x) <= Scale4(y)
  {
    HalfUpMonotone(x * SCALE4 as real, y * SCALE4 as real);
  }

  /** A value in [lo, hi] with lo and hi on the scale-4 grid rounds into [lo, hi]. */
  lemma Scale4Between(x: real, lo: int, hi: int)
    requires Units4(lo) <= x <= Units4(hi)
    ensures lo <= Scale4(x) <= hi
  {
    Scale4Monotone(Units4(lo), x);
    Scale4Monotone(x, Units4(hi));
    Scale4OfUnits(lo);
    Scale4OfUnits(hi);
  }

  /** Clips a real to the unit interval. */
  function Clamp01(x: real): (r: real)
    ensures 0.0 <= r <= 1.0
    ensures 0.0 <= x <= 1.0 ==> r == x
    ensures x < 0.0 ==> r == 0.0
    ensures x > 1.0 ==> r == 1.0
  {
    if x < 0.0 then 0.0 else if x > 1.0 then 1.0 else x
  }

  function Min(a: int, b: int): int { if a <= b then a else b }
  function Max(a: int, b: int): int { if a >= b then a else b }
  function MinReal(a: real, b: real): real { if a <= b then a else b }
  function MaxReal(a: real, b: real): real { if a >= b then a else b }

  /** Two's-complement wrap-around of a 64-bit `long`. */
  function WrapLong(x: int): (r: int)
    ensures IsLong(r)
    ensures IsLong(x) ==> r == x
    ensures (r - x) % 0x1_0000_0000_0000_0000 == 0
  {
    (x - LONG_MIN) % 0x1_0000_0000_0000_0000 + LONG_MIN
  }

  /** Two's-complement wrap-around of a 32-bit `int` (`Long.intValue()`, `incrementAndGet()`). */
  function WrapInt(x: int): (r: int)
    ensures IsInt(r)
    ensures IsInt(x) ==> r == x
    ensures (r - x) % 0x1_0000_0000 == 0
  {
    (x - INT_MIN) % 0x1_0000_0000 + INT_MIN
  }

  /** Java's integer division, which truncates toward zero. */
  function DivTrunc(a: int, b: int): (q: int)
    requires b > 0
    ensures a >= 0 ==> q == a / b
    ensures a <= 0 ==> q == -((-a) / b)
    ensures a >= 0 ==> q >= 0
    ensures a <= 0 ==> q <= 0
  {
    if a >= 0 then a / b else -((-a) / b)
  }

  /** A quotient of a value bounded by multiples of a positive divisor is bounded by the multipliers. */
  lemma DivideBounds(sum: real, total: real, lo: real, hi: real)
    requires total > 0.0 && lo * total <= sum <= hi * total
    ensures lo <= sum / total <= hi
  {
    var q := sum / total;
    assert q * total == sum;
    if q < lo {
      ScaleMonotone(q, lo, total);
    }
    if q > hi {
      ScaleMonotone(hi, q, total);
    }
  }

  lemma ScaleMonotone(a: real, b: real, w: real)
    requires a <= b && w >= 0.0
    ensures a * w <= b * w
  {
    assert b * w - a * w == (b - a) * w;
  }

  lemma MultiplyMonotone(a: int, b: int, w: int)
    requires a <= b && w >= 0
    ensures a * w <= b * w
  {
    assert b * w - a * w == (b - a) * w;
  }

  /** Multiplying by a nonzero divisor and dividing by it again gives the value back. */
  lemma DivideOut(c: real, t: real)
    requires t != 0.0
    ensures c * t / t == c
  {
  }
}
