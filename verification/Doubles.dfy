/** Binary64 numbers and rounding to the nearest of them (IEEE 754, section 4.3.1), whichever way ties go. */
module Doubles {
  import opened BitStrings

  /** The largest magnitude up to which every whole number is a double. */
  const WHOLE := 0x20_0000_0000_0000

  /** x is m times, or divided by, the k-th power of two, within the significand and the least exponent. */
  ghost predicate Represents(x: real, m: int, k: nat, times: bool) {
    && -WHOLE <= m <= WHOLE
    && if times then x == (m * Pow2(k)) as real else k <= 1074 && x * (Pow2(k) as real) == m as real
  }

  /** Exponents have no upper bound here; what is too large is infinite. */
  ghost predicate IsDouble(x: real) {
    exists m: int, k: nat, times: bool :: Represents(x, m, k, times)
  }

  predicate IsInfinite(x: real) {
    x <= -(Pow2(1024) as real) || Pow2(1024) as real <= x
  }

  function Distance(x: real, y: real): (d: real)
    ensures d >= 0.0
  {
    if x <= y then y - x else x - y
  }

  /** y is a double and none is nearer to x. */
  ghost predicate IsNearest(x: real, y: real) {
    IsDouble(y) && forall z: real :: IsDouble(z) ==> Distance(x, y) <= Distance(x, z)
  }

  /** What the hardware does with an exact result, before it is found to be infinite. */
  ghost predicate IsRounding(round: real -> real) {
    forall x: real :: IsNearest(x, round(x))
  }

  lemma WholeIsDouble(n: int)
    requires -WHOLE <= n <= WHOLE
    ensures IsDouble(n as real)
  {
    assert Pow2(0) == 1;
    assert Represents(n as real, n, 0, true);
  }

  lemma RoundingKeepsWhole(round: real -> real, n: int)
    requires IsRounding(round) && -WHOLE <= n <= WHOLE
    ensures round(n as real) == n as real
  {
    WholeIsDouble(n);
    assert IsNearest(n as real, round(n as real));
    hide IsDouble;
  }

  lemma RoundingIsMonotone(round: real -> real, x: real, y: real)
    requires IsRounding(round) && x <= y
    ensures round(x) <= round(y)
  {
    assert IsNearest(x, round(x)) && IsNearest(y, round(y));
    hide IsDouble;
  }

  function Floor(x: real): int {
    x.Floor
  }

  function Ceil(x: real): int {
    -(-x).Floor
  }

  lemma FloorIs(x: real, n: int)
    requires n as real <= x < (n + 1) as real
    ensures Floor(x) == n
  {
  }

  lemma CeilIs(x: real, n: int)
    requires (n - 1) as real < x <= n as real
    ensures Ceil(x) == n
  {
  }

  lemma FloorBounds(x: real)
    ensures Floor(x) as real <= x < Floor(x) as real + 1.0
  {
  }

  lemma FloorAtMost(x: real, y: real)
    ensures Floor(x) as real <= y <==> x < (Floor(y) + 1) as real
  {
    FloorBounds(x);
    FloorBounds(y);
    hide Floor;
    if Floor(x) <= Floor(y) {
      assert Floor(x) as real <= Floor(y) as real;
    } else {
      assert (Floor(y) + 1) as real <= Floor(x) as real;
    }
  }

  lemma CeilAtLeast(x: real, y: real)
    ensures y <= Ceil(x) as real <==> x > (Ceil(y) - 1) as real
  {
    FloorAtMost(-x, -y);
  }

  lemma CeilIsPositive(x: real)
    requires x > 0.0
    ensures Ceil(x) > 0
  {
    FloorBounds(-x);
  }

  lemma FloorIsClose(x: real, y: real)
    requires Floor(y) as real <= x <= Ceil(y) as real
    ensures Distance(Floor(x) as real, y) < 1.0
  {
    FloorBounds(x);
    FloorBounds(y);
    FloorBounds(-y);
    FloorAtMost(Floor(y) as real, x);
    WholeFloor(Floor(y));
    hide Floor;
    if x < Ceil(y) as real {
      assert Floor(x) < Ceil(y);
    }
  }

  lemma WholeFloor(n: int)
    ensures Floor(n as real) == n
  {
  }

  lemma CeilIsClose(x: real, y: real)
    requires Floor(y) as real <= x <= Ceil(y) as real
    ensures Distance(Ceil(x) as real, y) < 1.0
  {
    FloorIsClose(-x, -y);
  }

  /** Rounding does not move a number past a whole one. */
  lemma RoundingStaysBetween(round: real -> real, x: real)
    requires IsRounding(round) && -WHOLE as real <= x <= WHOLE as real
    ensures Floor(x) as real <= round(x) <= Ceil(x) as real
  {
    RoundingIsMonotone(round, Floor(x) as real, x);
    RoundingIsMonotone(round, x, Ceil(x) as real);
    RoundingKeepsWhole(round, Floor(x));
    RoundingKeepsWhole(round, Ceil(x));
    hide IsRounding;
  }

  lemma {:induction false} Pow2Grows(k: nat, n: nat)
    requires k <= n
    ensures 1 <= Pow2(k) <= Pow2(n)
    decreases n
  {
    if k < n {
      Pow2Grows(k, n - 1);
    } else if k > 0 {
      Pow2Grows(k - 1, n - 1);
    }
  }

  lemma LargerPow2Values()
    ensures Pow2(41) == 0x200_0000_0000 && Pow2(48) == 0x1_0000_0000_0000 && Pow2(52) == 0x10_0000_0000_0000
    ensures Pow2(53) == WHOLE && Pow2(60) == 0x1000_0000_0000_0000
  {
    Pow2Values();
    assert Pow2(36) == 16 * Pow2(32);
    assert Pow2(40) == 16 * Pow2(36);
    assert Pow2(44) == 16 * Pow2(40);
    assert Pow2(48) == 16 * Pow2(44);
    assert Pow2(52) == 16 * Pow2(48);
    assert Pow2(56) == 16 * Pow2(52);
    assert Pow2(60) == 16 * Pow2(56);
  }

  lemma WholeIsFinite(x: real)
    requires -WHOLE as real <= x <= WHOLE as real
    ensures !IsInfinite(x)
  {
    hide Pow2;
    LargerPow2Values();
    Pow2Grows(60, 1024);
    assert WHOLE < Pow2(1024);
  }

  lemma OneMoreThanThePower(x: real, m: int, p: int)
    requires 1 <= p && x * (p as real) == m as real && x > 1.0
    ensures m >= p + 1 && (x - 1.0) * (p as real) >= 1.0
  {
    assert x * (p as real) > p as real;
  }

  lemma Spread(d: real, p: int)
    requires 1 <= p <= 0x10_0000_0000_0000 && 0.0 < d && d * (p as real) >= 1.0
    ensures d * 4503599627370496.0 >= 1.0
  {
    assert d * (p as real) <= d * 4503599627370496.0;
  }

  lemma JustAbove(x: real, m: int, k: nat)
    requires x > 1.0 && m <= WHOLE && x * (Pow2(k) as real) == m as real
    ensures (x - 1.0) * 4503599627370496.0 >= 1.0
  {
    LargerPow2Values();
    hide Pow2;
    Pow2Grows(0, k);
    OneMoreThanThePower(x, m, Pow2(k));
    if k <= 52 {
      Pow2Grows(k, 52);
      Spread(x - 1.0, Pow2(k));
    } else {
      Pow2Grows(53, k);
    }
  }

  /** The double after one is one and two to the power of -52. */
  lemma NoDoubleJustAboveOne(x: real)
    requires IsDouble(x) && x > 1.0
    ensures (x - 1.0) * 4503599627370496.0 >= 1.0
  {
    var m: int, k: nat, times: bool :| Represents(x, m, k, times);
    hide Pow2;
    if times {
      WholeAboveOne(x, m * Pow2(k));
    } else {
      JustAbove(x, m, k);
    }
  }

  lemma WholeAboveOne(x: real, n: int)
    requires x == n as real && x > 1.0
    ensures (x - 1.0) * 4503599627370496.0 >= 1.0
  {
  }
}
