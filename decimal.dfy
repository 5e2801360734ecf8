/**
 * Exact decimal arithmetic on integers. Money is held in integer cents and
 * percentages in hundredths of a percent, so MySQL's ROUND(x, 2) becomes a
 * rounded integer quotient.
 */
module Decimal {

  function Abs(x: int): nat
  {
    if x < 0 then -x else x
  }

  /**
   * The quotient n / d rounded to the nearest integer, a half rounded away
   * from zero: MySQL's ROUND on an exact DECIMAL value.
   */
  function RoundHalfAway(n: int, d: int): (r: int)
    requires d != 0
    ensures 2 * Abs(n - r * d) <= Abs(d)
    ensures 2 * Abs(n - r * d) == Abs(d) ==> Abs(r * d) > Abs(n)
    ensures n == 0 ==> r == 0
  {
    var a, b := Abs(n), Abs(d);
    var q := (2 * a + b) / (2 * b);
    RoundNonNegative(a, b, q);
    var r := if (n < 0) != (d < 0) then -q else q;
    SignCases(n, d, a, b, q, r);
    r
  }

  lemma RoundNonNegative(a: int, b: int, q: int)
    requires a >= 0 && b > 0 && q == (2 * a + b) / (2 * b)
    ensures q >= 0
    ensures -b <= 2 * (a - q * b) < b
    ensures a == 0 ==> q == 0
  {
    var m := (2 * a + b) % (2 * b);
    assert 2 * a + b == q * (2 * b) + m && 0 <= m < 2 * b;
    if q > 0 {
      MulAtLeast(q, 2 * b);
    }
  }

  lemma MulAtLeast(q: int, c: int)
    requires q >= 1 && c >= 0
    ensures q * c >= c
  {
    assert q * c == (q - 1) * c + c;
  }

  lemma SignCases(n: int, d: int, a: nat, b: nat, q: int, r: int)
    requires d != 0 && a == Abs(n) && b == Abs(d)
    requires r == if (n < 0) != (d < 0) then -q else q
    ensures Abs(n - r * d) == Abs(a - q * b)
    ensures Abs(r * d) == Abs(q * b)
    ensures q == 0 ==> r == 0
  {
    if n < 0 && d < 0 {
      assert r * d == -(q * b);
    } else if n < 0 {
      assert r * d == -(q * b);
    } else if d < 0 {
      assert r * d == q * b;
    } else {
      assert r * d == q * b;
    }
  }

  /** A quotient that is already whole is not moved by rounding. */
  lemma RoundExact(k: int, d: int)
    requires d != 0
    ensures RoundHalfAway(k * d, d) == k
  {
    var r := RoundHalfAway(k * d, d);
    MulSub(k, r, d);
    AbsProduct(k - r, d);
  }

  lemma MulSub(k: int, r: int, d: int)
    ensures k * d - r * d == (k - r) * d
  {
  }

  /** Rounding a non-negative quotient gives a non-negative result. */
  lemma RoundNonNegativeQuotient(n: int, d: int)
    requires n >= 0 && d > 0
    ensures RoundHalfAway(n, d) >= 0
  {
  }

  lemma AbsProduct(x: int, d: int)
    requires d != 0
    ensures x != 0 ==> Abs(x * d) >= Abs(d)
  {
    if x > 0 && d > 0 {
      assert x * d >= d;
    } else if x > 0 {
      assert x * d <= d;
    } else if x < 0 && d > 0 {
      assert x * d <= -d;
    } else if x < 0 {
      assert x * d >= -d;
    }
  }

  /** JavaScript's Math.ceil(a / b) for a non-zero divisor. */
  function CeilDiv(a: int, b: int): (r: int)
    requires b != 0
    ensures b > 0 ==> (r - 1) * b < a <= r * b
    ensures b < 0 ==> r * b <= a < (r - 1) * b
  {
    if b > 0 then -((-a) / b) else -(a / (-b))
  }
}
