/** Numeric helpers shared by the calculators and services: the JavaScript
    `Math` functions the application uses, stated over exact reals. */
module Numeric {

  datatype Option<+T> = None | Some(value: T)

  /** `Math.pow(b, n)` for a natural exponent. */
  function Pow(b: real, n: nat): real
  {
    if n == 0 then 1.0 else b * Pow(b, n - 1)
  }

  /** `Math.pow(b, n)` for an integer exponent; a negative exponent divides. */
  function IntPow(b: real, n: int): real
    requires n < 0 ==> b != 0.0
  {
    if n >= 0 then Pow(b, n) else PowNonZero(b, -n); 1.0 / Pow(b, -n)
  }

  /** `Math.round(x)`: the nearest integer, halves rounded up. */
  function Round(x: real): (r: int)
    ensures x - 0.5 < r as real <= x + 0.5
  {
    (x + 0.5).Floor
  }

  function Min(a: real, b: real): (r: real)
    ensures r <= a && r <= b && (r == a || r == b)
  {
    if a <= b then a else b
  }

  function Max(a: real, b: real): (r: real)
    ensures r >= a && r >= b && (r == a || r == b)
  {
    if a >= b then a else b
  }

  function Abs(x: real): (r: real)
    ensures r >= 0.0 && (r == x || r == -x)
  {
    if x < 0.0 then -x else x
  }

  lemma {:induction false} PowNonZero(b: real, n: nat)
    requires b != 0.0
    ensures Pow(b, n) != 0.0
  {
    if n > 0 {
      PowNonZero(b, n - 1);
    }
  }

  /** A base of at least one keeps every power at least one. */
  lemma {:induction false} PowAtLeastOne(b: real, n: nat)
    requires b >= 1.0
    ensures Pow(b, n) >= 1.0
  {
    if n > 0 {
      PowAtLeastOne(b, n - 1);
      assert Pow(b, n) == b * Pow(b, n - 1);
      assert b * Pow(b, n - 1) >= 1.0 * Pow(b, n - 1);
    }
  }

  /** A base above one makes the powers strictly increasing. */
  lemma {:induction false} PowStrictlyIncreasing(b: real, m: nat, n: nat)
    requires b > 1.0 && m < n
    ensures Pow(b, m) < Pow(b, n)
  {
    PowAtLeastOne(b, n - 1);
    if m < n - 1 {
      PowStrictlyIncreasing(b, m, n - 1);
    }
    assert Pow(b, n) == b * Pow(b, n - 1);
    assert b * Pow(b, n - 1) > 1.0 * Pow(b, n - 1);
  }

  /** `Math.round` is monotone. */
  lemma RoundMonotone(x: real, y: real)
    requires x <= y
    ensures Round(x) <= Round(y)
  {
  }

  /** Rounding the parts of a difference separately is off by at most one. */
  lemma RoundDifference(a: real, c: real)
    ensures -1 <= Round(a) - Round(c) - Round(a - c) <= 1
  {
  }

  /** Multiplying by a positive factor keeps a strict order. */
  lemma MulStrict(c: real, a: real, b: real)
    requires c > 0.0 && a > b
    ensures c * a > c * b
  {
  }

  /** Multiplying by a non-negative factor keeps a weak order. */
  lemma MulWeak(c: real, a: real, b: real)
    requires c >= 0.0 && a >= b
    ensures c * a >= c * b
  {
  }

  /** Two numbers scaled by the same positive factor keep their order. */
  lemma ScaledOrder(x: real, y: real, d: real, xd: real, yd: real)
    requires d > 0.0 && x * d == xd && y * d == yd && xd <= yd
    ensures x <= y
  {
  }
}
