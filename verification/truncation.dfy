/**
 Swift's integer conversions and integer division truncate toward zero,
 while Dafny's `/` on `int` is Euclidean. This module defines the
 truncating operations the slider's magnifier relies on, characterises
 them independently of their definitions, and relates them to Dafny's
 own operators.
 */
module Truncation {

  function Abs(a: int): (r: nat)
    ensures r == a || r == -a
  {
    if a < 0 then -a else a
  }

  /** `Int(x)` for a `Double` x: the integer part, rounding toward zero.
      Overflow traps of the source are not modelled (integers are unbounded). */
  function TruncInt(x: real): (r: int)
    ensures 0.0 <= x ==> 0 <= r && r as real <= x < r as real + 1.0
    ensures x < 0.0 ==> r <= 0 && r as real - 1.0 < x <= r as real
  {
    if x >= 0.0 then x.Floor else -((-x).Floor)
  }

  /** The characterisation above determines `TruncInt` uniquely. */
  lemma TruncIntUnique(x: real, q: int)
    requires 0.0 <= x ==> q as real <= x < q as real + 1.0
    requires x < 0.0 ==> q as real - 1.0 < x <= q as real
    ensures q == TruncInt(x)
  {
  }

  /** Truncation is monotone: a larger real never has a smaller integer part. */
  lemma TruncIntMonotone(x: real, y: real)
    requires x <= y
    ensures TruncInt(x) <= TruncInt(y)
  {
  }

  /** Swift's `a / b` on `Int`: the quotient rounded toward zero, so the
      remainder `a - r * b` takes the sign of the dividend and is smaller
      in magnitude than the divisor. */
  function TruncDiv(a: int, b: int): (r: int)
    requires b != 0
    ensures 0 <= a ==> 0 <= a - r * b < Abs(b)
    ensures a < 0 ==> 0 <= r * b - a < Abs(b)
  {
    var q := Abs(a) / Abs(b);
    EuclidOnNaturals(Abs(a), Abs(b));
    if (a >= 0) == (b > 0) then
      assert q * b == (if a >= 0 then q * Abs(b) else -(q * Abs(b)));
      q
    else
      assert -q * b == (if a >= 0 then q * Abs(b) else -(q * Abs(b)));
      -q
  }

  lemma EuclidOnNaturals(n: nat, d: nat)
    requires d > 0
    ensures 0 <= n - (n / d) * d < d
  {
  }

  /** For a non-negative dividend and positive divisor, truncating and
      Euclidean division agree. */
  lemma TruncDivOfNaturals(a: int, b: int)
    requires 0 <= a && 0 < b
    ensures TruncDiv(a, b) == a / b
  {
  }

  /** Negating the dividend negates the truncated quotient (Euclidean
      division does not have this property: -7 / 2 == -4 in Dafny). */
  lemma TruncDivNegate(a: int, b: int)
    requires b != 0
    ensures TruncDiv(-a, b) == -TruncDiv(a, b)
    ensures TruncDiv(a, -b) == -TruncDiv(a, b)
  {
    var q := Abs(a) / Abs(b);
    assert Abs(-a) == Abs(a) && Abs(-b) == Abs(b);
    assert TruncDiv(a, b) == if (a >= 0) == (b > 0) then q else -q;
    if a == 0 {
      assert q == 0;
    } else {
      assert TruncDiv(-a, b) == if (-a >= 0) == (b > 0) then q else -q;
      assert TruncDiv(a, -b) == if (a >= 0) == (-b > 0) then q else -q;
    }
  }

  /** A product with a positive factor is non-negative only if the other
      factor is. */
  lemma NonNegativeFactor(k: int, m: int)
    requires 0 < m && 0 <= k * m
    ensures 0 <= k
  {
  }

  /** For 0 <= a <= m and n >= 0, the quotient (a * n) / m lies in [0, n]. */
  lemma ScaledQuotientBounds(a: int, n: int, m: int)
    requires 0 <= a <= m && 0 < m && 0 <= n
    ensures 0 <= TruncDiv(a * n, m) <= n
  {
    var q := TruncDiv(a * n, m);
    assert 0 <= a * n - q * m < m;
    assert 0 <= (m - a) * n;
    NonNegativeFactor(n - q, m);
    NonNegativeFactor(q + 1, m);
  }
}
