/** Real-number stand-ins for the f64 operations the renderer uses. */
module Numerics {

  /** The circle constant, kept as an exact real; f64 rounding is not modelled. */
  const PI: real := 3.14159265358979323846264338327950288

  /** Largest value of Rust's `usize` on a 64-bit target. */
  const UsizeMax: nat := 0x1_0000_0000_0000_0000 - 1

  function Abs(r: real): (a: real)
    ensures a >= 0.0 && (a == r || a == -r)
  {
    if r < 0.0 then -r else r
  }

  /** Rust's saturating `f as usize`: truncation toward zero, negatives to 0,
      values past the range to `usize::MAX`. */
  function CastUsize(v: real): (n: nat)
    ensures v < 0.0 ==> n == 0
    ensures 0.0 <= v < UsizeMax as real ==> n as real <= v < n as real + 1.0
  ensures v >= UsizeMax as real ==> n == UsizeMax
    ensures n <= UsizeMax
  {
    if v < 0.0 then 0
    else if v >= UsizeMax as real then UsizeMax
    else v.Floor
  }

  /** A value of magnitude below 0.7 has a square below 0.49. */
  lemma SquareBelow(v: real)
    requires Abs(v) < 0.7
    ensures v * v < 0.49
  {
    var a := Abs(v);
    assert v * v == a * a;
    assert a * a <= a * 0.7;
  }

  /** On the unit circle one of the two components has magnitude at least 0.7. */
  lemma MajorComponent(s: real, c: real)
    requires s * s + c * c == 1.0
    ensures Abs(s) >= 0.7 || Abs(c) >= 0.7
  {
    if Abs(s) < 0.7 {
      SquareBelow(s);
      if Abs(c) < 0.7 {
        SquareBelow(c);
        assert false;
      }
    }
  }

  /** On the unit circle each component has magnitude at most 1. */
  lemma ComponentBounded(s: real, c: real)
    requires s * s + c * c == 1.0
    ensures Abs(s) <= 1.0
  {
    var a := Abs(s);
    assert s * s == a * a;
    if a > 1.0 {
      assert false;
    }
  }

  /** Multiplying by a positive factor keeps a strict order. */
  lemma ScaleStrict(a: real, b: real, f: real)
    requires a < b && f > 0.0
    ensures a * f < b * f
  {
    assert b * f - a * f == (b - a) * f;
  }

  /** A fraction in [0, 1) of a positive amount is below that amount. */
  lemma FractionOf(q: real, f: real)
    requires 0.0 <= q < 1.0
    ensures f > 0.0 ==> 0.0 <= q * f < f
  {
    if f > 0.0 {
      ScaleStrict(q, 1.0, f);
    }
  }

  /** A quotient of a smaller by a larger positive count is in [0, 1). */
  lemma ShareOf(n: nat, d: nat)
    requires n < d
    ensures 0.0 <= n as real / d as real < 1.0
  {
    var q := n as real / d as real;
    assert q * d as real == n as real;
    if q >= 1.0 {
      assert false;
    }
  }

  /** Quotients by the same positive count keep the order of their numerators. */
  lemma ShareIncreasing(a: nat, b: nat, d: nat)
    requires a < b && d > 0
    ensures a as real / d as real < b as real / d as real
  {
    var qa, qb := a as real / d as real, b as real / d as real;
    assert qa * d as real == a as real && qb * d as real == b as real;
    if qa >= qb {
      assert false;
    }
  }

  /** Dividing a positive amount by a larger divisor gives less. */
  lemma DivDecreasing(n: real, d1: real, d2: real)
    requires n > 0.0 && 0.0 < d1 < d2
    ensures n / d2 < n / d1
  {
    var q1, q2 := n / d1, n / d2;
    assert q1 * d1 == n && q2 * d2 == n;
    assert q2 > 0.0;
    ScaleStrict(d1, d2, q2);
    if q2 >= q1 {
      assert false;
    }
  }

  /** Dividing by at most 2 gives at least half. */
  /** A non-negative count over a positive divisor is non-negative, and a
      positive count over it is at most its half exactly when the divisor is at
      least 2. */
  lemma DivAtMostHalf(n: real, d: real)
    requires n >= 0.0 && d > 0.0
    ensures n / d >= 0.0
    ensures n > 0.0 ==> (n / d <= n / 2.0 <==> d >= 2.0)
  {
    var q := n / d;
    assert q * d == n;
    if n > 0.0 {
      assert q > 0.0;
      if d > 2.0 {
        ScaleStrict(2.0, d, q);
      } else if d < 2.0 {
        ScaleStrict(d, 2.0, q);
      }
    }
  }

  lemma DivAtLeastHalf(n: real, d: real)
    requires n >= 0.0 && 0.0 < d <= 2.0
    ensures n / d >= n / 2.0
  {
    var q := n / d;
    assert q * d == n;
    assert q >= 0.0;
    assert q * d <= q * 2.0;
  }
}
