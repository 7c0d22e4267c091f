/**
 * The parts of JavaScript's `Math` object that the components use, over
 * mathematical reals (floating-point rounding, NaN and the infinities are
 * not modelled).
 */
module JsMath {

  /** `Math.PI`, known here only through bounds; no proof relies on its digits. */
  type PiBounds = r: real | 3.14 < r < 3.15 witness 3.1416
  const PiValue: PiBounds
  const PI: real := PiValue

  /** `Math.max(a, b)`: the larger argument. */
  function Max(a: real, b: real): (r: real)
    ensures r >= a && r >= b
    ensures r == a || r == b
  {
    if a >= b then a else b
  }

  /** `Math.min(a, b)`: the smaller argument. */
  function Min(a: real, b: real): (r: real)
    ensures r <= a && r <= b
    ensures r == a || r == b
  {
    if a <= b then a else b
  }

  /**
   * JavaScript's `%` on integers: the remainder of truncating division, so it
   * takes the sign of the dividend (Dafny's own `%` never goes negative).
   */
  function JsRem(a: int, n: int): (r: int)
    requires n > 0
    ensures a >= 0 ==> r == a % n
    ensures a >= 0 ==> 0 <= r < n
    ensures a < 0 ==> -n < r <= 0
    ensures a < 0 ==> r == if a % n == 0 then 0 else a % n - n
  {
    if a >= 0 then a % n else
      NegatedRemainder(-a, n);
      -((-a) % n)
  }

  /**
   * For a positive m, the Euclidean remainder of -m is 0 when n divides m and
   * n minus the remainder of m otherwise.
   */
  lemma NegatedRemainder(m: int, n: int)
    requires m > 0 && n > 0
    ensures (-m) % n == if m % n == 0 then 0 else n - m % n
  {
    var q, s := m / n, m % n;
    assert m == q * n + s;
    if s == 0 {
      assert -m == (-q) * n;
      EuclidUnique(-m, n, -q, 0);
    } else {
      assert -m == (-q - 1) * n + (n - s);
      EuclidUnique(-m, n, -q - 1, n - s);
    }
  }

  /** A quotient and remainder in [0, n) are the Euclidean ones. */
  lemma EuclidUnique(a: int, n: int, q: int, s: int)
    requires n > 0 && 0 <= s < n && a == q * n + s
    ensures a % n == s
  {
    var q0, s0 := a / n, a % n;
    assert a == q0 * n + s0;
    var d := q - q0;
    ProductDifference(q, q0, n);
    assert d * n == s0 - s;
    if d >= 1 {
      MulAtLeastOnce(d, n);
    } else if d <= -1 {
      MulAtLeastOnce(-d, n);
    }
  }

  lemma ProductDifference(q: int, q0: int, n: int)
    ensures (q - q0) * n == q * n - q0 * n
  {
  }

  /** A positive multiple of a positive number is at least that number. */
  lemma MulAtLeastOnce(d: int, n: int)
    requires d >= 1 && n > 0
    ensures d * n >= n
  {
    assert d * n == (d - 1) * n + n;
    assert (d - 1) * n >= 0;
  }

  /** PI lies in the interval its type promises. */
  lemma PiInRange()
    ensures 3.14 < PI < 3.15
  {
    var v: PiBounds := PiValue;
  }

  /** The product of two non-negative numbers is non-negative. */
  lemma MulNonNegative(a: real, b: real)
    requires a >= 0.0 && b >= 0.0
    ensures a * b >= 0.0
  {
  }

  /** Multiplying by a non-negative number keeps the order. */
  lemma MulMonotone(a: real, b: real, c: real)
    requires a <= b && c >= 0.0
    ensures a * c <= b * c
  {
    MulNonNegative(b - a, c);
    assert (b - a) * c == b * c - a * c;
  }

  /** Dividing by a positive number keeps a lower bound: from a >= c * h follows a / h >= c. */
  lemma QuotientAtLeast(a: real, h: real, c: real)
    requires h > 0.0 && a >= c * h
    ensures a / h >= c
  {
    var q := a / h;
    assert q * h == a;
    assert (q - c) * h == a - c * h;
  }

  /** Dividing by a positive number keeps the order. */
  lemma QuotientMonotone(a: real, b: real, h: real)
    requires h > 0.0 && a <= b
    ensures a / h <= b / h
  {
    assert (b / h - a / h) * h == b - a;
  }

  lemma MulAssociates(a: real, b: real, c: real)
    ensures a * (b * c) == (a * b) * c
  {
  }
}
