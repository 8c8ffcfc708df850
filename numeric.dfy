// Integer arithmetic that the analytics engine performs on JavaScript numbers.
// Every quantity the engine rounds is a quotient of integers, so each rounding
// is written here as an exact rational operation on `int`.

module Numeric {

  /** `Math.round(a / b)` for an exact rational `a / b` with `b > 0`:
      the unique integer `r` with `r - 1/2 <= a/b < r + 1/2`
      (JavaScript rounds halves towards +infinity). */
  function RoundDiv(a: int, b: int): (r: int)
    requires b > 0
    ensures 2 * b * r <= 2 * a + b < 2 * b * r + 2 * b
  {
    var q := (2 * a + b) / (2 * b);
    MulDivBounds(2 * a + b, 2 * b);
    q
  }

  /** Euclidean division by a positive divisor is floor division. */
  lemma MulDivBounds(n: int, d: int)
    requires d > 0
    ensures d * (n / d) <= n < d * (n / d) + d
  {
  }

  /** `Math.round(a / b)` is monotone in the numerator. */
  lemma {:induction false} RoundDivMonotone(a1: int, a2: int, b: int)
    requires b > 0 && a1 <= a2
    ensures RoundDiv(a1, b) <= RoundDiv(a2, b)
  {
    var r1, r2 := RoundDiv(a1, b), RoundDiv(a2, b);
    if r1 > r2 {
      assert 2 * b * r2 + 2 * b <= 2 * b * r1 by {
        assert r2 + 1 <= r1;
        MulMonotone(2 * b, r2 + 1, r1);
      }
      assert false;
    }
  }

  /** The quotient and remainder of a division by a positive divisor are
      the only ones that reassemble the dividend. */
  lemma {:induction false} DivUnique(a: int, b: int, q: int, r: int)
    requires b > 0 && 0 <= r < b && a == q * b + r
    ensures a / b == q && a % b == r
  {
    var q' := a / b;
    MulDivBounds(a, b);
    if q' < q {
      MulMonotone(b, q' + 1, q);
    } else if q' > q {
      MulMonotone(b, q + 1, q');
    }
  }

  lemma MulMonotone(k: int, x: int, y: int)
    requires k >= 0 && x <= y
    ensures k * x <= k * y
  {
  }

  /** `Math.round(a / b) >= k` exactly when `a / b >= k - 1/2`. */
  lemma {:induction false} RoundDivAtLeast(a: int, b: int, k: int)
    requires b > 0
    ensures RoundDiv(a, b) >= k <==> 2 * b * k <= 2 * a + b
  {
    var r := RoundDiv(a, b);
    if r >= k {
      MulMonotone(2 * b, k, r);
    } else {
      MulMonotone(2 * b, r + 1, k);
    }
  }

  /** A share `Math.round(100 * part / whole)` of a whole is a percentage. */
  lemma {:induction false} PercentInRange(part: int, whole: int)
    requires 0 <= part <= whole && whole > 0
    ensures 0 <= RoundDiv(100 * part, whole) <= 100
  {
    RoundDivMonotone(0, 100 * part, whole);
    RoundDivMonotone(100 * part, 100 * whole, whole);
    assert RoundDiv(0, whole) == 0 by {
      var r := RoundDiv(0, whole);
      if r < 0 { MulMonotone(2 * whole, r + 1, 0); }
      if r > 0 { MulMonotone(2 * whole, 1, r); }
    }
    assert RoundDiv(100 * whole, whole) == 100 by {
      var r := RoundDiv(100 * whole, whole);
      if r < 100 { MulMonotone(2 * whole, r + 1, 100); }
      if r > 100 { MulMonotone(2 * whole, 101, r); }
    }
  }

  /** `Math.min(hi, Math.max(lo, x))`. */
  function Clamp(x: int, lo: int, hi: int): (r: int)
    requires lo <= hi
    ensures lo <= r <= hi
    ensures lo <= x <= hi ==> r == x
    ensures x < lo ==> r == lo
    ensures x > hi ==> r == hi
  {
    if x < lo then lo else if x > hi then hi else x
  }

  function Min(a: int, b: int): int { if a <= b then a else b }

  /** JavaScript's `%`: the remainder takes the sign of the dividend
      (Dafny's `%` is Euclidean and never negative). */
  function JsRem(a: int, b: int): (r: int)
    requires b > 0
    ensures a >= 0 ==> 0 <= r < b && r == a % b
    ensures a < 0 ==> -b < r <= 0 && -r == (-a) % b
  {
    if a >= 0 then a % b else -((-a) % b)
  }
}
