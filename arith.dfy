/** Small facts about integer multiplication and Euclidean division. */
module Arith {

  lemma MulMonotone(c: int, a: int, b: int)
    requires c >= 0 && a <= b
    ensures c * a <= c * b
  {
  }

  lemma MulCancel(c: int, a: int, b: int)
    requires c > 0 && c * a < c * b
    ensures a < b
  {
    if a >= b {
      MulMonotone(c, b, a);
    }
  }

  lemma RoundingBounds(x: int, d: int)
    requires x >= 0 && d > 0
    ensures 0 <= x / d
    ensures d * (x / d) <= x < d * (x / d + 1)
  {
  }

  /** Euclidean division is determined by quotient and in-range remainder. */
  lemma DivModUnique(x: int, d: int, q: int, r: int)
    requires d >= 1 && 0 <= r < d && x == d * q + r
    ensures x / d == q && x % d == r
  {
    var q0, r0 := x / d, x % d;
    assert x == d * q0 + r0;
    if q0 < q {
      MulMonotone(d, q0 + 1, q);
    } else if q0 > q {
      MulMonotone(d, q + 1, q0);
    }
  }
}
