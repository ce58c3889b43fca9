/**
 Exact arithmetic behind the source's `Math.round`: amounts are integers in minor
 units, and every product below stays an integer, so a quotient is rounded once.
 */
module Money {

  /** `Number.MAX_SAFE_INTEGER`. */
  const MAX_SAFE := 9007199254740991

  predicate Safe(n: int) {
    -MAX_SAFE <= n <= MAX_SAFE
  }

  /** `Math.round(n / d)`: the nearest integer, a half going up. */
  function RoundDiv(n: int, d: int): (r: int)
    requires d > 0
    ensures 2 * d * r <= 2 * n + d < 2 * d * (r + 1)
  {
    (2 * n + d) / (2 * d)
  }

  lemma RoundDivUnique(n: int, d: int, r: int)
    requires d > 0
    requires 2 * d * r <= 2 * n + d < 2 * d * (r + 1)
    ensures r == RoundDiv(n, d)
  {
    var q := RoundDiv(n, d);
    MulCancel(2 * d, r, q + 1);
    MulCancel(2 * d, q, r + 1);
  }

  lemma MulCancel(k: int, x: int, y: int)
    requires k > 0 && k * x < k * y
    ensures x < y
  {
  }

  /** Adding a multiple of the divisor moves the rounded quotient by exactly that multiple. */
  lemma RoundDivShift(n: int, d: int, k: int)
    requires d > 0
    ensures RoundDiv(n + d * k, d) == RoundDiv(n, d) + k
  {
    var r := RoundDiv(n, d);
    assert 2 * d * (r + k) == 2 * d * r + 2 * (d * k);
    assert 2 * d * (r + k + 1) == 2 * d * (r + 1) + 2 * (d * k);
    RoundDivUnique(n + d * k, d, r + k);
  }
}
