/**
 Division in double precision, as the source's `(amount * percent) / 100` computes it: the
 quotient of two integers is the nearest double, ties to even. Rounding the double down, or
 half up, gives what rounding the exact quotient gives; only the fraction carries noise.
 */
module Doubles {
  import opened Money

  /** 2^66. Every double from 1/10000 up to 2^53 is a whole number of this part of one. */
  const SCALE: nat := 73_786_976_294_838_206_464

  /** Up to here products of integers are exact. */
  const TWO_53: nat := 9_007_199_254_740_992

  const TWO_52: nat := 4_503_599_627_370_496

  /** `u`, doubled as often as `w` must be until `x / w` has at most 53 binary digits. */
  function Widen(x: nat, w: nat, u: nat): nat
    requires w > 0
    decreases x - w
  {
    if w * TWO_53 <= x then Widen(x, 2 * w, 2 * u) else u
  }

  /** The spacing of the doubles around `n / d`, in parts of 1 / SCALE. */
  function Spacing(n: nat, d: nat): nat
    requires d > 0
  {
    Widen(n * SCALE, d, 1)
  }

  /** The nearest integer to `n / d`, ties to even. */
  function NearestEven(n: nat, d: nat): nat
    requires d > 0
  {
    if 2 * (n % d) < d || (2 * (n % d) == d && n / d % 2 == 0) then n / d else n / d + 1
  }

  lemma DivMod(n: nat, d: nat)
    requires d > 0
    ensures n == d * (n / d) + n % d && 0 <= n % d < d
  {
  }

  lemma NearestEvenIs(n: nat, d: nat)
    requires d > 0
    ensures 2 * (d * NearestEven(n, d)) - d <= 2 * n <= 2 * (d * NearestEven(n, d)) + d
  {
    var q, r := n / d, n % d;
    DivMod(n, d);
    NextMultiple(d, q);
    if NearestEven(n, d) == q {
      assert d * NearestEven(n, d) == d * q;
    }
  }

  lemma NextMultiple(d: nat, q: nat)
    ensures d * (q + 1) == d * q + d
  {
  }

  /** A multiple is its own nearest. */
  lemma NearestExact(d: nat, q: nat)
    requires d > 0
    ensures NearestEven(d * q, d) == q
  {
    ModUnique(d * q, d, q, 0);
  }

  /** The double nearest to `n / d`, in parts of 1 / SCALE. */
  function Quotient(n: nat, d: nat): nat
    requires d > 0
  {
    var u := Spacing(n, d);
    SpacingIs(n, d);
    NearestEven(n * SCALE, d * u) * u
  }

  // ------------------------------------------------------------------- powers of two

  predicate IsPower(u: nat) {
    u == 1 || (u > 1 && u % 2 == 0 && IsPower(u / 2))
  }

  lemma {:induction false} PowerDivides(u: nat, v: nat)
    requires IsPower(u) && IsPower(v) && u <= v
    ensures v % u == 0
  {
    if u > 1 {
      PowerDivides(u / 2, v / 2);
      var k := (v / 2) / (u / 2);
      assert v / 2 == (u / 2) * k;
      assert v == u * k;
      MultipleMod(u, k);
    }
  }

  lemma MultipleMod(u: nat, k: nat)
    requires u > 0
    ensures u * k % u == 0 && u * k / u == k
  {
    ModUnique(u * k, u, k, 0);
  }

  lemma LessMultiple(d: nat, x: nat, y: nat)
    requires x < y
    ensures d * x + d <= d * y
  {
    Spread(d, x + 1, y - x - 1);
    Spread(d, x, 1);
  }

  lemma Spread(d: nat, x: nat, k: nat)
    ensures d * (x + k) == d * x + d * k && d * k >= 0
  {
  }

  lemma ModUnique(n: nat, d: nat, q: nat, r: nat)
    requires d > 0 && n == d * q + r && r < d
    ensures n / d == q && n % d == r
  {
    DivMod(n, d);
    if n / d < q {
      LessMultiple(d, n / d, q);
    } else if n / d > q {
      LessMultiple(d, q, n / d);
    }
  }

  lemma {:induction false} PowerGap(u: nat, v: nat)
    requires IsPower(u) && IsPower(v) && u < v
    ensures 2 * u <= v
  {
    if u > 1 {
      PowerGap(u / 2, v / 2);
    }
  }

  lemma {:induction false} PowerProduct(u: nat, v: nat)
    requires IsPower(u) && IsPower(v)
    ensures IsPower(u * v)
  {
    if u > 1 {
      PowerProduct(u / 2, v);
      assert u * v == 2 * (u / 2 * v);
    }
  }

  lemma Power64()
    ensures IsPower(64)
  {
    assert IsPower(2) && IsPower(4) && IsPower(8) && IsPower(16) && IsPower(32);
  }

  lemma ScaleIsPower()
    ensures IsPower(SCALE) && IsPower(SCALE / 2) && IsPower(SCALE / 64)
  {
    Power64();
    PowerProduct(64, 64);
    PowerProduct(4_096, 4_096);
    PowerProduct(16_777_216, 16_777_216);
    PowerProduct(4_096, 281_474_976_710_656);
    PowerProduct(64, 1_152_921_504_606_846_976);
  }

  lemma {:induction false} WidenIs(x: nat, d: nat, w: nat, u: nat)
    requires w == d * u && w > 0 && IsPower(u)
    ensures var r := Widen(x, w, u); IsPower(r) && r >= u && d * r * TWO_53 > x && (r == u || d * r * TWO_52 <= x)
    decreases x - w
  {
    if w * TWO_53 <= x {
      Twice(d, u);
      WidenIs(x, d, 2 * w, 2 * u);
    }
  }

  lemma Twice(d: nat, u: nat)
    ensures d * (2 * u) == 2 * (d * u)
  {
  }

  /** A power of two that leaves the quotient 53 binary digits, or the least one. */
  lemma SpacingIs(n: nat, d: nat)
    requires d > 0
    ensures var u := Spacing(n, d);
            IsPower(u) && u > 0 && d * u > 0 && d * u * TWO_53 > n * SCALE && (u == 1 || d * u * TWO_52 <= n * SCALE)
  {
    WidenIs(n * SCALE, d, d, 1);
  }

  // ---------------------------------------------------- the error of a double quotient

  /** The two divisors of the code: percent and basis points. */
  predicate Divisor(d: nat) {
    d == 100 || d == 10_000
  }

  /** Below 2^53 the spacing around a quotient is less than twice the divisor's part of one. */
  lemma SpacingBound(n: nat, d: nat)
    requires Divisor(d) && n <= TWO_53
    ensures var u := Spacing(n, d); IsPower(u) && d * u < 2 * SCALE
  {
    SpacingIs(n, d);
    var u := Spacing(n, d);
    if u > 1 {
      assert d * u * TWO_52 <= TWO_53 * SCALE;
    }
  }

  lemma QuotientError(n: nat, d: nat)
    requires d > 0
    ensures var u := Spacing(n, d); 2 * (d * Quotient(n, d)) - d * u <= 2 * (n * SCALE) <= 2 * (d * Quotient(n, d)) + d * u
  {
    SpacingIs(n, d);
    var u := Spacing(n, d);
    var m := NearestEven(n * SCALE, d * u);
    NearestEvenIs(n * SCALE, d * u);
    Regroup(d, u, m, 1);
  }

  /** The quotient is a double: a power of two times an integer of 53 binary digits; and no multiple of it is nearer. */
  lemma QuotientIsDouble(n: nat, d: nat) returns (m: nat)
    requires Divisor(d) && n > 0
    ensures var u := Spacing(n, d);
            && IsPower(u) && Quotient(n, d) == m * u && TWO_52 <= m <= TWO_53
            && 2 * (d * Quotient(n, d)) - d * u <= 2 * (n * SCALE) <= 2 * (d * Quotient(n, d)) + d * u
  {
    SpacingIs(n, d);
    QuotientError(n, d);
    var u := Spacing(n, d);
    m := NearestEven(n * SCALE, d * u);
    NearestEvenIs(n * SCALE, d * u);
    var w := d * u;
    if m < TWO_52 {
      LessMultiple(w, m, TWO_52);
    } else if m > TWO_53 {
      LessMultiple(w, TWO_53, m);
    }
  }

  /** A quotient that is a whole number of halves is exact. */
  lemma QuotientExact(n: nat, d: nat, halves: nat)
    requires Divisor(d) && n <= TWO_53 && 2 * n == d * halves
    ensures Quotient(n, d) == halves * (SCALE / 2)
  {
    SpacingBound(n, d);
    ScaleIsPower();
    var u := Spacing(n, d);
    PowerDivides(u, SCALE / 2);
    var k := SCALE / 2 / u;
    DivMod(SCALE / 2, u);
    assert SCALE / 2 == u * k;
    assert n * SCALE == 2 * n * (SCALE / 2);
    Regroup(d, halves, u, k);
    NearestExact(d * u, halves * k);
    Regroup(halves, k, u, 1);
  }

  lemma Regroup(a: nat, b: nat, c: nat, e: nat)
    ensures a * b * (c * e) == a * c * (b * e) && a * b * c == a * (c * b)
  {
    assert a * b * (c * e) == a * (b * (c * e));
    assert b * (c * e) == c * (b * e);
    assert a * (c * (b * e)) == a * c * (b * e);
  }

  // ------------------------------------------------------- what rounding a double gives

  /** The exact quotient `f + r / d`, to within less than one part in `d`. */
  lemma QuotientNear(n: nat, d: nat, f: nat, r: nat)
    requires Divisor(d) && n <= TWO_53 && n == d * f + r && r < d
    ensures d * f * SCALE + (r - 1) * SCALE < d * Quotient(n, d) < d * f * SCALE + (r + 1) * SCALE
  {
    SpacingBound(n, d);
    QuotientError(n, d);
    assert n * SCALE == d * f * SCALE + r * SCALE;
  }

  lemma FloorBetween(q: nat, f: nat)
    requires f * SCALE <= q < (f + 1) * SCALE
    ensures q / SCALE == f && q % SCALE == q - f * SCALE
  {
    ModUnique(q, SCALE, f, q - f * SCALE);
  }

  /** `q` lies between `f` and the next integer, and on the side of their middle where `f + r / d` is. */
  predicate Placed(q: nat, d: nat, f: nat, r: nat) {
    && f * SCALE <= q < (f + 1) * SCALE && (q == f * SCALE <==> r == 0)
    && (2 * q >= (2 * f + 1) * SCALE <==> 2 * r >= d)
  }

  lemma PlacedPercent(q: nat, f: nat, r: nat)
    requires 100 * f * SCALE + (r - 1) * SCALE < 100 * q < 100 * f * SCALE + (r + 1) * SCALE && r < 100
    requires (r == 0 ==> q == f * SCALE) && (r == 50 ==> 2 * q == (2 * f + 1) * SCALE)
    ensures Placed(q, 100, f, r)
  {
  }

  lemma PlacedBasisPoints(q: nat, f: nat, r: nat)
    requires 10_000 * f * SCALE + (r - 1) * SCALE < 10_000 * q < 10_000 * f * SCALE + (r + 1) * SCALE && r < 10_000
    requires (r == 0 ==> q == f * SCALE) && (r == 5_000 ==> 2 * q == (2 * f + 1) * SCALE)
    ensures Placed(q, 10_000, f, r)
  {
  }

  lemma QuotientPlace(n: nat, d: nat, f: nat, r: nat)
    requires Divisor(d) && n <= TWO_53 && n == d * f + r && r < d
    ensures Placed(Quotient(n, d), d, f, r)
  {
    QuotientNear(n, d, f, r);
    if r == 0 {
      Halves(d, f, 0);
      QuotientExact(n, d, 2 * f);
    } else if 2 * r == d {
      Halves(d, f, 1);
      QuotientExact(n, d, 2 * f + 1);
    }
    if d == 100 {
      PlacedPercent(Quotient(n, d), f, r);
    } else {
      PlacedBasisPoints(Quotient(n, d), f, r);
    }
  }

  lemma Halves(d: nat, f: nat, one: nat)
    ensures d * (2 * f + one) == 2 * (d * f) + d * one
  {
  }

  lemma RoundedAt(n: nat, d: nat, f: nat, up: bool)
    requires d > 0 && d * f <= n < d * f + d && (up <==> 2 * n >= 2 * (d * f) + d)
    ensures RoundDiv(n, d) == if up then f + 1 else f
  {
    Spread(d, f, 1);
    Spread(d, f, 2);
    Regroup(2, d, f, 1);
    Regroup(2, d, f + 1, 1);
    Regroup(2, d, f + 2, 1);
    RoundDivUnique(n, d, if up then f + 1 else f);
  }

  /**
   While a product is at most 2^53: rounding its double quotient down, or half up as
   `Math.round` does, gives what the exact quotient gives, and its fraction is zero exactly
   when the exact one is.
   */
  lemma DoublesAgree(n: nat, d: nat)
    requires Divisor(d) && n <= TWO_53
    ensures Quotient(n, d) / SCALE == n / d
    ensures Quotient(n, d) % SCALE == 0 <==> n % d == 0
    ensures RoundDiv(Quotient(n, d), SCALE) == RoundDiv(n, d)
  {
    var f, r := n / d, n % d;
    DivMod(n, d);
    QuotientPlace(n, d, f, r);
    FloorBetween(Quotient(n, d), f);
    RoundedAt(n, d, f, 2 * r >= d);
    RoundedAt(Quotient(n, d), SCALE, f, 2 * r >= d);
  }

  /** 2^46. Below it the noise of a quotient is less than half a hundredth. */
  const TWO_46: nat := 70_368_744_177_664

  lemma SmallSpacing(n: nat)
    requires n < 100 * TWO_46
    ensures 100 * Spacing(n, 100) < SCALE
  {
    SpacingIs(n, 100);
    ScaleIsPower();
    var u := Spacing(n, 100);
    if u > 1 {
      assert 100 * u * TWO_52 < 100 * TWO_46 * SCALE;
      assert u < SCALE / 64;
      PowerGap(u, SCALE / 64);
    }
  }

  /** Below 2^46 doubles keep unequal remainders in order. */
  lemma FractionsOrdered(a: nat, b: nat)
    requires a < 100 * TWO_46 && b < 100 * TWO_46 && a % 100 > b % 100
    ensures Quotient(a, 100) % SCALE > Quotient(b, 100) % SCALE
  {
    var f, g := a / 100, b / 100;
    DoublesAgree(a, 100);
    DoublesAgree(b, 100);
    SmallSpacing(a);
    SmallSpacing(b);
    QuotientError(a, 100);
    QuotientError(b, 100);
    DivMod(Quotient(a, 100), SCALE);
    DivMod(Quotient(b, 100), SCALE);
  }

  /** A spacing and a digit string that fit are the ones of the quotient. */
  lemma QuotientOf(n: nat, d: nat, u: nat, m: nat)
    requires Divisor(d) && n > 0 && IsPower(u) && d * u * TWO_52 <= n * SCALE < d * u * TWO_53
    requires 2 * (d * u * m) - d * u < 2 * (n * SCALE) < 2 * (d * u * m) + d * u
    ensures Quotient(n, d) == m * u
  {
    SpacingIs(n, d);
    var v, w := Spacing(n, d), d * u;
    assert d == 100 || d == 10_000;
    if v < u {
      PowerGap(v, u);
    } else if u < v {
      PowerGap(u, v);
    }
    var k := NearestEven(n * SCALE, w);
    NearestEvenIs(n * SCALE, w);
    if k < m {
      LessMultiple(w, k, m);
    } else if m < k {
      LessMultiple(w, m, k);
    }
  }
}
