/** Powers of ten and the two BigInt divisions shared by the hedge modules.  All operands are
    non-negative where the source divides, so truncation and Dafny's Euclidean division agree. */
module Arithmetic {

  function Pow10(n: nat): (p: nat)
    ensures p > 0
  {
    if n == 0 then 1 else 10 * Pow10(n - 1)
  }

  lemma {:induction false} PowAdd(m: nat, n: nat)
    ensures Pow10(m + n) == Pow10(m) * Pow10(n)
  {
    if m == 0 {
    } else {
      PowAdd(m - 1, n);
      assert Pow10(m + n) == 10 * Pow10(m - 1 + n);
      assert 10 * (Pow10(m - 1) * Pow10(n)) == (10 * Pow10(m - 1)) * Pow10(n);
    }
  }

  lemma {:induction false} PowMonotone(m: nat, n: nat)
    requires m <= n
    ensures Pow10(m) <= Pow10(n)
    decreases n
  {
    if m < n { PowMonotone(m, n - 1); }
  }

  /** The quotient rounded up: least q with q * d >= n. */
  function DivCeil(n: nat, d: nat): nat
    requires d > 0
  {
    (n + d - 1) / d
  }

  lemma MulMonotone(a: int, b: int, c: int)
    requires a <= b && 0 <= c
    ensures a * c <= b * c
  {
  }

  lemma MulGap(a: int, b: int, c: int)
    requires a < b && 0 <= c
    ensures a * c + c <= b * c
  {
    MulMonotone(a + 1, b, c);
  }

  /** A product of naturals is a natural; naming it keeps nested products cheap to reason about. */
  function Times(a: nat, b: nat): (p: nat)
    ensures a > 0 && b > 0 ==> p > 0
  {
    a * b
  }

  lemma FloorBounds(n: nat, d: nat)
    requires d > 0
    ensures (n / d) * d <= n < (n / d) * d + d
  {
    assert n == (n / d) * d + n % d;
  }

  lemma CeilBounds(n: nat, d: nat)
    requires d > 0
    ensures n <= DivCeil(n, d) * d < n + d
  {
    FloorBounds(n + d - 1, d);
  }

  /** DivCeil(n, d) is the least natural whose product with d reaches n. */
  lemma CeilLeast(n: nat, d: nat, m: nat)
    requires d > 0
    ensures DivCeil(n, d) <= m <==> n <= m * d
  {
    CeilBounds(n, d);
    if n <= m * d && m < DivCeil(n, d) { MulGap(m, DivCeil(n, d), d); }
    if DivCeil(n, d) <= m { MulMonotone(DivCeil(n, d), m, d); }
  }

  /** n / d is the greatest natural whose product with d stays within n. */
  lemma FloorGreatest(n: nat, d: nat, m: nat)
    requires d > 0
    ensures m <= n / d <==> m * d <= n
  {
    FloorBounds(n, d);
    if m * d <= n && n / d < m { MulGap(n / d, m, d); }
    if m <= n / d { MulMonotone(m, n / d, d); }
  }

  lemma MulCancel(a: int, b: int, c: int)
    requires 0 < c && a * c <= b * c
    ensures a <= b
  {
    if b < a { MulGap(b, a, c); }
  }

  /** Scaling numerator and denominator together changes neither division. */
  lemma CeilScale(n: nat, d: nat, k: nat)
    requires d > 0 && k > 0
    ensures d * k > 0 && DivCeil(n * k, d * k) == DivCeil(n, d)
  {
    assert d * k > 0 by { MulMonotone(1, d, k); }
    var q, p := DivCeil(n, d), DivCeil(n * k, d * k);
    CeilBounds(n, d);
    MulMonotone(n, q * d, k);
    assert q * d * k == q * (d * k);
    CeilLeast(n * k, d * k, q);
    CeilBounds(n * k, d * k);
    assert p * (d * k) == p * d * k;
    MulCancel(n, p * d, k);
    CeilLeast(n, d, p);
  }

  lemma FloorScale(n: nat, d: nat, k: nat)
    requires d > 0 && k > 0
    ensures d * k > 0 && (n * k) / (d * k) == n / d
  {
    assert d * k > 0 by { MulMonotone(1, d, k); }
    var q, p := n / d, (n * k) / (d * k);
    FloorBounds(n, d);
    MulMonotone(q * d, n, k);
    assert q * d * k == q * (d * k);
    FloorGreatest(n * k, d * k, q);
    FloorBounds(n * k, d * k);
    assert p * (d * k) == p * d * k;
    MulCancel(p * d, n, k);
    FloorGreatest(n, d, p);
  }

  lemma TimesDistributes(a: nat, b: nat, c: nat)
    ensures Times(a, b + c) == Times(a, b) + Times(a, c)
  {
  }

  // ---------------------------------------------------------------- exact quotients

  /** The exact rational n / d. */
  function Ratio(n: int, d: nat): real
    requires d > 0
  {
    n as real / d as real
  }

  lemma CastProduct(a: int, b: int)
    ensures (a * b) as real == a as real * b as real
  {
  }

  lemma RealCancel(a: real, b: real, c: real)
    requires c > 0.0
    ensures a * c <= b * c <==> a <= b
  {
  }

  lemma RatioTimes(n: int, d: nat)
    requires d > 0
    ensures Ratio(n, d) * d as real == n as real
  {
  }

  /** Comparing two exact quotients is comparing the cross products. */
  lemma RatioLess(a: int, b: nat, c: int, d: nat)
    requires b > 0 && d > 0
    ensures Ratio(a, b) < Ratio(c, d) <==> a * d < c * b
  {
    var x, y, B, D := Ratio(a, b), Ratio(c, d), b as real, d as real;
    RatioTimes(a, b);
    RatioTimes(c, d);
    CrossProduct(x, y, B, D);
    CastProduct(a, d);
    CastProduct(c, b);
    RealCancel(y, x, B * D);
  }

  lemma CrossProduct(x: real, y: real, B: real, D: real)
    requires B > 0.0 && D > 0.0
    ensures B * D > 0.0
    ensures x * (B * D) == (x * B) * D
    ensures y * (B * D) == (y * D) * B
  {
  }

  lemma RatioAdd(a: int, b: int, d: nat)
    requires d > 0
    ensures Ratio(a + b, d) == Ratio(a, d) + Ratio(b, d)
  {
  }

  lemma RatioWhole(a: int, d: nat)
    requires d > 0
    ensures Ratio(a * d, d) == a as real
  {
    CastProduct(a, d);
  }

  lemma TimesWhole(a: nat, d: nat)
    requires d > 0
    ensures Ratio(Times(a, d), d) == a as real
  {
    RatioWhole(a, d);
  }

  lemma RatioFloor(n: nat, d: nat)
    requires d > 0
    ensures (n / d) as real <= Ratio(n, d) < (n / d) as real + 1.0
  {
    hide Ratio;
    FloorBounds(n, d);
    RatioAgainst(n, d, n / d);
    RatioAgainst(n, d, n / d + 1);
  }

  lemma RatioCeil(n: nat, d: nat)
    requires d > 0
    ensures Ratio(n, d) <= DivCeil(n, d) as real < Ratio(n, d) + 1.0
  {
    hide Ratio;
    CeilBounds(n, d);
    RatioAgainst(n, d, DivCeil(n, d));
    RatioAgainst(n, d, DivCeil(n, d) - 1);
  }

  lemma RatioAgainst(n: int, d: nat, q: int)
    requires d > 0
    ensures q * d <= n <==> q as real <= Ratio(n, d)
    ensures q * d < n <==> (q as real) < Ratio(n, d)
    ensures (q + 1) * d == q * d + d
    ensures (q - 1) * d == q * d - d
  {
    hide Ratio;
    RatioWhole(q, d);
    RatioOrder(n, q * d, d);
    RatioOrder(q * d, n, d);
  }

  lemma RatioOrder(a: int, b: int, d: nat)
    requires d > 0
    ensures Ratio(a, d) < Ratio(b, d) <==> a < b
  {
    RatioTimes(a, d);
    RatioTimes(b, d);
    RealCancel(Ratio(b, d), Ratio(a, d), d as real);
  }
}
