/** Division with remainder, as the index arithmetic of the ranks needs it. */
module Arith {

  /** Ceiling division, for a count of batches. */
  lemma CeilIs(n: nat, per: nat, k: nat)
    requires per > 0
    requires n <= per * k
    requires k > 0 ==> per * (k - 1) < n
    ensures (n + per - 1) / per == k
  {
    QuotientIs(n + per - 1, per, k, n + per - 1 - per * k);
  }

  lemma QuotientIs(n: nat, d: nat, q: nat, r: int)
    requires n == d * q + r && 0 <= r < d
    ensures n / d == q && n % d == r
  {
    SameQuotient(d, q, r, n / d, n % d);
  }

  lemma SameQuotient(d: nat, q: int, r: int, q': int, r': int)
    requires 0 <= r < d && 0 <= r' < d && d * q + r == d * q' + r'
    ensures q == q' && r == r'
  {
    if q < q' { MulAtLeast(d, q' - q); }
    if q' < q { MulAtLeast(d, q - q'); }
  }

  lemma MulAtLeast(d: nat, m: nat)
    requires m > 0
    ensures d * m >= d
  {
  }

  lemma DivideAgain(n: int, d: nat)
    requires d > 0
    ensures n == d * (n / d) + n % d && 0 <= n % d < d
  {
  }

  lemma MulNext(d: int, k: int)
    ensures d * (k + 1) == d * k + d
  {
  }

  lemma MulMonotone(d: nat, a: int, b: int)
    requires a <= b
    ensures d * a <= d * b
  {
  }

  lemma MulStrict(d: nat, a: int, b: int)
    requires d > 0 && a < b
    ensures d * a + d <= d * b
  {
    assert d * b == d * a + d * (b - a);
    MulAtLeast(d, b - a);
  }

  /** Factors compare as their products do. */
  lemma MulCancel(d: nat, a: int, b: int)
    requires d * a < d * b
    ensures a < b
  {
    if a >= b { MulMonotone(d, b, a); }
  }
}
