/** Finite sums, and counting rows in lists of tables. */
module Sums {
  import opened Arith

  ghost function Sum(n: nat, f: int -> int): int {
    if n == 0 then 0 else Sum(n - 1, f) + f(n - 1)
  }

  lemma {:induction false} SumEq(n: nat, f: int -> int, g: int -> int)
    requires forall i :: 0 <= i < n ==> f(i) == g(i)
    ensures Sum(n, f) == Sum(n, g)
  {
    if n > 0 { SumEq(n - 1, f, g); }
  }

  lemma {:induction false} SumPlus(n: nat, f: int -> int, g: int -> int)
    ensures Sum(n, i => f(i) + g(i)) == Sum(n, f) + Sum(n, g)
  {
    if n > 0 { SumPlus(n - 1, f, g); }
  }

  lemma {:induction false} SumZero(n: nat, f: int -> int)
    requires forall i :: 0 <= i < n ==> f(i) == 0
    ensures Sum(n, f) == 0
  {
    if n > 0 { SumZero(n - 1, f); }
  }

  /** A sum with one term. */
  lemma {:induction false} SumOne(n: nat, f: int -> int, k: nat)
    requires k < n && forall i :: 0 <= i < n && i != k ==> f(i) == 0
    ensures Sum(n, f) == f(k)
  {
    if n - 1 == k { SumZero(n - 1, f); } else { SumOne(n - 1, f, k); }
  }

  /** The order of two sums does not matter. */
  lemma {:induction false} SumSwap(n: nat, m: nat, f: (int, int) -> int)
    ensures Sum(n, i => Sum(m, j => f(i, j))) == Sum(m, j => Sum(n, i => f(i, j)))
  {
    if n == 0 {
      SumZero(m, j => Sum(n, i => f(i, j)));
    } else {
      SumSwap(n - 1, m, f);
      SumPlus(m, j => Sum(n - 1, i => f(i, j)), j => f(n - 1, j));
      SumEq(m, j => Sum(n, i => f(i, j)),
            j => (j => Sum(n - 1, i => f(i, j)))(j) + (j => f(n - 1, j))(j));
    }
  }

  /** `h` with the term at `last` taken out. */
  ghost function Without(h: int -> int, last: int): int -> int {
    b => if b == last then 0 else h(b)
  }

  lemma {:induction false} SumLess(n: nat, h: int -> int, last: nat)
    requires last < n
    ensures Sum(n, h) == Sum(n, Without(h, last)) + h(last)
  {
    if n - 1 == last {
      SumEq(n - 1, h, Without(h, last));
    } else {
      SumLess(n - 1, h, last);
    }
  }

  /** `e` numbers indices below `n`, without repetition, and among them all where `h` is not 0. */
  ghost predicate Covers(n: nat, h: int -> int, k: nat, e: int -> int) {
    && (forall i :: 0 <= i < k ==> 0 <= e(i) < n)
    && (forall i, j :: 0 <= i < j < k ==> e(i) != e(j))
    && (forall b :: 0 <= b < n && h(b) != 0 ==> exists i :: 0 <= i < k && e(i) == b)
  }

  lemma CoversLess(n: nat, h: int -> int, k: nat, e: int -> int)
    requires k > 0 && Covers(n, h, k, e)
    ensures 0 <= e(k - 1) < n && Covers(n, Without(h, e(k - 1)), k - 1, e)
    ensures forall i :: 0 <= i < k - 1 ==> Without(h, e(k - 1))(e(i)) == h(e(i))
  {
    forall b | 0 <= b < n && b != e(k - 1) && h(b) != 0 ensures exists i :: 0 <= i < k - 1 && e(i) == b {
      var i :| 0 <= i < k && e(i) == b;
      assert i < k - 1;
    }
  }

  lemma CoversNone(n: nat, h: int -> int, e: int -> int)
    requires Covers(n, h, 0, e)
    ensures Sum(n, h) == Sum(0, Renumber(h, e))
  {
    SumZero(n, h);
  }

  ghost function Renumber(h: int -> int, e: int -> int): int -> int {
    i => h(e(i))
  }

  lemma ScatterStep(n: nat, h: int -> int, k: nat, e: int -> int, less: int -> int)
    requires k > 0 && 0 <= e(k - 1) < n && less == Without(h, e(k - 1))
    requires forall i :: 0 <= i < k - 1 ==> less(e(i)) == h(e(i))
    requires Sum(n, less) == Sum(k - 1, Renumber(less, e))
    ensures Sum(n, h) == Sum(k, Renumber(h, e))
  {
    hide Without, Sum;
    SumLess(n, h, e(k - 1));
    SumEq(k - 1, Renumber(less, e), Renumber(h, e));
    SumLast(k, Renumber(h, e));
  }

  lemma SumLast(k: nat, f: int -> int)
    requires k > 0
    ensures Sum(k, f) == Sum(k - 1, f) + f(k - 1)
  {
  }

  /** A sum whose terms vanish outside the indices `e(0)`, ..., `e(k - 1)`. */
  lemma {:induction false} SumScatter(n: nat, h: int -> int, k: nat, e: int -> int)
    requires Covers(n, h, k, e)
    ensures Sum(n, h) == Sum(k, Renumber(h, e))
  {
    hide Covers, Without, Sum;
    if k == 0 {
      CoversNone(n, h, e);
    } else {
      CoversLess(n, h, k, e);
      SumScatter(n, Without(h, e(k - 1)), k - 1, e);
      ScatterStep(n, h, k, e, Without(h, e(k - 1)));
    }
  }

  /** Changing one term. */
  lemma {:induction false} SumChange(n: nat, f: int -> int, g: int -> int, k: nat)
    requires k < n && forall i :: 0 <= i < n && i != k ==> f(i) == g(i)
    ensures Sum(n, g) - Sum(n, f) == g(k) - f(k)
  {
    if n - 1 == k { SumEq(n - 1, f, g); } else { SumChange(n - 1, f, g, k); }
  }

  lemma {:induction false} SumNonNegative(n: nat, f: int -> int)
    requires forall i :: 0 <= i < n ==> f(i) >= 0
    ensures Sum(n, f) >= 0
  {
    if n > 0 { SumNonNegative(n - 1, f); }
  }
}
