/** Python `Decimal` arithmetic as exact `real` arithmetic: running sums
    over a list, counts, and `int(...)`, which truncates toward zero. */
module Decimals {

  /** `int(x)` for a `Decimal` `x`: the integer part, rounding toward zero. */
  function Trunc(x: real): (n: int)
    ensures x >= 0.0 ==> n as real <= x < n as real + 1.0
    ensures x < 0.0 ==> n as real - 1.0 < x <= n as real
  {
    if x >= 0.0 then x.Floor else -((-x).Floor)
  }

  /** A product of non-negative numbers is non-negative. */
  lemma MulNonNegative(a: real, b: real)
    requires a >= 0.0 && b >= 0.0
    ensures a * b >= 0.0
  {
  }

  /** A product of positive numbers is positive. */
  lemma MulPositive(a: real, b: real)
    requires a > 0.0 && b > 0.0
    ensures a * b > 0.0
  {
  }

  /** Scaling by a positive factor keeps a non-strict order. */
  lemma ScaleAtMost(x: real, y: real, b: real)
    requires x <= y && b > 0.0
    ensures x * b <= y * b
  {
    MulNonNegative(y - x, b);
    assert (y - x) * b == y * b - x * b;
  }

  /** Scaling by a positive factor keeps a strict order. */
  lemma ScaleBelow(x: real, y: real, b: real)
    requires x < y && b > 0.0
    ensures x * b < y * b
  {
    MulPositive(y - x, b);
    assert (y - x) * b == y * b - x * b;
  }

  /** A factor of a positive product with a positive other factor is
      positive. */
  lemma PositiveFactor(a: real, r: real)
    requires a * r > 0.0 && r > 0.0
    ensures a > 0.0
  {
    if a <= 0.0 {
      MulNonNegative(-a, r);
    }
  }

  /** A non-negative number scaled by a factor between 0 and 1 stays
      between 0 and itself. */
  lemma MulAtMost(a: real, r: real)
    requires a >= 0.0 && 0.0 <= r <= 1.0
    ensures 0.0 <= a * r <= a
  {
    MulNonNegative(a, r);
    MulNonNegative(a, 1.0 - r);
  }

  /** `(1 / r) * r` is 1 for any non-zero `r`. */
  lemma InverseTimes(r: real)
    requires r != 0.0
    ensures (1.0 / r) * r == 1.0
  {
  }

  /** Dividing by `b` is multiplying by `1 / b`. */
  lemma QuotientAsProduct(a: real, b: real)
    requires b != 0.0
    ensures a / b == (1.0 / b) * a
  {
  }

  /** `(a / b) * b` is `a` for any non-zero `b`. */
  lemma QuotientTimes(a: real, b: real)
    requires b != 0.0
    ensures (a / b) * b == a
  {
  }

  /** `a = q * b` with positive `b` is at least `n * b` for any `n <= q`. */
  lemma ProductAbove(q: real, n: real, b: real, a: real)
    requires n <= q && b > 0.0 && q * b == a
    ensures n * b <= a
  {
    ScaleAtMost(n, q, b);
  }

  /** `a = q * b` with positive `b` is below `m * b` for any `m > q`. */
  lemma ProductBelow(q: real, m: real, b: real, a: real)
    requires q < m && b > 0.0 && q * b == a
    ensures a < m * b
  {
    ScaleBelow(q, m, b);
  }

  /** `int(a / b)` for non-negative `a` and positive `b` is the number of
      whole `b`s in `a`. */
  lemma TruncQuotient(a: real, b: real)
    requires a >= 0.0 && b > 0.0
    ensures var n := Trunc(a / b) as real;
            n * b <= a < (n + 1.0) * b
  {
    var q := a / b;
    QuotientTimes(a, b);
    if q < 0.0 {
      ScaleBelow(q, 0.0, b);
    }
    var n := Trunc(q) as real;
    ProductAbove(q, n, b, a);
    ProductBelow(q, n + 1.0, b, a);
  }

  /** A positive `int(a / b)` with positive `b` means `a` holds at least
      one `b`. */
  lemma PositiveQuotient(a: real, b: real)
    requires b > 0.0 && Trunc(a / b) > 0
    ensures a >= b
  {
    var q := a / b;
    QuotientTimes(a, b);
    assert q >= 1.0;
    ScaleAtMost(1.0, q, b);
  }

  /** `num / den if den > 0 else 0`: the quotient, guarded against a
      denominator that is zero or negative. */
  function Ratio(num: real, den: real): (r: real)
    ensures den > 0.0 ==> r * den == num
    ensures den <= 0.0 ==> r == 0.0
  {
    if den > 0.0 then num / den else 0.0
  }

  /** Over the same positive denominator, a larger numerator gives a
      larger quotient. */
  lemma RatioMonotone(a: real, b: real, den: real)
    requires a <= b && den > 0.0
    ensures Ratio(a, den) <= Ratio(b, den)
  {
    var x, y := Ratio(a, den), Ratio(b, den);
    if x > y {
      MulPositive(x - y, den);
    }
  }

  /** A non-negative part of a positive whole is a share between 0 and 1. */
  lemma RatioIsShare(part: real, whole: real)
    requires 0.0 <= part <= whole && whole > 0.0
    ensures 0.0 <= Ratio(part, whole) <= 1.0
  {
    RatioMonotone(0.0, part, whole);
    RatioMonotone(part, whole, whole);
  }

  /** `total = 0; for x in s: total += f(x)`. */
  function SumBy<T>(s: seq<T>, f: T -> real): real
    decreases |s|
  {
    if |s| == 0 then 0.0 else SumBy(s[..|s| - 1], f) + f(s[|s| - 1])
  }

  /** The number of elements satisfying `p`: `len([x for x in s if p(x)])`. */
  function CountBy<T>(s: seq<T>, p: T -> bool): (n: nat)
    ensures n <= |s|
    decreases |s|
  {
    if |s| == 0 then 0 else CountBy(s[..|s| - 1], p) + (if p(s[|s| - 1]) then 1 else 0)
  }

  /** A sum over a concatenation is the sum of the two sums. */
  lemma {:induction false} SumByAppend<T>(a: seq<T>, b: seq<T>, f: T -> real)
    ensures SumBy(a + b, f) == SumBy(a, f) + SumBy(b, f)
    decreases |b|
  {
    if |b| > 0 {
      assert (a + b)[..|a + b| - 1] == a + b[..|b| - 1];
      SumByAppend(a, b[..|b| - 1], f);
    } else {
      assert a + b == a;
    }
  }

  /** Taking one element out of the list takes its term out of the sum. */
  lemma {:induction false} SumByRemove<T>(s: seq<T>, j: int, f: T -> real)
    requires 0 <= j < |s|
    ensures SumBy(s, f) == SumBy(s[..j] + s[j + 1..], f) + f(s[j])
    decreases |s|
  {
    var n := |s| - 1;
    var t := s[..j] + s[j + 1..];
    if j == n {
      assert t == s[..n];
    } else {
      var u := s[..n];
      SumByRemove(u, j, f);
      assert u[j] == s[j];
      assert t[..|t| - 1] == u[..j] + u[j + 1..];
      assert t[|t| - 1] == s[n];
    }
  }

  /** A sum does not depend on the order of the list: two lists holding
      the same elements, counted with multiplicity, have the same sum. */
  lemma {:induction false} SumByPermutation<T>(s: seq<T>, t: seq<T>, f: T -> real)
    requires multiset(s) == multiset(t)
    ensures SumBy(s, f) == SumBy(t, f)
    decreases |s|
  {
    if |s| == 0 {
      assert |t| == |multiset(t)| == 0;
    } else {
      var x := s[|s| - 1];
      assert x in multiset(t);
      var j :| 0 <= j < |t| && t[j] == x;
      var t' := t[..j] + t[j + 1..];
      assert t == t[..j] + [x] + t[j + 1..];
      assert s == s[..|s| - 1] + [x];
      assert multiset(t') == multiset(t) - multiset{x};
      assert multiset(s[..|s| - 1]) == multiset(s) - multiset{x};
      SumByPermutation(s[..|s| - 1], t', f);
      SumByRemove(t, j, f);
    }
  }

  /** Two lists whose terms agree position by position have the same sum. */
  lemma {:induction false} SumByPointwise<T, U>(s: seq<T>, f: T -> real, t: seq<U>, g: U -> real)
    requires |s| == |t|
    requires forall i | 0 <= i < |s| :: f(s[i]) == g(t[i])
    ensures SumBy(s, f) == SumBy(t, g)
    decreases |s|
  {
    if |s| > 0 {
      var n := |s| - 1;
      assert forall i | 0 <= i < n :: s[..n][i] == s[i] && t[..n][i] == t[i];
      SumByPointwise(s[..n], f, t[..n], g);
    }
  }

  /** Scaling every term by the same factor scales the sum. */
  lemma {:induction false} SumByScaled<T>(s: seq<T>, f: T -> real, g: T -> real, k: real)
    requires forall x | x in s :: g(x) == k * f(x)
    ensures SumBy(s, g) == k * SumBy(s, f)
    decreases |s|
  {
    if |s| > 0 {
      SumByScaled(s[..|s| - 1], f, g, k);
    }
  }

  /** Sums of non-negative terms are non-negative and grow with the terms. */
  lemma {:induction false} SumByMonotone<T>(s: seq<T>, f: T -> real, g: T -> real)
    requires forall x | x in s :: 0.0 <= f(x) <= g(x)
    ensures 0.0 <= SumBy(s, f) <= SumBy(s, g)
    decreases |s|
  {
    if |s| > 0 {
      SumByMonotone(s[..|s| - 1], f, g);
    }
  }

  /** Elements with `p`, elements with `q` and elements with neither add up
      to the whole list when no element has both. */
  lemma {:induction false} CountByPartition<T>(s: seq<T>, p: T -> bool, q: T -> bool, r: T -> bool)
    requires forall x | x in s :: (p(x) && !q(x) && !r(x)) || (!p(x) && q(x) && !r(x)) || (!p(x) && !q(x) && r(x))
    ensures CountBy(s, p) + CountBy(s, q) + CountBy(s, r) == |s|
    decreases |s|
  {
    if |s| > 0 {
      CountByPartition(s[..|s| - 1], p, q, r);
    }
  }
}
