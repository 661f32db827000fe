/** Sums over sequences, and Go's integer division. */
module Sums {
  function SumBy<T>(s: seq<T>, f: T -> int): int {
    if s == [] then 0 else SumBy(s[..|s| - 1], f) + f(s[|s| - 1])
  }

  lemma SumAppend<T>(s: seq<T>, x: T, f: T -> int)
    ensures SumBy(s + [x], f) == SumBy(s, f) + f(x)
  {
    assert (s + [x])[..|s|] == s;
  }

  lemma {:induction false} SumUpdate<T>(s: seq<T>, i: nat, x: T, f: T -> int)
    requires i < |s|
    ensures SumBy(s[i := x], f) == SumBy(s, f) - f(s[i]) + f(x)
  {
    var n := |s| - 1;
    if i == n {
      assert s[i := x][..n] == s[..n];
    } else {
      SumUpdate(s[..n], i, x, f);
      assert s[i := x][..n] == s[..n][i := x];
    }
  }

  lemma {:induction false} SumPointwise<S, T>(s: seq<S>, t: seq<T>, f: S -> int, g: T -> int)
    requires |s| == |t|
    requires forall i :: 0 <= i < |s| ==> f(s[i]) == g(t[i])
    ensures SumBy(s, f) == SumBy(t, g)
  {
    if s != [] {
      SumPointwise(s[..|s| - 1], t[..|t| - 1], f, g);
    }
  }

  lemma {:induction false} SumMonotone<S, T>(s: seq<S>, t: seq<T>, f: S -> int, g: T -> int)
    requires |s| == |t|
    requires forall i :: 0 <= i < |s| ==> f(s[i]) <= g(t[i])
    ensures SumBy(s, f) <= SumBy(t, g)
  {
    if s != [] {
      SumMonotone(s[..|s| - 1], t[..|t| - 1], f, g);
    }
  }

  /** A sum of non-negative terms is at least each of them. */
  lemma {:induction false} SumAtLeastTerm<T>(s: seq<T>, i: nat, f: T -> int)
    requires i < |s|
    requires forall j :: 0 <= j < |s| ==> 0 <= f(s[j])
    ensures f(s[i]) <= SumBy(s, f)
  {
    var n := |s| - 1;
    SumNonNegative(s[..n], f);
    if i < n {
      SumAtLeastTerm(s[..n], i, f);
    }
  }

  lemma {:induction false} SumNonNegative<T>(s: seq<T>, f: T -> int)
    requires forall j :: 0 <= j < |s| ==> 0 <= f(s[j])
    ensures 0 <= SumBy(s, f)
  {
    if s != [] {
      SumNonNegative(s[..|s| - 1], f);
    }
  }

  lemma {:induction false} SumZero<T>(s: seq<T>, f: T -> int)
    requires forall j :: 0 <= j < |s| ==> f(s[j]) == 0
    ensures SumBy(s, f) == 0
  {
    if s != [] {
      SumZero(s[..|s| - 1], f);
    }
  }

  /** Go's `/` on integers: truncation toward zero. */
  function Quo(a: int, b: int): int
    requires 0 < b
  {
    if 0 <= a then a / b else -((-a) / b)
  }

  lemma Scale(a: int, b: int, n: nat)
    ensures a <= b ==> a * n <= b * n
    ensures a < b && 0 < n ==> a * n < b * n
  {
  }

  lemma DivMod(a: int, b: int)
    requires 0 < b
    ensures a == (a / b) * b + a % b
  {
  }

  lemma NegTimes(q: int, b: int)
    ensures (-q) * b == -(q * b)
  {
  }

  /** The remainder has the dividend's sign and is smaller than the divisor. */
  ghost predicate Truncates(a: int, b: int, q: int) {
    && (0 <= a ==> 0 <= q && 0 <= a - q * b < b)
    && (a < 0 ==> -b < a - q * b <= 0)
  }

  lemma QuoRemainder(a: int, b: int)
    requires 0 < b
    ensures Truncates(a, b, Quo(a, b))
  {
    if 0 <= a {
      Quotient(a, b);
    } else {
      Quotient(-a, b);
      NegTimes((-a) / b, b);
    }
  }

  lemma Quotient(a: nat, b: int)
    requires 0 < b
    ensures 0 <= a / b && 0 <= a - (a / b) * b < b
  {
    DivMod(a, b);
  }

  lemma NextMultiple(q: int, b: int)
    ensures (q + 1) * b == q * b + b
  {
  }

  /** `Quo` stays in every integer interval that holds the exact quotient. */
  lemma QuoBetween(a: int, b: int, lo: int, hi: int)
    requires 0 < b
    requires lo * b <= a <= hi * b
    ensures lo <= Quo(a, b) <= hi
  {
    QuoRemainder(a, b);
    TruncatesBetween(a, b, Quo(a, b), lo, hi);
  }

  lemma TruncatesBetween(a: int, b: int, q: int, lo: int, hi: int)
    requires 0 < b && Truncates(a, b, q)
    requires lo * b <= a <= hi * b
    ensures lo <= q <= hi
  {
    NextMultiple(q, b);
    NextMultiple(hi, b);
    Scale(q + 1, lo, b);
    Scale(hi + 1, q, b);
  }

  lemma QuoMonotone(a: int, a': int, b: int)
    requires 0 < b && a <= a'
    ensures Quo(a, b) <= Quo(a', b)
  {
    QuoRemainder(a, b);
    QuoRemainder(a', b);
    TruncatesMonotone(a, a', b, Quo(a, b), Quo(a', b));
  }

  lemma TruncatesMonotone(a: int, a': int, b: int, q: int, q': int)
    requires 0 < b && a <= a' && Truncates(a, b, q) && Truncates(a', b, q')
    ensures q <= q'
  {
    NextMultiple(q', b);
    Scale(q' + 1, q, b);
    if a < 0 <= a' {
      Scale(1, q, b);
    }
  }

  /** Euclidean division is determined by its remainder's range. */
  lemma ModOf(q: int, n: nat, r: int)
    requires 0 <= r < n
    ensures (q * n + r) / n == q && (q * n + r) % n == r
  {
    var v := q * n + r;
    assert v == n * (v / n) + v % n;
    Scale(v / n + 1, q, n);
    Scale(q + 1, v / n, n);
  }
}
