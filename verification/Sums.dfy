/** Exact arithmetic shared by every component: Decimal is modelled by `real`, without rounding. */
module Sums {

  function MinR(a: real, b: real): real { if a <= b then a else b }

  function MaxR(a: real, b: real): real { if a >= b then a else b }

  function AbsR(a: real): real { if a >= 0.0 then a else -a }

  // Products are wrapped where a proof has to keep them apart from the linear arithmetic around them.
  function Times(x: real, y: real): real { x * y }

  function Square(x: real): real { Times(x, x) }

  lemma PositiveProduct(a: real, b: real)
    requires a > 0.0 && b > 0.0
    ensures Times(a, b) > 0.0
  {
  }

  lemma SquarePositive(x: real)
    requires x != 0.0
    ensures Square(x) > 0.0
  {
    PositiveProduct(AbsR(x), AbsR(x));
    assert Times(AbsR(x), AbsR(x)) == Times(x, x);
  }

  lemma CancelFactor(a: real, b: real, c: real)
    requires Times(a, c) <= Times(b, c) && c > 0.0
    ensures a <= b
  {
    if a > b { PositiveProduct(a - b, c); }
  }

  lemma QuotientFalls(x: real, small: real, large: real)
    requires x >= 0.0 && 0.0 < small <= large
    ensures x / large <= x / small
  {
    var a, b := x / small, x / large;
    assert a * small == x && b * large == x;
    assert a >= 0.0 && b >= 0.0;
    assert b * small <= b * large;
    CancelFactor(b, a, small);
  }

  /** The sum of f over xs, in order. */
  function SumBy<T>(xs: seq<T>, f: T -> real): real
  {
    if xs == [] then 0.0 else SumBy(xs[..|xs| - 1], f) + f(xs[|xs| - 1])
  }

  lemma SumPush<T>(xs: seq<T>, x: T, f: T -> real)
    ensures SumBy(xs + [x], f) == SumBy(xs, f) + f(x)
  {
    assert (xs + [x])[..|xs|] == xs;
  }

  lemma {:induction false} SumAppend<T>(xs: seq<T>, ys: seq<T>, f: T -> real)
    ensures SumBy(xs + ys, f) == SumBy(xs, f) + SumBy(ys, f)
  {
    if ys == [] {
      assert xs + ys == xs;
    } else {
      var n := |ys| - 1;
      SumAppend(xs, ys[..n], f);
      assert xs + ys == (xs + ys[..n]) + [ys[n]];
      SumPush(xs + ys[..n], ys[n], f);
    }
  }

  /** Peels the first element instead of the last. */
  lemma SumHead<T>(xs: seq<T>, f: T -> real)
    requires xs != []
    ensures SumBy(xs, f) == f(xs[0]) + SumBy(xs[1..], f)
  {
    SumAppend([xs[0]], xs[1..], f);
    assert xs == [xs[0]] + xs[1..];
    assert [xs[0]] == [] + [xs[0]];
    SumPush([], xs[0], f);
  }

  lemma {:induction false} SumNonNegative<T>(xs: seq<T>, f: T -> real)
    requires forall i :: 0 <= i < |xs| ==> f(xs[i]) >= 0.0
    ensures SumBy(xs, f) >= 0.0
  {
    if xs != [] { SumNonNegative(xs[..|xs| - 1], f); }
  }

  /** A sum of non-negative terms dominates each term. */
  lemma {:induction false} SumDominatesTerm<T>(xs: seq<T>, f: T -> real, k: nat)
    requires forall i :: 0 <= i < |xs| ==> f(xs[i]) >= 0.0
    requires k < |xs|
    ensures SumBy(xs, f) >= f(xs[k])
  {
    var n := |xs| - 1;
    if k == n {
      SumNonNegative(xs[..n], f);
    } else {
      SumDominatesTerm(xs[..n], f, k);
    }
  }

  lemma {:induction false} SumMonotone<T>(xs: seq<T>, f: T -> real, g: T -> real)
    requires forall i :: 0 <= i < |xs| ==> f(xs[i]) <= g(xs[i])
    ensures SumBy(xs, f) <= SumBy(xs, g)
  {
    if xs != [] { SumMonotone(xs[..|xs| - 1], f, g); }
  }

  lemma {:induction false} SumSame<T>(xs: seq<T>, f: T -> real, g: T -> real)
    requires forall i :: 0 <= i < |xs| ==> f(xs[i]) == g(xs[i])
    ensures SumBy(xs, f) == SumBy(xs, g)
  {
    if xs != [] { SumSame(xs[..|xs| - 1], f, g); }
  }

  /** Linearity: if h = a*f + b*g pointwise then the sums obey the same identity. */
  lemma {:induction false} SumLinear<T>(xs: seq<T>, h: T -> real, a: real, f: T -> real, b: real, g: T -> real)
    requires forall i :: 0 <= i < |xs| ==> h(xs[i]) == a * f(xs[i]) + b * g(xs[i])
    ensures SumBy(xs, h) == a * SumBy(xs, f) + b * SumBy(xs, g)
  {
    if xs != [] {
      var n := |xs| - 1;
      SumLinear(xs[..n], h, a, f, b, g);
      assert h(xs[n]) == a * f(xs[n]) + b * g(xs[n]);
    }
  }

  lemma {:induction false} SumNegate<T>(xs: seq<T>, h: T -> real, f: T -> real)
    requires forall i :: 0 <= i < |xs| ==> h(xs[i]) == -f(xs[i])
    ensures SumBy(xs, h) == -SumBy(xs, f)
  {
    if xs != [] { SumNegate(xs[..|xs| - 1], h, f); }
  }

  /** The order of the terms is irrelevant. */
  lemma {:induction false} SumPermutation<T>(xs: seq<T>, ys: seq<T>, f: T -> real)
    requires multiset(xs) == multiset(ys)
    ensures SumBy(xs, f) == SumBy(ys, f)
  {
    if xs == [] {
      assert |ys| == |multiset(ys)| == 0;
    } else {
      var n := |xs| - 1;
      var x := xs[n];
      assert xs == xs[..n] + [x];
      assert x in multiset(ys);
      var k :| 0 <= k < |ys| && ys[k] == x;
      var rest := ys[..k] + ys[k + 1..];
      assert ys == ys[..k] + [x] + ys[k + 1..];
      assert multiset(rest) == multiset(ys) - multiset{x};
      assert multiset(xs[..n]) == multiset(xs) - multiset{x};
      SumPermutation(xs[..n], rest, f);
      SumAppend(ys[..k], ys[k + 1..], f);
      SumAppend(ys[..k] + [x], ys[k + 1..], f);
      SumPush(ys[..k], x, f);
    }
  }
}
