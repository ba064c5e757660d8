/** The `sorted` calls of the program: insertion sort under the caller's order. */
module Sorting {

  /** `le` orders the elements of dom totally; equal rank means equal element. */
  ghost predicate TotalOn<T(!new)>(le: (T, T) -> bool, dom: set<T>)
  {
    && (forall a, b :: a in dom && b in dom ==> le(a, b) || le(b, a))
    && (forall a, b :: a in dom && b in dom && le(a, b) && le(b, a) ==> a == b)
    && (forall a, b, c :: a in dom && b in dom && c in dom && le(a, b) && le(b, c) ==> le(a, c))
  }

  ghost predicate SortedBy<T>(le: (T, T) -> bool, xs: seq<T>)
  {
    forall i, j :: 0 <= i < j < |xs| ==> le(xs[i], xs[j])
  }

  ghost predicate Within<T>(xs: seq<T>, dom: set<T>)
  {
    forall i :: 0 <= i < |xs| ==> xs[i] in dom
  }

  function Insert<T>(le: (T, T) -> bool, xs: seq<T>, x: T): (r: seq<T>)
    ensures multiset(r) == multiset(xs) + multiset{x}
    ensures |r| == |xs| + 1
  {
    if xs == [] then [x]
    else if le(xs[|xs| - 1], x) then xs + [x]
    else
      var n := |xs| - 1;
      assert xs == xs[..n] + [xs[n]];
      Insert(le, xs[..n], x) + [xs[n]]
  }

  function Sort<T>(le: (T, T) -> bool, xs: seq<T>): (r: seq<T>)
    ensures multiset(r) == multiset(xs)
    ensures |r| == |xs|
  {
    if xs == [] then []
    else
      var n := |xs| - 1;
      assert xs == xs[..n] + [xs[n]];
      Insert(le, Sort(le, xs[..n]), xs[n])
  }

  lemma SameElements<T>(xs: seq<T>, ys: seq<T>)
    requires multiset(xs) == multiset(ys)
    ensures forall x :: x in xs <==> x in ys
  {
    forall x ensures x in xs <==> x in ys {
      assert x in multiset(xs) <==> x in multiset(ys);
    }
  }

  /** In a sorted arrangement the last element is above every element. */
  lemma LastIsGreatest<T(!new)>(le: (T, T) -> bool, dom: set<T>, xs: seq<T>, x: T)
    requires TotalOn(le, dom) && Within(xs, dom) && SortedBy(le, xs)
    requires x in xs
    ensures le(x, xs[|xs| - 1])
  {
    var i :| 0 <= i < |xs| && xs[i] == x;
    assert i == |xs| - 1 || le(xs[i], xs[|xs| - 1]);
  }

  lemma InsertKeeps<T>(le: (T, T) -> bool, xs: seq<T>, x: T, y: T)
    requires y in Insert(le, xs, x)
    ensures y in xs || y == x
  {
    assert y in multiset(Insert(le, xs, x));
    assert y in multiset(xs) || y == x;
  }

  lemma SortedPush<T>(le: (T, T) -> bool, xs: seq<T>, x: T)
    requires SortedBy(le, xs) && forall y :: y in xs ==> le(y, x)
    ensures SortedBy(le, xs + [x])
  {
  }

  lemma {:induction false} InsertSorts<T(!new)>(le: (T, T) -> bool, dom: set<T>, xs: seq<T>, x: T)
    requires TotalOn(le, dom) && Within(xs, dom) && x in dom
    requires SortedBy(le, xs)
    ensures SortedBy(le, Insert(le, xs, x))
  {
    if xs != [] {
      var n := |xs| - 1;
      if le(xs[n], x) {
        forall y | y in xs ensures le(y, x) { LastIsGreatest(le, dom, xs, y); }
        SortedPush(le, xs, x);
      } else {
        InsertSorts(le, dom, xs[..n], x);
        forall y | y in Insert(le, xs[..n], x) ensures le(y, xs[n]) {
          InsertKeeps(le, xs[..n], x, y);
          if y in xs[..n] { LastIsGreatest(le, dom, xs, y); }
        }
        SortedPush(le, Insert(le, xs[..n], x), xs[n]);
      }
    }
  }

  lemma SortKeeps<T>(le: (T, T) -> bool, xs: seq<T>, y: T)
    requires y in Sort(le, xs)
    ensures y in xs
  {
    assert y in multiset(Sort(le, xs));
  }

  lemma {:induction false} SortSorts<T(!new)>(le: (T, T) -> bool, dom: set<T>, xs: seq<T>)
    requires TotalOn(le, dom) && Within(xs, dom)
    ensures Within(Sort(le, xs), dom) && SortedBy(le, Sort(le, xs))
  {
    if xs != [] {
      var n := |xs| - 1;
      SortSorts(le, dom, xs[..n]);
      InsertSorts(le, dom, Sort(le, xs[..n]), xs[n]);
    }
    forall i | 0 <= i < |xs| ensures Sort(le, xs)[i] in dom {
      SortKeeps(le, xs, Sort(le, xs)[i]);
    }
  }

  lemma DropLast<T>(xs: seq<T>)
    requires xs != []
    ensures multiset(xs[..|xs| - 1]) == multiset(xs) - multiset{xs[|xs| - 1]}
  {
    assert xs == xs[..|xs| - 1] + [xs[|xs| - 1]];
  }

  /** Two sorted arrangements of the same elements are the same sequence. */
  lemma {:induction false} SortedUnique<T(!new)>(le: (T, T) -> bool, dom: set<T>, xs: seq<T>, ys: seq<T>)
    requires TotalOn(le, dom) && Within(xs, dom) && Within(ys, dom)
    requires multiset(xs) == multiset(ys)
    requires SortedBy(le, xs) && SortedBy(le, ys)
    ensures xs == ys
  {
    assert |xs| == |multiset(xs)| == |multiset(ys)| == |ys|;
    if xs != [] {
      var n := |xs| - 1;
      SameElements(xs, ys);
      assert xs[n] in ys && ys[n] in xs;
      LastIsGreatest(le, dom, xs, ys[n]);
      LastIsGreatest(le, dom, ys, xs[n]);
      assert xs[n] == ys[n];
      DropLast(xs);
      DropLast(ys);
      SortedUnique(le, dom, xs[..n], ys[..n]);
      assert xs == xs[..n] + [xs[n]] && ys == ys[..n] + [ys[n]];
    }
  }

  /** Sorting forgets the order in which the elements were supplied. */
  lemma SortIgnoresOrder<T(!new)>(le: (T, T) -> bool, xs: seq<T>, ys: seq<T>)
    requires multiset(xs) == multiset(ys)
    requires TotalOn(le, set x | x in xs)
    ensures Sort(le, xs) == Sort(le, ys)
  {
    var dom := set x | x in xs;
    SameElements(xs, ys);
    SortSorts(le, dom, xs);
    SortSorts(le, dom, ys);
    SortedUnique(le, dom, Sort(le, xs), Sort(le, ys));
  }

  /** The elements of a set in some order. */
  ghost function Arrangement<T>(s: set<T>): (r: seq<T>)
    ensures multiset(r) == multiset(s)
  {
    if s == {} then [] else
      var x :| x in s;
      assert s == (s - {x}) + {x};
      Arrangement(s - {x}) + [x]
  }

  // ----- Keys that occur once

  ghost predicate DistinctBy<T>(key: T -> int, xs: seq<T>)
  {
    forall i, j :: 0 <= i < j < |xs| ==> key(xs[i]) != key(xs[j])
  }

  lemma OccursOnce<T>(key: T -> int, xs: seq<T>, a: nat)
    requires a < |xs| && DistinctBy(key, xs)
    ensures multiset(xs)[xs[a]] == 1
  {
    assert xs == xs[..a] + [xs[a]] + xs[a + 1..];
    assert xs[a] !in xs[..a] && xs[a] !in xs[a + 1..];
    assert multiset(xs[..a])[xs[a]] == 0 && multiset(xs[a + 1..])[xs[a]] == 0;
  }

  lemma OccursTwice<T>(xs: seq<T>, i: nat, j: nat)
    requires i < j < |xs| && xs[i] == xs[j]
    ensures multiset(xs)[xs[i]] >= 2
  {
    assert xs == xs[..i] + [xs[i]] + xs[i + 1..j] + [xs[j]] + xs[j + 1..];
  }

  /** Keys that are distinct stay distinct in every arrangement. */
  lemma DistinctIgnoresOrder<T>(key: T -> int, xs: seq<T>, ys: seq<T>)
    requires multiset(xs) == multiset(ys) && DistinctBy(key, xs)
    ensures DistinctBy(key, ys)
  {
    SameElements(xs, ys);
    forall i, j | 0 <= i < j < |ys| ensures key(ys[i]) != key(ys[j]) {
      assert ys[i] in xs && ys[j] in xs;
      var a :| 0 <= a < |xs| && xs[a] == ys[i];
      var b :| 0 <= b < |xs| && xs[b] == ys[j];
      OccursOnce(key, xs, a);
      if ys[i] == ys[j] { OccursTwice(ys, i, j); }
    }
  }

  ghost predicate AscendsBy<T>(key: T -> int, xs: seq<T>)
  {
    forall i, j :: 0 <= i < j < |xs| ==> key(xs[i]) < key(xs[j])
  }

  /** Distinct keys become strictly ascending when sorted. */
  lemma SortedKeysAscend(keys: seq<int>)
    requires forall i, j :: 0 <= i < j < |keys| ==> keys[i] != keys[j]
    ensures forall i, j :: 0 <= i < j < |keys| ==> Sort(Ascending(), keys)[i] < Sort(Ascending(), keys)[j]
  {
    var sorted, same, dom := Sort(Ascending(), keys), (x: int) => x, set x | x in keys;
    SortSorts(Ascending(), dom, keys);
    DistinctIgnoresOrder(same, keys, sorted);
    forall i, j | 0 <= i < j < |sorted| ensures sorted[i] < sorted[j] {
      assert Ascending()(sorted[i], sorted[j]) && same(sorted[i]) != same(sorted[j]);
    }
  }

  function Ascending(): (int, int) -> bool { (a: int, b: int) => a <= b }

  lemma Occurs<T>(q: seq<T>)
    ensures q != [] ==> q[0] in q && q[|q| - 1] in q
  {
  }

  /** A strictly ascending sequence is determined by its elements. */
  lemma {:induction false} AscendingDetermines<T>(key: T -> int, p: seq<T>, q: seq<T>)
    requires AscendsBy(key, p) && AscendsBy(key, q) && forall x :: x in p <==> x in q
    ensures p == q
  {
    if p == [] {
      if q != [] { Occurs(q); }
    } else {
      Occurs(q);
      var m, n := |p| - 1, |q| - 1;
      assert p[m] in q && q[n] in p;
      assert p == p[..m] + [p[m]] && q == q[..n] + [q[n]];
      assert key(p[m]) == key(q[n]);
      forall x ensures x in p[..m] <==> x in q[..n] {
        assert x in p[..m] <==> x in p && key(x) < key(p[m]);
        assert x in q[..n] <==> x in q && key(x) < key(q[n]);
      }
      AscendingDetermines(key, p[..m], q[..n]);
    }
  }
}
