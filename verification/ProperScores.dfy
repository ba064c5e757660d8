/**
 Proper scores of categorical forecasts (src/investment_manager/forecast/scoring.py). Each score turns out to be a
 squared distance between what was reported and what happened, so one bias-variance law makes both strictly proper.
 */
module ProperScores {
  import opened Results
  import opened Sums

  datatype Entry = Entry(bucket: int, probability: real)

  datatype ScoreError = UnknownBucket | TooFewBuckets

  function Ids(ps: seq<Entry>): seq<int> { seq(|ps|, i requires 0 <= i < |ps| => ps[i].bucket) }

  function Probabilities(ps: seq<Entry>): seq<real> { seq(|ps|, i requires 0 <= i < |ps| => ps[i].probability) }

  function Gap(realized: int): Entry -> real
  {
    (e: Entry) => Square(e.probability - if e.bucket == realized then 1.0 else 0.0)
  }

  function BrierScore(ps: seq<Entry>, realized: int): Result<real, ScoreError>
  {
    if realized !in Ids(ps) then Err(UnknownBucket) else Ok(SumBy(ps, Gap(realized)))
  }

  function IndexOf(ids: seq<int>, id: int): (i: nat)
    requires id in ids
    ensures i < |ids| && ids[i] == id && id !in ids[..i]
  {
    if ids[0] == id then 0 else
      assert ids == [ids[0]] + ids[1..];
      1 + IndexOf(ids[1..], id)
  }

  // ----- Vectors

  function Dot(p: seq<real>, x: seq<real>): real
    requires |p| == |x|
  {
    if p == [] then 0.0 else var n := |p| - 1; Dot(p[..n], x[..n]) + Times(p[n], x[n])
  }

  function Mass(p: seq<real>): real { if p == [] then 0.0 else Mass(p[..|p| - 1]) + p[|p| - 1] }

  function Distance(a: seq<real>, b: seq<real>): real
    requires |a| == |b|
  {
    if a == [] then 0.0 else var n := |a| - 1; Distance(a[..n], b[..n]) + Square(a[n] - b[n])
  }

  /** The cumulated probabilities up to and including each of the first m buckets. */
  function Cumulated(p: seq<real>, m: nat): seq<real>
    requires m <= |p|
  {
    seq(m, k requires 0 <= k < m => Mass(p[..k + 1]))
  }

  function Indicator(n: nat, r: int): seq<real> { seq(n, k => if k == r then 1.0 else 0.0) }

  function Reached(n: nat, r: int): seq<real> { seq(n, k => if r <= k then 1.0 else 0.0) }

  lemma {:induction false} DistanceVanishes(a: seq<real>, b: seq<real>)
    requires |a| == |b|
    ensures Distance(a, b) >= 0.0
    ensures Distance(a, b) == 0.0 <==> a == b
  {
    if a != [] {
      var n := |a| - 1;
      DistanceVanishes(a[..n], b[..n]);
      assert a == a[..n] + [a[n]] && b == b[..n] + [b[n]];
      assert Square(0.0) == 0.0;
      if a[n] != b[n] { SquarePositive(a[n] - b[n]); }
    }
  }

  // ----- The expected squared distance is least at the mean

  type Table = seq<seq<real>>

  ghost predicate Wide(es: Table, m: nat) { forall r :: 0 <= r < |es| ==> |es[r]| == m }

  ghost function Column(es: Table, m: nat, k: nat): seq<real>
    requires Wide(es, m) && k < m
  {
    seq(|es|, r requires 0 <= r < |es| => es[r][k])
  }

  ghost function Distances(es: Table, a: seq<real>): seq<real>
    requires Wide(es, |a|)
  {
    seq(|es|, r requires 0 <= r < |es| => Distance(a, es[r]))
  }

  ghost function Narrow(es: Table, m: nat): Table
    requires Wide(es, m + 1)
  {
    seq(|es|, r requires 0 <= r < |es| => es[r][..m])
  }

  ghost predicate IsMean(p: seq<real>, es: Table, b: seq<real>)
  {
    Wide(es, |b|) && |p| == |es| && forall k :: 0 <= k < |b| ==> Dot(p, Column(es, |b|, k)) == b[k]
  }

  lemma {:induction false} DotAdds(p: seq<real>, x: seq<real>, y: seq<real>, z: seq<real>)
    requires |p| == |x| == |y| == |z| && forall r :: 0 <= r < |p| ==> z[r] == x[r] + y[r]
    ensures Dot(p, z) == Dot(p, x) + Dot(p, y)
  {
    if p != [] {
      var n := |p| - 1;
      DotAdds(p[..n], x[..n], y[..n], z[..n]);
      assert Times(p[n], z[n]) == Times(p[n], x[n]) + Times(p[n], y[n]);
    }
  }

  ghost function Gaps(a: real, x: seq<real>): seq<real> { seq(|x|, r requires 0 <= r < |x| => Square(a - x[r])) }

  lemma SquareOfDifference(p: real, a: real, e: real)
    ensures Times(p, Square(a - e)) == Times(Square(a), p) - Times(2.0 * a, Times(p, e)) + Times(p, Square(e))
  {
  }

  lemma Spread(c: real, x: real, y: real)
    ensures Times(c, x + y) == Times(c, x) + Times(c, y) && Times(x + y, c) == Times(x, c) + Times(y, c)
    ensures Times(x - y, c) == Times(x, c) - Times(y, c)
  {
  }

  lemma TermGap(p: real, a: real, b: real, e: real, m: real, s: real)
    ensures Times(p, Square(a - e)) - Times(p, Square(b - e))
         == (Times(Square(a) - Square(b), m + p) - Times(2.0 * (a - b), s + Times(p, e)))
            - (Times(Square(a) - Square(b), m) - Times(2.0 * (a - b), s))
  {
    var c, d, t := Square(a) - Square(b), 2.0 * (a - b), Times(p, e);
    SquareOfDifference(p, a, e);
    SquareOfDifference(p, b, e);
    Spread(c, m, p);
    Spread(d, s, t);
    Spread(p, Square(a), Square(b));
    Spread(t, 2.0 * a, 2.0 * b);
    hide Times, Square;
    assert d == 2.0 * a - 2.0 * b;
  }

  lemma {:induction false} CoordinateGap(p: seq<real>, a: real, b: real, x: seq<real>)
    requires |p| == |x|
    ensures Dot(p, Gaps(a, x)) - Dot(p, Gaps(b, x)) == Times(Square(a) - Square(b), Mass(p)) - Times(2.0 * (a - b), Dot(p, x))
  {
    if p != [] {
      hide Times, Square;
      var n := |p| - 1;
      CoordinateGap(p[..n], a, b, x[..n]);
      assert Gaps(a, x)[..n] == Gaps(a, x[..n]) && Gaps(b, x)[..n] == Gaps(b, x[..n]);
      TermGap(p[n], a, b, x[n], Mass(p[..n]), Dot(p[..n], x[..n]));
    }
  }

  lemma SquareOfGap(a: real, b: real)
    ensures Times(Square(a) - Square(b), 1.0) - Times(2.0 * (a - b), b) == Square(a - b)
  {
  }

  /** The bias-variance law: away from the mean the expected squared distance grows by the squared distance to the mean. */
  lemma {:induction false} BiasVariance(p: seq<real>, es: Table, a: seq<real>, b: seq<real>)
    requires |a| == |b| && IsMean(p, es, b) && Mass(p) == 1.0
    decreases |a|
    ensures Dot(p, Distances(es, a)) - Dot(p, Distances(es, b)) == Distance(a, b)
  {
    hide Times, Square, Dot, Mass;
    var m := |a| - 1;
    if a == [] {
      assert Distances(es, a) == Distances(es, b);
    } else {
      var narrow, x := Narrow(es, m), Column(es, m + 1, m);
      forall k | 0 <= k < m ensures Dot(p, Column(narrow, m, k)) == b[..m][k] {
        assert Column(narrow, m, k) == Column(es, m + 1, k);
      }
      BiasVariance(p, narrow, a[..m], b[..m]);
      DotAdds(p, Distances(narrow, a[..m]), Gaps(a[m], x), Distances(es, a));
      DotAdds(p, Distances(narrow, b[..m]), Gaps(b[m], x), Distances(es, b));
      CoordinateGap(p, a[m], b[m], x);
      SquareOfGap(a[m], b[m]);
    }
  }

  // ----- Both scores are such distances

  function Report(ids: seq<int>, q: seq<real>): seq<Entry>
    requires |ids| == |q|
  {
    seq(|ids|, i requires 0 <= i < |ids| => Entry(ids[i], q[i]))
  }

  ghost predicate Unique(ids: seq<int>) { forall i, j :: 0 <= i < j < |ids| ==> ids[i] != ids[j] }

  lemma {:induction false} GapsAreDistance(ids: seq<int>, q: seq<real>, m: nat, r: nat)
    requires |ids| == |q| && Unique(ids) && r < |ids| && m <= |ids|
    ensures SumBy(Report(ids, q)[..m], Gap(ids[r])) == Distance(q[..m], Indicator(m, r))
  {
    if m > 0 {
      GapsAreDistance(ids, q, m - 1, r);
      assert Report(ids, q)[..m] == Report(ids, q)[..m - 1] + [Entry(ids[m - 1], q[m - 1])];
      SumPush(Report(ids, q)[..m - 1], Entry(ids[m - 1], q[m - 1]), Gap(ids[r]));
      assert q[..m][..m - 1] == q[..m - 1] && Indicator(m, r)[..m - 1] == Indicator(m - 1, r);
    }
  }

  lemma {:induction false} BrierIsDistance(ids: seq<int>, q: seq<real>, r: nat)
    requires |ids| == |q| && Unique(ids) && r < |ids|
    ensures BrierScore(Report(ids, q), ids[r]) == Ok(Distance(q, Indicator(|q|, r)))
  {
    GapsAreDistance(ids, q, |ids|, r);
    assert q[..|q|] == q && Report(ids, q)[..|ids|] == Report(ids, q);
    assert Ids(Report(ids, q)) == ids && ids[r] in ids;
  }

  function RankedScoreOf(q: seq<real>, r: nat): real
    requires |q| >= 2 && r < |q|
  {
    Distance(Cumulated(q, |q| - 1), Reached(|q| - 1, r)) / (|q| - 1) as real
  }

  /** The ordered score, accumulated in one pass over all buckets but the last. */
  method RankedProbabilityScore(ps: seq<Entry>, realized: int) returns (score: Result<real, ScoreError>)
    ensures score ==
            if realized !in Ids(ps) then Err(UnknownBucket)
            else if |ps| < 2 then Err(TooFewBuckets)
            else Ok(RankedScoreOf(Probabilities(ps), IndexOf(Ids(ps), realized)))
  {
    hide Square, IndexOf;
    if realized !in Ids(ps) {
      return Err(UnknownBucket);
    }
    if |ps| < 2 {
      return Err(TooFewBuckets);
    }
    var realizedIndex := IndexOf(Ids(ps), realized);
    var cumulative, sum := 0.0, 0.0;
    ghost var q := Probabilities(ps);
    for index := 0 to |ps| - 1
      invariant cumulative == Mass(q[..index])
      invariant sum == Distance(Cumulated(q, index), Reached(index, realizedIndex))
    {
      cumulative := cumulative + ps[index].probability;
      var observed := if realizedIndex <= index then 1.0 else 0.0;
      sum := sum + Square(cumulative - observed);
      assert q[..index + 1][..index] == q[..index];
      assert Cumulated(q, index + 1)[..index] == Cumulated(q, index);
      assert Reached(index + 1, realizedIndex)[..index] == Reached(index, realizedIndex);
    }
    score := Ok(sum / (|ps| - 1) as real);
  }

  // ----- Strict propriety

  ghost function Indicators(n: nat): Table { seq(n, r => Indicator(n, r)) }

  ghost function Reaches(n: nat): Table
    requires n > 0
  {
    seq(n, r => Reached(n - 1, r))
  }

  lemma {:induction false} MeanOfIndicator(p: seq<real>, x: seq<real>, k: nat)
    requires |x| == |p| && forall r :: 0 <= r < |p| ==> x[r] == if r == k then 1.0 else 0.0
    ensures Dot(p, x) == if k < |p| then p[k] else 0.0
  {
    if p != [] { MeanOfIndicator(p[..|p| - 1], x[..|p| - 1], k); }
  }

  lemma {:induction false} MeanOfReached(p: seq<real>, x: seq<real>, k: nat)
    requires |x| == |p| && forall r :: 0 <= r < |p| ==> x[r] == if r <= k then 1.0 else 0.0
    ensures Dot(p, x) == Mass(p[..if k < |p| then k + 1 else |p|])
  {
    if p != [] {
      var n := |p| - 1;
      MeanOfReached(p[..n], x[..n], k);
      assert p[..|p|] == p;
      if k < n { assert p[..n][..k + 1] == p[..k + 1]; } else { assert p[..n][..n] == p[..n]; }
    }
  }

  lemma IndicatorsAverage(p: seq<real>)
    ensures IsMean(p, Indicators(|p|), p)
  {
    forall k | 0 <= k < |p| ensures Dot(p, Column(Indicators(|p|), |p|, k)) == p[k] {
      MeanOfIndicator(p, Column(Indicators(|p|), |p|, k), k);
    }
  }

  lemma ReachesAverage(p: seq<real>)
    requires p != []
    ensures IsMean(p, Reaches(|p|), Cumulated(p, |p| - 1))
  {
    var n := |p| - 1;
    forall k | 0 <= k < n ensures Dot(p, Column(Reaches(|p|), n, k)) == Cumulated(p, n)[k] {
      MeanOfReached(p, Column(Reaches(|p|), n, k), k);
    }
  }

  /** The Brier score of a report, outcome by outcome. */
  ghost function BrierScores(ids: seq<int>, q: seq<real>): seq<real>
    requires |ids| == |q|
  {
    seq(|ids|, r requires 0 <= r < |ids| => match BrierScore(Report(ids, q), ids[r]) case Ok(s) => s case Err(_) => 0.0)
  }

  ghost function RankedScores(q: seq<real>): seq<real>
    requires |q| >= 2
  {
    seq(|q|, r requires 0 <= r < |q| => RankedScoreOf(q, r))
  }

  /** Reporting q when p is true costs exactly the squared distance, so honesty alone is optimal. */
  lemma {:induction false} BrierIsStrictlyProper(ids: seq<int>, p: seq<real>, q: seq<real>)
    requires |ids| == |p| == |q| && Unique(ids) && Mass(p) == 1.0
    ensures Dot(p, BrierScores(ids, q)) - Dot(p, BrierScores(ids, p)) == Distance(q, p) >= 0.0
    ensures Dot(p, BrierScores(ids, q)) == Dot(p, BrierScores(ids, p)) <==> q == p
  {
    IndicatorsAverage(p);
    BiasVariance(p, Indicators(|p|), q, p);
    DistanceVanishes(q, p);
    forall r | 0 <= r < |ids|
      ensures BrierScores(ids, q)[r] == Distances(Indicators(|p|), q)[r]
      ensures BrierScores(ids, p)[r] == Distances(Indicators(|p|), p)[r]
    {
      BrierIsDistance(ids, q, r);
      BrierIsDistance(ids, p, r);
    }
    assert BrierScores(ids, q) == Distances(Indicators(|p|), q);
    assert BrierScores(ids, p) == Distances(Indicators(|p|), p);
  }

  lemma {:induction false} DotScales(p: seq<real>, x: seq<real>, y: seq<real>, d: real)
    requires |p| == |x| == |y| && d > 0.0 && forall r :: 0 <= r < |p| ==> y[r] == x[r] / d
    ensures Dot(p, y) == Dot(p, x) / d
  {
    if p != [] {
      var n := |p| - 1;
      DotScales(p[..n], x[..n], y[..n], d);
      TimesQuotient(p[n], x[n], d);
    }
  }

  lemma TimesQuotient(p: real, x: real, d: real)
    requires d > 0.0
    ensures Times(p, x / d) == Times(p, x) / d
  {
    assert (p * (x / d)) * d == p * ((x / d) * d);
  }

  lemma {:induction false} CumulationDetermines(p: seq<real>, q: seq<real>)
    requires |p| == |q| > 0 && Mass(p) == Mass(q) && Cumulated(p, |p| - 1) == Cumulated(q, |p| - 1)
    ensures p == q
  {
    var n := |p|;
    assert p[..n] == p && q[..n] == q;
    forall k | 0 <= k < n ensures p[k] == q[k] {
      assert Mass(p[..k + 1]) == Mass(q[..k + 1]) by {
        if k < n - 1 { assert Cumulated(p, n - 1)[k] == Cumulated(q, n - 1)[k]; }
      }
      assert Mass(p[..k]) == Mass(q[..k]) by {
        if k > 0 { assert Cumulated(p, n - 1)[k - 1] == Cumulated(q, n - 1)[k - 1]; }
      }
      assert p[..k + 1][..k] == p[..k] && q[..k + 1][..k] == q[..k];
    }
  }

  lemma GapOfFractions(x: real, y: real, d: real)
    requires d > 0.0
    ensures x / d - y / d == (x - y) / d
    ensures x / d == y / d <==> x == y
    ensures x >= y ==> (x - y) / d >= 0.0
  {
    assert (x / d) * d == x && (y / d) * d == y;
  }

  lemma {:induction false} RankedScoreIsStrictlyProper(p: seq<real>, q: seq<real>)
    requires |p| == |q| >= 2 && Mass(p) == 1.0 && Mass(q) == 1.0
    ensures Dot(p, RankedScores(q)) - Dot(p, RankedScores(p))
         == Distance(Cumulated(q, |q| - 1), Cumulated(p, |p| - 1)) / (|p| - 1) as real >= 0.0
    ensures Dot(p, RankedScores(q)) == Dot(p, RankedScores(p)) <==> q == p
  {
    hide Dot, Distance, Mass, Times;
    var n := |p| - 1;
    var a, b, es := Cumulated(q, n), Cumulated(p, n), Reaches(|p|);
    ReachesAverage(p);
    BiasVariance(p, es, a, b);
    DistanceVanishes(a, b);
    if a == b { CumulationDetermines(p, q); }
    forall r | 0 <= r < |p|
      ensures RankedScores(q)[r] == Distances(es, a)[r] / n as real
      ensures RankedScores(p)[r] == Distances(es, b)[r] / n as real
    {
    }
    DotScales(p, Distances(es, a), RankedScores(q), n as real);
    DotScales(p, Distances(es, b), RankedScores(p), n as real);
    hide RankedScores, Distances, Cumulated;
    GapOfFractions(Dot(p, Distances(es, a)), Dot(p, Distances(es, b)), n as real);
  }

  // ----- Ranges and point forecasts

  ghost predicate Probable(q: seq<real>)
  {
    Mass(q) == 1.0 && forall i :: 0 <= i < |q| ==> q[i] >= 0.0
  }

  lemma {:induction false} MassGrows(q: seq<real>, k: nat, m: nat)
    requires (forall i :: 0 <= i < |q| ==> q[i] >= 0.0) && k <= m <= |q|
    ensures 0.0 <= Mass(q[..k]) <= Mass(q[..m])
  {
    if m > 0 {
      MassGrows(q, if k < m then k else m - 1, m - 1);
      assert q[..m][..m - 1] == q[..m - 1];
    }
  }

  lemma SquareOfUnit(x: real)
    requires -1.0 <= x <= 1.0
    ensures 0.0 <= Square(x) <= 1.0
  {
    var y := AbsR(x);
    assert Times(y, y) == Times(x, x) && y * y <= y * 1.0;
  }

  lemma {:induction false} UnitGaps(a: seq<real>, b: seq<real>)
    requires |a| == |b| && forall k :: 0 <= k < |a| ==> -1.0 <= a[k] - b[k] <= 1.0
    ensures 0.0 <= Distance(a, b) <= |a| as real
  {
    if a != [] {
      UnitGaps(a[..|a| - 1], b[..|a| - 1]);
      SquareOfUnit(a[|a| - 1] - b[|a| - 1]);
    }
  }

  lemma Fraction(x: real, whole: real)
    requires 0.0 <= x <= whole && whole > 0.0
    ensures 0.0 <= x / whole <= 1.0
  {
  }

  lemma {:induction false} RankedScoreIsNormalized(q: seq<real>, r: nat)
    requires |q| >= 2 && r < |q| && Probable(q)
    ensures 0.0 <= RankedScoreOf(q, r) <= 1.0
  {
    hide Distance, Square, Mass;
    var n := |q| - 1;
    assert q[..|q|] == q;
    forall k | 0 <= k < n ensures 0.0 <= Cumulated(q, n)[k] <= 1.0 { MassGrows(q, k + 1, |q|); }
    UnitGaps(Cumulated(q, n), Reached(n, r));
    Fraction(Distance(Cumulated(q, n), Reached(n, r)), n as real);
  }

  lemma {:induction false} SquaresBelowMass(q: seq<real>, r: nat, m: nat)
    requires m <= |q| && forall i :: 0 <= i < |q| ==> 0.0 <= q[i] <= 1.0
    ensures Distance(q[..m], Indicator(m, r)) <= Mass(q[..m]) + if r < m then 1.0 else 0.0
  {
    if m > 0 {
      SquaresBelowMass(q, r, m - 1);
      assert q[..m][..m - 1] == q[..m - 1] && Indicator(m, r)[..m - 1] == Indicator(m - 1, r);
      SquareOfFraction(q[m - 1]);
    }
  }

  lemma SquareOfFraction(x: real)
    requires 0.0 <= x <= 1.0
    ensures Square(x) <= x && Square(x - 1.0) <= 1.0
  {
    SquareOfUnit(x - 1.0);
    assert x * x <= x * 1.0;
  }

  /** A score of zero is earned by certainty in what happened and by nothing else. */
  lemma {:induction false} BrierIsBetweenZeroAndTwo(ids: seq<int>, q: seq<real>, r: nat)
    requires |ids| == |q| && Unique(ids) && r < |q| && Probable(q)
    ensures BrierScore(Report(ids, q), ids[r]).Ok?
    ensures 0.0 <= BrierScore(Report(ids, q), ids[r]).value <= 2.0
    ensures BrierScore(Report(ids, q), ids[r]).value == 0.0 <==> q == Indicator(|q|, r)
  {
    BrierIsDistance(ids, q, r);
    DistanceVanishes(q, Indicator(|q|, r));
    assert q[..|q|] == q;
    forall i | 0 <= i < |q| ensures 0.0 <= q[i] <= 1.0 {
      MassGrows(q, i, i + 1);
      MassGrows(q, i + 1, |q|);
      assert q[..i + 1][..i] == q[..i];
    }
    SquaresBelowMass(q, r, |q|);
  }

  lemma {:induction false} MassOfIndicator(n: nat, j: nat, k: nat)
    requires k <= n
    ensures Mass(Indicator(n, j)[..k]) == if j < k then 1.0 else 0.0
  {
    if k > 0 {
      MassOfIndicator(n, j, k - 1);
      assert Indicator(n, j)[..k][..k - 1] == Indicator(n, j)[..k - 1];
    }
  }

  lemma StepGaps()
    ensures Square(0.0) == 0.0 && Square(1.0) == 1.0 && Square(-1.0) == 1.0
  {
  }

  lemma {:induction false} StepsApart(n: nat, j: nat, r: nat)
    requires j <= n && r <= n
    ensures Distance(Reached(n, j), Reached(n, r)) == AbsR((j - r) as real)
  {
    hide Square;
    StepGaps();
    if n > 0 {
      var m := n - 1;
      StepsApart(m, if j < n then j else m, if r < n then r else m);
      Unreached(m);
      assert Reached(n, j)[..m] == Reached(m, j) && Reached(n, r)[..m] == Reached(m, r);
    }
  }

  lemma Unreached(n: nat)
    ensures Reached(n, n + 1) == Reached(n, n)
  {
  }

  /** A certain forecast pays for how far off it was, in buckets. */
  lemma {:induction false} CertaintyPaysItsError(n: nat, j: nat, r: nat)
    requires n >= 2 && j < n && r < n
    ensures RankedScoreOf(Indicator(n, j), r) == AbsR((j - r) as real) / (n - 1) as real
  {
    var certain := Cumulated(Indicator(n, j), n - 1);
    forall k | 0 <= k < n - 1 ensures certain[k] == Reached(n - 1, j)[k] {
      MassOfIndicator(n, j, k + 1);
    }
    assert certain == Reached(n - 1, j);
    StepsApart(n - 1, j, r);
  }
}
