/**
 Forecast contracts and how a return is resolved against them: the validators of
 src/investment_manager/forecast/contracts.py, settlement's bucket choice and funding check (settlement.py), and the
 store's own check of a settled outcome (repository.py).
 */
module OutcomeBuckets {
  import opened Results
  import opened Sums

  datatype Bucket = Bucket(id: int, lower: Option<real>, upper: Option<real>, representative: real)

  predicate WellFormed(b: Bucket)
  {
    && (b.lower.Some? && b.upper.Some? ==> b.lower.value < b.upper.value)
    && (b.lower.Some? ==> b.lower.value <= b.representative)
    && (b.upper.Some? ==> b.representative < b.upper.value)
  }

  predicate Contains(b: Bucket, gross: real)
  {
    (b.lower.None? || gross >= b.lower.value) && (b.upper.None? || gross < b.upper.value)
  }

  datatype ContractError =
    | RemainingHorizonTooLong
    | DeadlineTooLate
    | OutcomeStartTooLate
    | DuplicateBuckets
    | NoLowerTail
    | NoUpperTail
    | BrokenChain
    | BenchmarkIncomplete
    | BenchmarkNotNormalized

  /** Durations are in minutes and seconds, as in the contract itself. */
  datatype Contract = Contract(
    buckets: seq<Bucket>, horizonMinutes: int, deadlineSeconds: int, minimumRemainingMinutes: int,
    startDelaySeconds: Option<nat>, benchmark: seq<(int, real)>)

  predicate FieldsAreValid(c: Contract)
  {
    && |c.buckets| >= 3 && |c.benchmark| >= 3 && (forall i :: 0 <= i < |c.buckets| ==> WellFormed(c.buckets[i]))
    && c.horizonMinutes > 0 && c.deadlineSeconds > 0 && c.minimumRemainingMinutes > 0
    && forall i :: 0 <= i < |c.benchmark| ==> 0.0 <= c.benchmark[i].1 <= 1.0
  }

  type Draft = c: Contract | FieldsAreValid(c)
    witness Contract([Bucket(0, None, Some(0.0), -1.0), Bucket(1, Some(0.0), Some(1.0), 0.0), Bucket(2, Some(1.0), None, 1.0)],
                     1, 1, 1, None, [(0, 0.0), (0, 0.0), (0, 0.0)])

  function Ids(bs: seq<Bucket>): seq<int> { seq(|bs|, i requires 0 <= i < |bs| => bs[i].id) }

  predicate Distinct(ids: seq<int>) { forall i, j :: 0 <= i < j < |ids| ==> ids[i] != ids[j] }

  predicate Chained(bs: seq<Bucket>) { forall i :: 0 <= i < |bs| - 1 ==> bs[i].upper == bs[i + 1].lower }

  /** The contract's validator: its first complaint, or none. Two neighbours that both leave their bound open pass it. */
  function Complaint(c: Draft): Option<ContractError>
  {
    if c.minimumRemainingMinutes >= c.horizonMinutes then Some(RemainingHorizonTooLong)
    else if c.deadlineSeconds >= (c.horizonMinutes - c.minimumRemainingMinutes) * 60 then Some(DeadlineTooLate)
    else if c.startDelaySeconds.Some? && c.deadlineSeconds + c.startDelaySeconds.value >= c.horizonMinutes * 60 then
      Some(OutcomeStartTooLate)
    else if !Distinct(Ids(c.buckets)) then Some(DuplicateBuckets)
    else if c.buckets[0].lower.Some? then Some(NoLowerTail)
    else if c.buckets[|c.buckets| - 1].upper.Some? then Some(NoUpperTail)
    else if !Chained(c.buckets) then Some(BrokenChain)
    else if seq(|c.benchmark|, i requires 0 <= i < |c.benchmark| => c.benchmark[i].0) != Ids(c.buckets) then
      Some(BenchmarkIncomplete)
    else if SumBy(c.benchmark, (e: (int, real)) => e.1) != 1.0 then Some(BenchmarkNotNormalized)
    else None
  }

  predicate Accepted(c: Contract) { FieldsAreValid(c) && Complaint(c) == None }

  predicate AllBounded(bs: seq<Bucket>) { forall i :: 0 <= i < |bs| - 1 ==> bs[i].upper.Some? }

  /** Settlement's `next` over the buckets in order. */
  function FirstContaining(bs: seq<Bucket>, gross: real): Option<Bucket>
  {
    if bs == [] then None else if Contains(bs[0], gross) then Some(bs[0]) else FirstContaining(bs[1..], gross)
  }

  /** The store's check of a settled outcome. */
  function StoreAccepts(c: Contract, gross: real, bucketId: int): bool
  {
    var bucket := FirstContaining(c.buckets, gross);
    bucket.Some? && bucket.value.id == bucketId
  }

  ghost predicate ContainedAt(bs: seq<Bucket>, gross: real, k: int) { 0 <= k < |bs| && Contains(bs[k], gross) }

  lemma {:induction false} FirstContainingMeaning(bs: seq<Bucket>, gross: real)
    ensures FirstContaining(bs, gross).None? <==> forall k :: 0 <= k < |bs| ==> !Contains(bs[k], gross)
    ensures FirstContaining(bs, gross).Some? ==>
              exists k :: ContainedAt(bs, gross, k) && bs[k] == FirstContaining(bs, gross).value
                          && forall j :: 0 <= j < k ==> !Contains(bs[j], gross)
  {
    if bs != [] {
      if Contains(bs[0], gross) {
        assert ContainedAt(bs, gross, 0);
      } else {
        FirstContainingMeaning(bs[1..], gross);
        assert forall k :: 0 <= k < |bs| - 1 ==> bs[1..][k] == bs[k + 1];
        if FirstContaining(bs[1..], gross).Some? {
          var k :| ContainedAt(bs[1..], gross, k) && bs[1..][k] == FirstContaining(bs[1..], gross).value
                   && forall j :: 0 <= j < k ==> !Contains(bs[1..][j], gross);
          assert ContainedAt(bs, gross, k + 1);
          forall j | 0 <= j < k + 1 ensures !Contains(bs[j], gross) {
            if j > 0 { assert bs[1..][j - 1] == bs[j]; }
          }
        }
      }
    }
  }

  /** Walking up the chain from an open lower end to an open upper end always meets a bucket that contains the return. */
  lemma {:induction false} ChainCovers(bs: seq<Bucket>, gross: real)
    requires bs != [] && Chained(bs) && bs[|bs| - 1].upper.None?
    requires bs[0].lower.None? || gross >= bs[0].lower.value
    ensures exists k :: ContainedAt(bs, gross, k)
  {
    if Contains(bs[0], gross) {
      assert ContainedAt(bs, gross, 0);
    } else {
      assert |bs| > 1 && bs[0].upper == bs[1].lower;
      forall i | 0 <= i < |bs| - 2 ensures bs[1..][i].upper == bs[1..][i + 1].lower { assert bs[i + 1].upper == bs[i + 2].lower; }
      ChainCovers(bs[1..], gross);
      var k :| ContainedAt(bs[1..], gross, k);
      assert ContainedAt(bs, gross, k + 1);
    }
  }

  /** Settlement never fails to find a bucket, whatever the return, even when interior bounds are open. */
  lemma {:induction false} EveryReturnIsResolved(c: Contract, gross: real)
    requires Accepted(c)
    ensures FirstContaining(c.buckets, gross).Some?
  {
    ChainCovers(c.buckets, gross);
    FirstContainingMeaning(c.buckets, gross);
  }

  lemma {:induction false} BoundsClimb(bs: seq<Bucket>, i: nat, j: nat)
    requires Chained(bs) && AllBounded(bs) && i < j < |bs|
    requires forall k :: 0 <= k < |bs| ==> WellFormed(bs[k])
    decreases j
    ensures bs[i].upper.Some? && bs[j].lower.Some? && bs[i].upper.value <= bs[j].lower.value
  {
    assert bs[j - 1].upper == bs[j].lower;
    if i < j - 1 {
      BoundsClimb(bs, i, j - 1);
      assert WellFormed(bs[j - 1]);
    }
  }

  ghost predicate Unambiguous(bs: seq<Bucket>, gross: real)
  {
    forall i, j :: ContainedAt(bs, gross, i) && ContainedAt(bs, gross, j) ==> i == j
  }

  /** An open interior bound splits the chain into two chains that each cover everything. */
  lemma OpenCutCoversTwice(bs: seq<Bucket>, cut: nat, gross: real)
    requires Chained(bs) && cut < |bs| - 1 && bs[cut].upper.None?
    requires bs[0].lower.None? && bs[|bs| - 1].upper.None?
    ensures exists i, j :: ContainedAt(bs, gross, i) && ContainedAt(bs, gross, j) && i <= cut < j
  {
    var low, high := bs[..cut + 1], bs[cut + 1..];
    assert bs[cut].upper == bs[cut + 1].lower;
    ChainCovers(low, gross);
    ChainedRest(bs, cut + 1);
    ChainCovers(high, gross);
    var i :| ContainedAt(low, gross, i);
    var j :| ContainedAt(high, gross, j);
    assert ContainedAt(bs, gross, i) && ContainedAt(bs, gross, cut + 1 + j);
  }

  /** A single open interior bound makes every return ambiguous; without one, none is. */
  lemma {:induction false} UniqueExactlyWhenBounded(c: Contract, gross: real)
    requires Accepted(c)
    ensures Unambiguous(c.buckets, gross) <==> AllBounded(c.buckets)
  {
    var bs := c.buckets;
    assert Chained(bs) && bs[0].lower.None? && bs[|bs| - 1].upper.None? && forall i :: 0 <= i < |bs| ==> WellFormed(bs[i]);
    hide Accepted, Chained;
    if AllBounded(bs) {
      forall i, j | ContainedAt(bs, gross, i) && ContainedAt(bs, gross, j) ensures i == j {
        if i < j { BoundsClimb(bs, i, j); }
        if j < i { BoundsClimb(bs, j, i); }
      }
    } else {
      var cut :| 0 <= cut < |bs| - 1 && bs[cut].upper.None?;
      OpenCutCoversTwice(bs, cut, gross);
    }
  }

  /** The validator does let such a contract through: its first bucket overlaps the other two. */
  lemma {:induction false} AnOpenInteriorBoundIsAccepted()
    ensures
      var c := Contract([Bucket(0, None, None, 0.0), Bucket(1, None, Some(5.0), 0.0), Bucket(2, Some(5.0), None, 6.0)],
                        60, 60, 10, None, [(0, 1.0), (1, 0.0), (2, 0.0)]);
      Accepted(c) && !AllBounded(c.buckets)
  {
    var buckets := [Bucket(0, None, None, 0.0), Bucket(1, None, Some(5.0), 0.0), Bucket(2, Some(5.0), None, 6.0)];
    var benchmark := [(0, 1.0), (1, 0.0), (2, 0.0)];
    var p := (e: (int, real)) => e.1;
    assert benchmark == [(0, 1.0)] + [(1, 0.0)] + [(2, 0.0)] && [(0, 1.0)] == [] + [(0, 1.0)];
    SumPush([], (0, 1.0), p);
    SumPush([(0, 1.0)], (1, 0.0), p);
    SumPush([(0, 1.0)] + [(1, 0.0)], (2, 0.0), p);
    assert Ids(buckets) == [0, 1, 2];
    assert seq(3, i requires 0 <= i < 3 => benchmark[i].0) == [0, 1, 2];
    assert buckets[0].upper.None?;
  }

  lemma ChainedRest(bs: seq<Bucket>, k: nat)
    requires Chained(bs) && k <= |bs|
    ensures Chained(bs[k..])
  {
    forall i | 0 <= i < |bs| - k - 1 ensures bs[k..][i].upper == bs[k..][i + 1].lower {
      assert bs[k + i].upper == bs[k + i + 1].lower;
    }
  }

  ghost predicate StoreMeansContaining(c: Contract)
  {
    forall gross, id ::
      StoreAccepts(c, gross, id) <==> exists k :: ContainedAt(c.buckets, gross, k) && c.buckets[k].id == id
  }

  /** Settlement's bucket always passes the store, and the store takes every containing bucket exactly when none is open inside. */
  lemma {:induction false} SettlementPassesTheStore(c: Contract, gross: real, id: int)
    requires Accepted(c)
    ensures FirstContaining(c.buckets, gross).Some? && StoreAccepts(c, gross, FirstContaining(c.buckets, gross).value.id)
    ensures StoreAccepts(c, gross, id) ==> exists k :: ContainedAt(c.buckets, gross, k) && c.buckets[k].id == id
    ensures AllBounded(c.buckets) ==>
              (StoreAccepts(c, gross, id) <==> exists k :: ContainedAt(c.buckets, gross, k) && c.buckets[k].id == id)
  {
    EveryReturnIsResolved(c, gross);
    FirstContainingMeaning(c.buckets, gross);
    UniqueExactlyWhenBounded(c, gross);
  }

  lemma {:induction false} StoreMeansContainingExactlyWhenBounded(c: Contract)
    requires Accepted(c)
    ensures StoreMeansContaining(c) <==> AllBounded(c.buckets)
  {
    var bs := c.buckets;
    if AllBounded(bs) {
      forall gross, id
        ensures StoreAccepts(c, gross, id) <==> exists k :: ContainedAt(bs, gross, k) && bs[k].id == id
      {
        SettlementPassesTheStore(c, gross, id);
      }
    } else {
      UniqueExactlyWhenBounded(c, 0.0);
      EveryReturnIsResolved(c, 0.0);
      FirstContainingMeaning(bs, 0.0);
      var i, j :| ContainedAt(bs, 0.0, i) && ContainedAt(bs, 0.0, j) && i != j;
      assert Ids(bs)[i] != Ids(bs)[j] by {
        if i < j { assert Ids(bs)[i] != Ids(bs)[j]; } else { assert Ids(bs)[j] != Ids(bs)[i]; }
      }
      assert !StoreAccepts(c, 0.0, bs[i].id) || !StoreAccepts(c, 0.0, bs[j].id);
    }
  }

  // ----- Representatives and the expected return

  lemma {:induction false} RepresentativesClimb(c: Contract, i: nat, j: nat)
    requires Accepted(c) && AllBounded(c.buckets) && i < j < |c.buckets|
    ensures c.buckets[i].representative < c.buckets[j].representative
  {
    BoundsClimb(c.buckets, i, j);
    assert WellFormed(c.buckets[i]) && WellFormed(c.buckets[j]);
  }

  function Mass(p: seq<real>): real { if p == [] then 0.0 else Mass(p[..|p| - 1]) + p[|p| - 1] }

  /** What a forecast must report as its expected return: the contract's representatives weighed by its probabilities. */
  function ExpectedGross(p: seq<real>, bs: seq<Bucket>): real
    requires |p| == |bs|
  {
    if p == [] then 0.0 else
      var n := |p| - 1; ExpectedGross(p[..n], bs[..n]) + Times(p[n], bs[n].representative)
  }

  lemma WeighedBetween(p: real, low: real, x: real, high: real)
    requires p >= 0.0 && low <= x <= high
    ensures Times(p, low) <= Times(p, x) <= Times(p, high)
  {
    assert p * (x - low) >= 0.0 && p * (high - x) >= 0.0;
  }

  lemma SplitTimes(a: real, b: real, x: real)
    ensures Times(a + b, x) == Times(a, x) + Times(b, x)
  {
  }

  lemma {:induction false} MeanBetween(p: seq<real>, bs: seq<Bucket>, low: real, high: real)
    requires |p| == |bs|
    requires forall i :: 0 <= i < |p| ==> p[i] >= 0.0 && low <= bs[i].representative <= high
    ensures Times(Mass(p), low) <= ExpectedGross(p, bs) <= Times(Mass(p), high)
  {
    if p != [] {
      var n := |p| - 1;
      MeanBetween(p[..n], bs[..n], low, high);
      WeighedBetween(p[n], low, bs[n].representative, high);
      SplitTimes(Mass(p[..n]), p[n], low);
      SplitTimes(Mass(p[..n]), p[n], high);
      hide Times;
    }
  }

  /** A forecast's expected return lies between the outermost representatives. */
  lemma {:induction false} ExpectedGrossIsInRange(c: Contract, p: seq<real>)
    requires Accepted(c) && AllBounded(c.buckets) && |p| == |c.buckets|
    requires Mass(p) == 1.0 && forall i :: 0 <= i < |p| ==> p[i] >= 0.0
    ensures c.buckets[0].representative <= ExpectedGross(p, c.buckets) <= c.buckets[|p| - 1].representative
  {
    var low, high := c.buckets[0].representative, c.buckets[|p| - 1].representative;
    forall i | 0 <= i < |p| ensures low <= c.buckets[i].representative <= high {
      if i > 0 { RepresentativesClimb(c, 0, i); }
      if i < |p| - 1 { RepresentativesClimb(c, i, |p| - 1); }
    }
    MeanBetween(p, c.buckets, low, high);
    assert Times(1.0, low) == low && Times(1.0, high) == high;
  }

  // ----- Decision slots

  datatype Anchor = Anchor(instrument: int, availableAt: int)

  /** Times in seconds. */
  datatype Slot = Slot(asOf: int, cutoff: int, deadline: int, outcomeStart: Option<int>, evaluation: int, prices: seq<Anchor>)

  datatype SlotError = TimesOutOfOrder | OutcomeStartOutOfOrder | PriceAfterCutoff | DuplicatePrices

  function SlotComplaint(s: Slot): Option<SlotError>
  {
    if !(s.cutoff <= s.asOf < s.deadline < s.evaluation) then Some(TimesOutOfOrder)
    else if s.outcomeStart.Some? && !(s.deadline <= s.outcomeStart.value < s.evaluation) then Some(OutcomeStartOutOfOrder)
    else if exists i :: 0 <= i < |s.prices| && s.prices[i].availableAt > s.cutoff then Some(PriceAfterCutoff)
    else if !Distinct(Instruments(s.prices)) then Some(DuplicatePrices)
    else None
  }

  function Instruments(prices: seq<Anchor>): seq<int> { seq(|prices|, i requires 0 <= i < |prices| => prices[i].instrument) }

  function CreateSlot(c: Contract, asOf: int, cutoffAt: Option<int>, prices: seq<Anchor>): Result<Slot, SlotError>
  {
    var cutoff := if cutoffAt.Some? then cutoffAt.value else asOf;
    var deadline := asOf + c.deadlineSeconds;
    var start := if c.startDelaySeconds.Some? then Some(deadline + c.startDelaySeconds.value) else None;
    var slot := Slot(asOf, cutoff, deadline, start, cutoff + c.horizonMinutes * 60, prices);
    if SlotComplaint(slot).Some? then Err(SlotComplaint(slot).value) else Ok(slot)
  }

  /** How stale the information of a slot may be before the contract leaves no outcome to predict. */
  function Slack(c: Contract): int
  {
    c.horizonMinutes * 60 - c.deadlineSeconds - if c.startDelaySeconds.Some? then c.startDelaySeconds.value else 0
  }

  predicate PricesAreUsable(prices: seq<Anchor>, cutoff: int)
  {
    Distinct(Instruments(prices)) && forall i :: 0 <= i < |prices| ==> prices[i].availableAt <= cutoff
  }

  /** An accepted contract always has room for a fresh slot, and for a stale one exactly within its slack. */
  lemma {:induction false} SlotExistsExactlyWhen(c: Contract, asOf: int, cutoffAt: Option<int>, prices: seq<Anchor>)
    requires Accepted(c)
    ensures
      var cutoff := if cutoffAt.Some? then cutoffAt.value else asOf;
      CreateSlot(c, asOf, cutoffAt, prices).Ok? <==> 0 <= asOf - cutoff < Slack(c) && PricesAreUsable(prices, cutoff)
    ensures Slack(c) > 0
  {
  }

  /** Whoever answers a fresh slot by its deadline still has more than the minimum horizon left to act on. */
  lemma {:induction false} FreshSlotLeavesTime(c: Contract, asOf: int, prices: seq<Anchor>)
    requires Accepted(c) && CreateSlot(c, asOf, None, prices).Ok?
    ensures
      var slot := CreateSlot(c, asOf, None, prices).value;
      && slot.evaluation - slot.deadline > c.minimumRemainingMinutes * 60
      && (slot.outcomeStart.Some? ==> slot.deadline <= slot.outcomeStart.value < slot.evaluation)
  {
  }

  // ----- Funding completeness

  function Points(start: int, times: seq<int>, end: int): seq<int> { [start] + times + [end] }

  predicate GapsWithin(points: seq<int>, gap: int) { forall i :: 0 <= i < |points| - 1 ==> points[i + 1] - points[i] <= gap }

  /** False stands for the raised `MarketFactsIncomplete`. */
  function FundingIsComplete(start: int, end: int, times: seq<int>, gap: int): bool
  {
    if end - start < gap && times == [] then true else GapsWithin(Points(start, times, end), gap)
  }

  predicate Chronological(points: seq<int>) { forall i, j :: 0 <= i < j < |points| ==> points[i] <= points[j] }

  ghost predicate Settles(times: seq<int>, x: int, y: int) { exists t :: t in times && x < t < y }

  lemma {:induction false} NextPoint(points: seq<int>, x: int) returns (k: nat)
    requires |points| >= 2 && points[0] <= x < points[|points| - 1]
    ensures k < |points| - 1 && points[k] <= x < points[k + 1]
  {
    k := 0;
    while points[k + 1] <= x
      invariant k < |points| - 1 && points[k] <= x
      decreases |points| - k
    {
      k := k + 1;
    }
  }

  /** The check passes exactly when every stretch longer than the gap saw a settlement; the early return decides nothing. */
  lemma {:induction false} FundingIsCompleteExactlyWhen(start: int, end: int, times: seq<int>, gap: nat)
    requires Chronological(Points(start, times, end))
    ensures FundingIsComplete(start, end, times, gap) <==>
            forall x, y :: start <= x < y <= end && y - x > gap ==> Settles(times, x, y)
  {
    var points, n := Points(start, times, end), |times| + 1;
    assert forall i :: 0 < i < n ==> points[i] == times[i - 1];
    if GapsWithin(points, gap) {
      forall x, y | start <= x < y <= end && y - x > gap ensures Settles(times, x, y) {
        var k := NextPoint(points, x);
        assert points[k + 1] - points[k] <= gap;
        assert points[k + 1] == times[k] && times[k] in times;
      }
    } else {
      var k :| 0 <= k < n && points[k + 1] - points[k] > gap;
      assert points[0] <= points[k] && points[k + 1] <= points[n];
      forall t | t in times ensures !(points[k] < t < points[k + 1]) {
        var i :| 0 <= i < |times| && times[i] == t;
        assert points[i + 1] == t;
        assert if i + 1 <= k then t <= points[k] else points[k + 1] <= t;
      }
      assert !Settles(times, points[k], points[k + 1]);
      assert times == [] ==> points == [start, end];
    }
  }
}
