/**
 Sizing of portfolio sleeves (src/investment_manager/portfolio/decision.py, `PortfolioDecisionEngine`).

 A sleeve is evaluated at its cap, one product is selected per economic exposure, only increments are scaled to
 the total limit, and the size that results is evaluated again before capital moves.
 */
module PortfolioDecision {
  import opened Results
  import opened Sums
  import opened Pricing
  import Sorting

  // ----- Inputs

  datatype Forecast = Forecast(forecastId: int, calibrated: bool, expectedGrossBps: real, conservativeGrossBps: real,
                               availableAt: int, validUntil: int, horizonEnd: int)

  datatype Scenario = Scenario(probability: real, conservativePayoffBps: real)

  datatype Projection = Projection(exposureId: int, conservativeGrossBps: real, scenarios: seq<Scenario>,
                                   projectedAt: int, validUntil: int, sourceEntryValidUntil: int)

  datatype SleeveInput = SleeveInput(sleeveId: int, forecast: Forecast, projection: Option<Projection>,
                                     projectionCurrent: bool, newCapitalAllowed: bool)
  {
    /** The construction checks of `PortfolioSleeveInput` and its parts that concern time and probability. */
    predicate Valid() {
      && forecast.availableAt < forecast.validUntil <= forecast.horizonEnd
      && (projection.None? ==> projectionCurrent)
      && (projection.Some? ==>
            && !forecast.calibrated
            && forecast.availableAt <= projection.value.projectedAt < projection.value.validUntil
            && projection.value.sourceEntryValidUntil == forecast.validUntil
            && (forall i :: 0 <= i < |projection.value.scenarios| ==> projection.value.scenarios[i].probability >= 0.0))
    }

    function GrossBps(): real {
      if projection.Some? then projection.value.conservativeGrossBps
      else if forecast.calibrated then forecast.conservativeGrossBps
      else forecast.expectedGrossBps
    }

    function AvailableAt(): int { if projection.Some? then projection.value.projectedAt else forecast.availableAt }

    /** Until when the forecast supports exposure that is already held. */
    function ValidUntil(): int { if projection.Some? then projection.value.validUntil else forecast.horizonEnd }

    /** Until when it supports new exposure. */
    function NewExposureValidUntil(): int {
      if projection.Some? then
        if projection.value.validUntil <= projection.value.sourceEntryValidUntil then projection.value.validUntil
        else projection.value.sourceEntryValidUntil
      else forecast.validUntil
    }

    function ExposureKey(): int { if projection.Some? then projection.value.exposureId else sleeveId }
  }

  /** A sleeve input joined with its priced legs and the notional it currently holds. */
  datatype CaseData = CaseData(item: SleeveInput, legs: seq<Leg>, current: real)
  {
    predicate Valid() {
      item.Valid() && ValidLegs(legs) && current >= 0.0 && (item.newCapitalAllowed || current > 0.0)
    }
    function Id(): int { item.sleeveId }
    function Exposure(): int { item.ExposureKey() }
  }

  type Case = c: CaseData | c.Valid()
    witness CaseData(SleeveInput(0, Forecast(0, true, 0.0, 0.0, 0, 1, 1), None, true, true), [], 0.0)

  datatype Policy = Policy(maximumTotal: real, maximumSingle: real, cost: CostPolicy, validity: int)

  datatype DeskData = DeskData(policy: Policy, equity: real, asOf: int)
  {
    predicate Valid() {
      && 0.0 <= policy.maximumTotal <= 1.0 && 0.0 < policy.maximumSingle <= 1.0
      && policy.cost.Valid() && policy.validity > 0 && equity > 0.0
    }
  }

  type Desk = d: DeskData | d.Valid() witness DeskData(Policy(0.5, 0.3, CostPolicy(1.0, 1.0), 1), 1.0, 0)

  /** Any square root, exact or rounded, is positive on positive numbers; nothing else about it is used. */
  type Root = f: real -> real | forall m: real :: m > 0.0 ==> f(m) > 0.0 witness ((m: real) => 1.0)

  // ----- Evaluating one sleeve at one size

  datatype Candidate = Candidate(evaluation: real, forecastCurrent: bool, grossBps: real, cost: Cost, netBps: real,
                                 minimumNetBps: real, eligible: bool)

  predicate RetainingOnly(c: Case, evaluation: real) { c.current > 0.0 && evaluation <= c.current }

  function SupportUntil(c: Case, evaluation: real): int {
    if RetainingOnly(c, evaluation) then c.item.ValidUntil() else c.item.NewExposureValidUntil()
  }

  predicate ForecastCurrent(desk: Desk, c: Case, evaluation: real) {
    c.item.projectionCurrent && c.item.AvailableAt() <= desk.asOf < SupportUntil(c, evaluation)
  }

  function CostOf(desk: Desk, c: Case, target: real, evaluation: real): Cost
    requires evaluation > 0.0
  {
    TransitionCost(desk.policy.cost, c.legs, c.current, target, evaluation)
  }

  function NetBps(desk: Desk, c: Case, size: real): real
    requires size > 0.0
  {
    RemainingGrossBps(c.item.GrossBps(), c.legs, c.current, size) - CostOf(desk, c, size, size).totalBps
  }

  function EvaluateCandidate(desk: Desk, c: Case, evaluation: real, minimumNetBps: real): Candidate
    requires evaluation > 0.0
  {
    var gross := RemainingGrossBps(c.item.GrossBps(), c.legs, c.current, evaluation);
    var cost := CostOf(desk, c, evaluation, evaluation);
    var net := gross - cost.totalBps;
    var current := ForecastCurrent(desk, c, evaluation);
    Candidate(evaluation, current, gross, cost, net, minimumNetBps, current && net > minimumNetBps)
  }

  /** A holding that does not clear zero is compared once more, at no more than its size, with the cost of leaving now. */
  function EvaluateTransition(desk: Desk, c: Case, evaluation: real): (r: Candidate)
    requires evaluation > 0.0
    ensures 0.0 < r.evaluation <= evaluation
  {
    var candidate := EvaluateCandidate(desk, c, evaluation, 0.0);
    if c.current <= 0.0 || candidate.eligible || !candidate.forecastCurrent then candidate
    else
      var review := MinR(c.current, evaluation);
      EvaluateCandidate(desk, c, review, -CostOf(desk, c, 0.0, review).totalBps)
  }

  /** The cap at which a sleeve is first evaluated. */
  function CandidateNotional(desk: Desk, c: Case): (r: real)
    ensures r > 0.0
  {
    var limit := desk.equity * desk.policy.maximumSingle;
    if !c.item.newCapitalAllowed then c.current
    else if c.current > 0.0 && desk.asOf >= c.item.NewExposureValidUntil() then MinR(limit, c.current)
    else limit
  }

  /** What an eligible evaluation guarantees about the exact size it evaluated. */
  ghost predicate Justified(desk: Desk, c: Case, candidate: Candidate)
  {
    var size := candidate.evaluation;
    && size > 0.0
    && candidate.grossBps == RemainingGrossBps(c.item.GrossBps(), c.legs, c.current, size)
    && candidate.cost == CostOf(desk, c, size, size)
    && candidate.netBps == NetBps(desk, c, size)
    && c.item.projectionCurrent && c.item.AvailableAt() <= desk.asOf < SupportUntil(c, size)
    && (candidate.netBps > 0.0
        || (RetainingOnly(c, size) && candidate.netBps > -CostOf(desk, c, 0.0, size).totalBps))
  }

  lemma {:induction false} EligibleIsJustified(desk: Desk, c: Case, evaluation: real)
    requires evaluation > 0.0 && EvaluateTransition(desk, c, evaluation).eligible
    ensures Justified(desk, c, EvaluateTransition(desk, c, evaluation))
  {
    hide RemainingGrossBps, TransitionCost;
  }

  // ----- Downside-scaled size

  function ShortfallSquared(shiftBps: real): Scenario -> real
  {
    (s: Scenario) => Times(s.probability, Square(MinR(s.conservativePayoffBps + shiftBps, 0.0)))
  }

  function DownsideSecondMoment(scenarios: seq<Scenario>, shiftBps: real): real { SumBy(scenarios, ShortfallSquared(shiftBps)) }

  function ShiftBps(p: Projection, candidate: Candidate): real {
    candidate.grossBps - p.conservativeGrossBps - candidate.cost.totalBps
  }

  /** The second moment vanishes exactly when no scenario that can happen loses money after costs. */
  lemma {:induction false} NoDownsideExactlyWhen(scenarios: seq<Scenario>, shiftBps: real)
    requires forall i :: 0 <= i < |scenarios| ==> scenarios[i].probability >= 0.0
    ensures DownsideSecondMoment(scenarios, shiftBps) >= 0.0
    ensures DownsideSecondMoment(scenarios, shiftBps) == 0.0 <==>
            forall i :: 0 <= i < |scenarios| && scenarios[i].probability > 0.0 ==> scenarios[i].conservativePayoffBps + shiftBps >= 0.0
  {
    assert Square(0.0) == 0.0;
    hide Square;
    if scenarios != [] {
      var n := |scenarios| - 1;
      var loss := MinR(scenarios[n].conservativePayoffBps + shiftBps, 0.0);
      NoDownsideExactlyWhen(scenarios[..n], shiftBps);
      if loss != 0.0 {
        SquarePositive(loss);
        if scenarios[n].probability > 0.0 { PositiveProduct(scenarios[n].probability, Square(loss)); }
      }
      assert forall i :: 0 <= i < n ==> scenarios[..n][i] == scenarios[i];
    }
  }

  function AllocationFraction(desk: Desk, root: Root, c: Case, candidate: Candidate): real {
    if c.item.projection.None? then desk.policy.maximumSingle
    else
      var shift := ShiftBps(c.item.projection.value, candidate);
      NoDownsideExactlyWhen(c.item.projection.value.scenarios, shift);
      var m := DownsideSecondMoment(c.item.projection.value.scenarios, shift);
      if m == 0.0 then desk.policy.maximumSingle else MinR(desk.policy.maximumSingle, candidate.netBps / root(m))
  }

  lemma PositiveQuotient(x: real, y: real)
    requires x > 0.0 && y > 0.0
    ensures x / y > 0.0
  {
  }

  /** A positive edge is always worth a positive fraction within the cap. */
  lemma {:induction false} FractionIsWithinCap(desk: Desk, root: Root, c: Case, candidate: Candidate)
    requires candidate.netBps > 0.0
    ensures 0.0 < AllocationFraction(desk, root, c, candidate) <= desk.policy.maximumSingle
  {
    if c.item.projection.Some? {
      var shift := ShiftBps(c.item.projection.value, candidate);
      NoDownsideExactlyWhen(c.item.projection.value.scenarios, shift);
      var m := DownsideSecondMoment(c.item.projection.value.scenarios, shift);
      hide DownsideSecondMoment, ShiftBps;
      if m > 0.0 { PositiveQuotient(candidate.netBps, root(m)); }
    }
  }

  lemma BalancedSquare(fraction: real, s: real, net: real)
    requires s > 0.0 && 0.0 < fraction <= net / s
    ensures fraction * fraction * (s * s) <= net * net
    ensures fraction == net / s ==> fraction * fraction * (s * s) == net * net
  {
    var ratio := net / s;
    assert ratio * s == net;
    var x := fraction * s;
    assert 0.0 < x <= net by { assert (ratio - fraction) * s >= 0.0; }
    assert x * x == fraction * fraction * (s * s);
    assert x * x <= net * net by { assert x * x <= x * net <= net * net; }
  }

  lemma FractionIs(desk: Desk, root: Root, c: Case, candidate: Candidate, m: real)
    requires c.item.projection.Some? && m > 0.0
    requires m == DownsideSecondMoment(c.item.projection.value.scenarios, ShiftBps(c.item.projection.value, candidate))
    ensures AllocationFraction(desk, root, c, candidate) == MinR(desk.policy.maximumSingle, candidate.netBps / root(m))
  {
    hide DownsideSecondMoment, ShiftBps;
  }

  lemma Balance(fraction: real, s: real, m: real, net: real, cap: real)
    requires s > 0.0 && Square(s) == m && 0.0 < fraction == MinR(cap, net / s)
    ensures Square(fraction) * m <= Square(net)
    ensures fraction < cap ==> Square(fraction) * m == Square(net)
  {
    BalancedSquare(fraction, s, net);
  }

  /**
   When the root is exact and some scenario loses, the root-mean-square loss at the chosen fraction is at most
   the edge, and equal to it unless the cap binds.
   */
  lemma {:induction false} FractionBalancesDownside(desk: Desk, root: Root, c: Case, candidate: Candidate, m: real, fraction: real)
    requires candidate.netBps > 0.0 && c.item.projection.Some?
    requires m == DownsideSecondMoment(c.item.projection.value.scenarios, ShiftBps(c.item.projection.value, candidate))
    requires fraction == AllocationFraction(desk, root, c, candidate)
    requires m > 0.0 && Square(root(m)) == m
    ensures Square(fraction) * m <= Square(candidate.netBps)
    ensures fraction < desk.policy.maximumSingle ==> Square(fraction) * m == Square(candidate.netBps)
  {
    hide DownsideSecondMoment, ShiftBps, AllocationFraction, Square;
    FractionIsWithinCap(desk, root, c, candidate);
    FractionIs(desk, root, c, candidate, m);
    Balance(fraction, root(m), m, candidate.netBps, desk.policy.maximumSingle);
  }

  // ----- Choosing one product per exposure

  datatype Scored = Scored(case_: Case, candidate: Candidate)
  {
    function Id(): int { case_.Id() }
    function Exposure(): int { case_.Exposure() }
  }

  function Score(desk: Desk, c: Case): Scored { Scored(c, EvaluateTransition(desk, c, CandidateNotional(desk, c))) }

  function Scores(desk: Desk, cases: seq<Case>): (r: seq<Scored>)
    ensures |r| == |cases| && forall i :: 0 <= i < |cases| ==> r[i] == Score(desk, cases[i])
  {
    if cases == [] then [] else Scores(desk, cases[..|cases| - 1]) + [Score(desk, cases[|cases| - 1])]
  }

  /** Best net first, calibrated forecasts before uncalibrated ones, then by sleeve id. */
  predicate RanksBefore(a: Scored, b: Scored)
  {
    || a.candidate.netBps > b.candidate.netBps
    || (a.candidate.netBps == b.candidate.netBps
        && (if a.case_.item.forecast.calibrated != b.case_.item.forecast.calibrated then a.case_.item.forecast.calibrated
            else a.Id() <= b.Id()))
  }

  function Filter(xs: seq<Scored>, keep: Scored -> bool): (r: seq<Scored>)
    ensures forall x :: x in r <==> x in xs && keep(x)
    ensures |r| <= |xs|
  {
    if xs == [] then []
    else Filter(xs[..|xs| - 1], keep) + (if keep(xs[|xs| - 1]) then [xs[|xs| - 1]] else [])
  }

  function IsEligible(): Scored -> bool { (s: Scored) => s.candidate.eligible }
  function OfExposure(e: int): Scored -> bool { (s: Scored) => s.Exposure() == e }
  function HeldIn(e: int): Scored -> bool { (s: Scored) => s.case_.current > 0.0 && s.Exposure() == e }
  function AmongIds(ids: set<int>): Scored -> bool { (s: Scored) => s.Id() in ids }

  function Ranked(scored: seq<Scored>): seq<Scored> { Sorting.Sort(RanksBefore, Filter(scored, IsEligible())) }

  function Ids(xs: seq<Scored>): set<int> { set s | s in xs :: s.Id() }

  datatype Choice = Choice(selected: Option<int>, duplicates: set<int>, switchExit: Option<int>)

  function ExitBps(desk: Desk, held: Scored): real
    requires held.case_.current > 0.0
  {
    CostOf(desk, held.case_, 0.0, held.case_.current).totalBps
  }

  /** What happens to one exposure, given its holding and its eligible products in rank order. */
  function Choose(desk: Desk, holding: Option<Scored>, ranked: seq<Scored>): Choice
    requires holding.Some? ==> holding.value.case_.current > 0.0 && (holding.value.candidate.eligible ==> ranked != [])
  {
    if holding.None? then
      if ranked == [] then Choice(None, {}, None) else Choice(Some(ranked[0].Id()), Ids(ranked[1..]), None)
    else if !holding.value.candidate.eligible then Choice(None, Ids(ranked), None)
    else if ranked[0].Id() == holding.value.Id() then Choice(Some(holding.value.Id()), Ids(ranked[1..]), None)
    else if ranked[0].candidate.netBps - ExitBps(desk, holding.value) > holding.value.candidate.netBps then
      Choice(None, Ids(ranked), Some(holding.value.Id()))
    else Choice(Some(holding.value.Id()), Ids(ranked) - {holding.value.Id()}, None)
  }

  /** Some eligible product of the exposure beats the holding by more than leaving the holding costs. */
  ghost predicate Beaten(desk: Desk, held: Scored, ranked: seq<Scored>)
    requires held.case_.current > 0.0
  {
    exists s :: s in ranked && s.candidate.netBps - ExitBps(desk, held) > held.candidate.netBps
  }

  ghost predicate DistinctIds(xs: seq<Scored>)
  {
    forall i, j :: 0 <= i < j < |xs| ==> xs[i].Id() != xs[j].Id()
  }

  ghost predicate BestFirst(ranked: seq<Scored>)
  {
    forall s :: s in ranked ==> s.candidate.netBps <= ranked[0].candidate.netBps
  }

  lemma ExitIsNonNegative(desk: Desk, held: Scored)
    requires held.case_.current > 0.0
    ensures ExitBps(desk, held) >= 0.0
  {
    hide TransitionCost;
    CostIsNonNegative(desk.policy.cost, held.case_.legs, held.case_.current, 0.0, held.case_.current);
  }

  /**
   An exposure without a holding takes its best eligible product. A holding stays exactly when it is eligible and
   not beaten; when it is eligible and beaten it is left first, and nothing of the exposure is selected this cycle.
   */
  lemma {:induction false} ChoiceMeaning(desk: Desk, holding: Option<Scored>, ranked: seq<Scored>)
    requires BestFirst(ranked)
    requires DistinctIds(ranked)
    requires holding.Some? ==> holding.value.case_.current > 0.0 && (holding.value.candidate.eligible ==> holding.value in ranked)
    ensures
      var choice := Choose(desk, holding, ranked);
      if holding.None? then
        && choice.switchExit == None
        && (choice.selected == None <==> ranked == [])
        && (choice.selected.Some? ==> exists s :: s in ranked && s.Id() == choice.selected.value
                                                  && forall t :: t in ranked ==> t.candidate.netBps <= s.candidate.netBps)
      else
        var held := holding.value;
        && (choice.selected == Some(held.Id()) <==> held.candidate.eligible && !Beaten(desk, held, ranked))
        && (choice.selected != Some(held.Id()) ==> choice.selected == None)
        && (choice.switchExit == Some(held.Id()) <==> held.candidate.eligible && Beaten(desk, held, ranked))
        && (choice.switchExit != Some(held.Id()) ==> choice.switchExit == None)
    ensures
      var choice := Choose(desk, holding, ranked);
      choice.duplicates == if choice.selected.Some? then Ids(ranked) - {choice.selected.value} else Ids(ranked)
  {
    hide CostOf;
    if holding.Some? { ExitIsNonNegative(desk, holding.value); }
    if ranked != [] {
      assert ranked[0] in ranked;
      assert Ids(ranked) == Ids([ranked[0]]) + Ids(ranked[1..]);
    }
  }

  // ----- Sizing

  /** What a selected sleeve asks for: a holding below zero net keeps itself, a positive edge its downside-scaled size. */
  function Request(current: real, cap: real, netBps: real, share: real): real
  {
    if netBps <= 0.0 then MinR(current, cap) else MinR(cap, MaxR(current, MinR(cap, share)))
  }

  function Requested(desk: Desk, root: Root, s: Scored): real
  {
    Request(s.case_.current, s.candidate.evaluation, s.candidate.netBps,
            desk.equity * AllocationFraction(desk, root, s.case_, s.candidate))
  }

  /** A request split into the part already held and the part that needs new capital. */
  datatype Ask = Ask(retained: real, increment: real)
  {
    function Proposed(scale: real): real { retained + increment * scale }
  }

  function RetainedOf(a: Ask): real { a.retained }
  function IncrementOf(a: Ask): real { a.increment }

  function Split(requested: real, current: real): Ask
  {
    Ask(MinR(requested, current), requested - MinR(requested, current))
  }

  function AskFor(desk: Desk, root: Root, s: Scored): Ask { Split(Requested(desk, root, s), s.case_.current) }

  function Asks(desk: Desk, root: Root, allocation: seq<Scored>): (r: seq<Ask>)
    ensures |r| == |allocation| && forall i :: 0 <= i < |r| ==> r[i] == AskFor(desk, root, allocation[i])
  {
    if allocation == [] then []
    else Asks(desk, root, allocation[..|allocation| - 1]) + [AskFor(desk, root, allocation[|allocation| - 1])]
  }

  function TotalLimit(desk: Desk): real { desk.equity * desk.policy.maximumTotal }

  /** The common factor applied to every increment, and to nothing else. */
  function IncrementScale(limit: real, asks: seq<Ask>): real
  {
    var increments := SumBy(asks, IncrementOf);
    if increments > 0.0 then MinR(1.0, MaxR(limit - SumBy(asks, RetainedOf), 0.0) / increments) else 0.0
  }

  lemma ScaledWithinRoom(increments: real, room: real)
    requires increments > 0.0 && room >= 0.0
    ensures 0.0 <= MinR(1.0, room / increments) <= 1.0
    ensures increments * MinR(1.0, room / increments) <= room
  {
    var q := room / increments;
    assert q * increments == room;
    assert q >= 0.0;
    assert increments * MinR(1.0, q) <= increments * q by { assert MinR(1.0, q) <= q; }
  }

  lemma ScaleIsFraction(limit: real, asks: seq<Ask>)
    requires forall i :: 0 <= i < |asks| ==> asks[i].increment >= 0.0
    ensures 0.0 <= IncrementScale(limit, asks) <= 1.0
    ensures SumBy(asks, IncrementOf) * IncrementScale(limit, asks) <= MaxR(limit - SumBy(asks, RetainedOf), 0.0)
  {
    SumNonNegative(asks, IncrementOf);
    var increments, room := SumBy(asks, IncrementOf), MaxR(limit - SumBy(asks, RetainedOf), 0.0);
    if increments > 0.0 { ScaledWithinRoom(increments, room); }
  }

  lemma {:induction false} ProposedSum(asks: seq<Ask>, scale: real, finals: seq<real>)
    requires |finals| == |asks| && forall i :: 0 <= i < |asks| ==> finals[i] <= asks[i].Proposed(scale)
    ensures SumBy(finals, Itself) <= SumBy(asks, RetainedOf) + SumBy(asks, IncrementOf) * scale
  {
    if asks != [] {
      var n := |asks| - 1;
      ProposedSum(asks[..n], scale, finals[..n]);
      var a, b := SumBy(asks[..n], IncrementOf), asks[n].increment;
      assert (a + b) * scale == a * scale + b * scale;
    }
  }

  function Itself(x: real): real { x }

  /** For any number of sleeves, sizes within their scaled proposals stay within the limit, or within what is retained. */
  lemma {:induction false} TotalIsBounded(limit: real, asks: seq<Ask>, finals: seq<real>)
    requires forall i :: 0 <= i < |asks| ==> asks[i].increment >= 0.0
    requires |finals| == |asks| && forall i :: 0 <= i < |asks| ==> finals[i] <= asks[i].Proposed(IncrementScale(limit, asks))
    ensures SumBy(finals, Itself) <= MaxR(limit, SumBy(asks, RetainedOf))
  {
    ScaleIsFraction(limit, asks);
    ProposedSum(asks, IncrementScale(limit, asks), finals);
  }

  function ProposedAt(scale: real): Ask -> real { (a: Ask) => a.Proposed(scale) }

  lemma {:induction false} ProposedTotal(asks: seq<Ask>, scale: real)
    ensures SumBy(asks, ProposedAt(scale)) == SumBy(asks, RetainedOf) + Times(SumBy(asks, IncrementOf), scale)
  {
    if asks != [] {
      var n := |asks| - 1;
      ProposedTotal(asks[..n], scale);
      SumOfTimes(SumBy(asks[..n], IncrementOf), asks[n].increment, scale);
    }
  }

  lemma SumOfTimes(a: real, b: real, c: real)
    ensures Times(a + b, c) == Times(a, c) + b * c
  {
  }

  lemma RoomIsUsed(increments: real, room: real)
    requires increments > 0.0 && room >= 0.0
    ensures MinR(1.0, room / increments) == 1.0 || Times(increments, MinR(1.0, room / increments)) == room
  {
    assert (room / increments) * increments == room;
  }

  /** Increments are scaled down no further than the limit demands: scaled proposals use up all of it. */
  lemma {:induction false} ScaleUsesTheWholeLimit(limit: real, asks: seq<Ask>)
    requires SumBy(asks, IncrementOf) > 0.0
    ensures
      var scale := IncrementScale(limit, asks);
      scale == 1.0 || SumBy(asks, ProposedAt(scale)) == MaxR(limit, SumBy(asks, RetainedOf))
  {
    hide Times;
    var increments, room := SumBy(asks, IncrementOf), MaxR(limit - SumBy(asks, RetainedOf), 0.0);
    RoomIsUsed(increments, room);
    ProposedTotal(asks, IncrementScale(limit, asks));
  }

  /** The last review: the size actually proposed must justify itself. */
  function Review(desk: Desk, c: Case, proposed: real): (r: Option<Candidate>)
    ensures r.Some? ==> 0.0 < r.value.evaluation <= proposed && r.value.eligible
  {
    if proposed <= 0.0 then None
    else
      var candidate := EvaluateTransition(desk, c, proposed);
      if candidate.eligible then Some(candidate) else None
  }

  function SizeOf(review: Option<Candidate>): real { if review.Some? then review.value.evaluation else 0.0 }

  /** Scaling touches only increments: a proposal lies between what is retained and what was requested. */
  lemma {:induction false} ProposalKeepsHoldings(requested: real, current: real, scale: real)
    requires 0.0 <= scale <= 1.0
    ensures MinR(requested, current) <= Split(requested, current).Proposed(scale) <= requested
    ensures requested <= current ==> Split(requested, current).Proposed(scale) == requested
  {
    var x := Split(requested, current).increment;
    assert 0.0 <= x * scale <= x by { assert x * (1.0 - scale) >= 0.0; }
  }

  lemma RequestedBounds(desk: Desk, root: Root, s: Scored)
    requires s == Score(desk, s.case_)
    ensures 0.0 <= Requested(desk, root, s) <= s.candidate.evaluation
    ensures s.candidate.netBps <= 0.0 || !s.case_.item.newCapitalAllowed ==> Requested(desk, root, s) <= s.case_.current
  {
    hide EvaluateTransition, AllocationFraction;
  }

  /**
   The guarantee for new capital: a sleeve ends above its holding only if new capital is allowed, the entry window
   is open, and the net at that exact size, repriced and charged from the current state, is strictly positive.
   */
  lemma {:induction false} GrowthIsJustified(desk: Desk, root: Root, scale: real, s: Scored)
    requires s == Score(desk, s.case_) && 0.0 <= scale <= 1.0
    requires SizeOf(Review(desk, s.case_, AskFor(desk, root, s).Proposed(scale))) > s.case_.current
    ensures s.case_.item.newCapitalAllowed && s.case_.item.projectionCurrent
    ensures s.case_.item.AvailableAt() <= desk.asOf < s.case_.item.NewExposureValidUntil()
    ensures NetBps(desk, s.case_, SizeOf(Review(desk, s.case_, AskFor(desk, root, s).Proposed(scale)))) > 0.0
  {
    RequestedBounds(desk, root, s);
    ProposalKeepsHoldings(Requested(desk, root, s), s.case_.current, scale);
    var proposed := AskFor(desk, root, s).Proposed(scale);
    hide Requested, Score, NetBps, Ask.Proposed;
    EligibleIsJustified(desk, s.case_, proposed);
  }

  // ----- The decision

  /** The sleeve that holds the exposure: the first, and unless the decision is refused the only, one. */
  function Holding(scored: seq<Scored>, e: int): (r: Option<Scored>)
    ensures r.Some? ==> r.value in scored && r.value.case_.current > 0.0 && r.value.Exposure() == e
    ensures r.None? ==> forall s :: s in scored && s.Exposure() == e ==> s.case_.current <= 0.0
  {
    var held := Filter(scored, HeldIn(e));
    if held != [] then
      assert held[0] in held;
      Some(held[0])
    else
      assert forall s :: s in scored && HeldIn(e)(s) ==> s in held;
      None
  }

  /** Two sleeves hold products of one exposure. */
  predicate Clash(scored: seq<Scored>) {
    exists i, j :: 0 <= i < j < |scored| && scored[i].case_.current > 0.0 && scored[j].case_.current > 0.0
                   && scored[i].Exposure() == scored[j].Exposure()
  }

  function Contenders(scored: seq<Scored>, e: int): seq<Scored> { Filter(Ranked(scored), OfExposure(e)) }

  lemma InContenders(scored: seq<Scored>, e: int, s: Scored)
    ensures s in Contenders(scored, e) <==> s in scored && s.candidate.eligible && s.Exposure() == e
  {
    Sorting.SameElements(Ranked(scored), Filter(scored, IsEligible()));
  }

  function ChoiceFor(desk: Desk, scored: seq<Scored>, e: int): Choice
  {
    var holding := Holding(scored, e);
    if holding.Some? then
      InContenders(scored, e, holding.value);
      Choose(desk, holding, Contenders(scored, e))
    else Choose(desk, holding, Contenders(scored, e))
  }

  datatype Selection = Selection(selected: set<int>, duplicates: set<int>, switchExits: set<int>)

  function AsSet(o: Option<int>): set<int> { if o.Some? then {o.value} else {} }

  function Select(desk: Desk, scored: seq<Scored>, exposures: seq<int>): Selection
  {
    if exposures == [] then Selection({}, {}, {})
    else
      var before := Select(desk, scored, exposures[..|exposures| - 1]);
      var choice := ChoiceFor(desk, scored, exposures[|exposures| - 1]);
      Selection(before.selected + AsSet(choice.selected), before.duplicates + choice.duplicates,
                before.switchExits + AsSet(choice.switchExit))
  }

  /** Every exposure once, in order of first appearance. */
  function Exposures(scored: seq<Scored>): (r: seq<int>)
    ensures forall e :: e in r <==> exists s :: s in scored && s.Exposure() == e
  {
    if scored == [] then []
    else
      var before := Exposures(scored[..|scored| - 1]);
      var last := scored[|scored| - 1];
      assert scored == scored[..|scored| - 1] + [last];
      if last.Exposure() in before then before else before + [last.Exposure()]
  }

  datatype Plan = Plan(scored: seq<Scored>, selection: Selection, allocation: seq<Scored>, scale: real)

  function MakePlan(desk: Desk, root: Root, cases: seq<Case>): Plan
  {
    var scored := Scores(desk, cases);
    var selection := Select(desk, scored, Exposures(scored));
    var allocation := Filter(Ranked(scored), AmongIds(selection.selected));
    Plan(scored, selection, allocation, IncrementScale(TotalLimit(desk), Asks(desk, root, allocation)))
  }

  /** The evaluation that finally admits a sleeve, if any. */
  function Final(desk: Desk, root: Root, plan: Plan, s: Scored): (r: Option<Candidate>)
    ensures r.Some? ==> r.value.evaluation > 0.0
  {
    if s in plan.allocation then Review(desk, s.case_, AskFor(desk, root, s).Proposed(plan.scale)) else None
  }

  datatype Reason = HoldingValueExceedsExitCost | PositiveNetEdgeSelected | ProductSwitchExitFirst | ForecastInvalidCash
                  | ExposureCapacityExhaustedCash | AlternativeProductNotSelected | NonPositiveNetEdgeCash

  function ReasonOf(plan: Plan, s: Scored, final: Option<Candidate>): Reason
  {
    if final.Some? then (if final.value.netBps <= 0.0 then HoldingValueExceedsExitCost else PositiveNetEdgeSelected)
    else if s.Id() in plan.selection.switchExits then ProductSwitchExitFirst
    else if !s.candidate.forecastCurrent then ForecastInvalidCash
    else if s.candidate.eligible && s.Id() !in plan.selection.duplicates then ExposureCapacityExhaustedCash
    else if s.Id() in plan.selection.duplicates then AlternativeProductNotSelected
    else NonPositiveNetEdgeCash
  }

  datatype SleeveTarget = SleeveTarget(sleeveId: int, desired: real, grossBps: real, cost: Cost, netBps: real, reason: Reason)

  /** A target for every admitted sleeve, and an explicit zero for every holding that is not admitted. */
  function TargetFrom(desk: Desk, plan: Plan, s: Scored, final: Option<Candidate>): Option<SleeveTarget>
    requires final.Some? ==> final.value.evaluation > 0.0
  {
    var c := s.case_;
    if final.None? && c.current <= 0.0 then None
    else
      var desired := SizeOf(final);
      var evaluation := if desired > 0.0 then desired else c.current;
      var gross := if desired > 0.0 then RemainingGrossBps(c.item.GrossBps(), c.legs, c.current, evaluation) else 0.0;
      var cost := CostOf(desk, c, desired, evaluation);
      Some(SleeveTarget(s.Id(), desired, gross, cost, gross - cost.totalBps, ReasonOf(plan, s, final)))
  }

  function TargetOf(desk: Desk, root: Root, plan: Plan, s: Scored): Option<SleeveTarget>
  {
    TargetFrom(desk, plan, s, Final(desk, root, plan, s))
  }

  function Targets(desk: Desk, root: Root, plan: Plan, scored: seq<Scored>): seq<SleeveTarget>
  {
    if scored == [] then []
    else
      var target := TargetOf(desk, root, plan, scored[|scored| - 1]);
      Targets(desk, root, plan, scored[..|scored| - 1]) + (if target.Some? then [target.value] else [])
  }

  function MinInt(a: int, b: int): int { if a <= b then a else b }

  /** The decision lapses with the policy window, the caller's deadline and the support of every admitted sleeve. */
  function ValidUntil(desk: Desk, root: Root, plan: Plan, deadline: Option<int>, scored: seq<Scored>): int
  {
    if scored == [] then
      var window := desk.asOf + desk.policy.validity;
      if deadline.Some? then MinInt(window, deadline.value) else window
    else
      var s := scored[|scored| - 1];
      var before := ValidUntil(desk, root, plan, deadline, scored[..|scored| - 1]);
      match Final(desk, root, plan, s)
      case None => before
      case Some(candidate) => MinInt(before, SupportUntil(s.case_, candidate.evaluation))
  }

  function DesiredOf(t: SleeveTarget): real { t.desired }

  datatype PortfolioTarget = PortfolioTarget(validUntil: int, targets: seq<SleeveTarget>, selection: Selection)

  datatype DecideError = DeadlineNotInFuture | SleevesNotSorted | AccountMismatch | UncoveredHolding | QuotesDoNotMatch
                       | SpecsMissing | ReviewWithoutHolding | TwoHoldingsOfOneExposure | NoFutureValidity | ExceedsEquity

  function Conclude(desk: Desk, root: Root, deadline: Option<int>, cases: seq<Case>): Result<PortfolioTarget, DecideError>
  {
    var plan := MakePlan(desk, root, cases);
    if Clash(plan.scored) then Err(TwoHoldingsOfOneExposure)
    else
      var targets := Targets(desk, root, plan, plan.scored);
      var validUntil := ValidUntil(desk, root, plan, deadline, plan.scored);
      if desk.asOf >= validUntil then Err(NoFutureValidity)
      else if SumBy(targets, DesiredOf) > desk.equity then Err(ExceedsEquity)
      else Ok(PortfolioTarget(validUntil, targets, plan.selection))
  }

  // ----- What every decision guarantees

  predicate UniqueSleeves(cases: seq<Case>) { forall i, j :: 0 <= i < j < |cases| ==> cases[i].Id() < cases[j].Id() }

  /** The economics published with a positive target are those of the evaluation that admitted exactly that size. */
  lemma {:induction false} PublishedEconomicsAreJustified(desk: Desk, root: Root, plan: Plan, s: Scored)
    requires TargetOf(desk, root, plan, s).Some? && TargetOf(desk, root, plan, s).value.desired > 0.0
    ensures
      var t, final := TargetOf(desk, root, plan, s).value, Final(desk, root, plan, s);
      && final.Some? && final.value.eligible && Justified(desk, s.case_, final.value)
      && t.desired == final.value.evaluation && t.grossBps == final.value.grossBps && t.cost == final.value.cost
      && t.netBps == final.value.netBps == NetBps(desk, s.case_, t.desired)
  {
    hide RemainingGrossBps, TransitionCost, Ask.Proposed;
    EligibleIsJustified(desk, s.case_, AskFor(desk, root, s).Proposed(plan.scale));
  }

  lemma FinalIsSupported(desk: Desk, root: Root, plan: Plan, s: Scored)
    requires Final(desk, root, plan, s).Some?
    ensures desk.asOf < SupportUntil(s.case_, Final(desk, root, plan, s).value.evaluation)
  {
    hide EvaluateTransition, Ask.Proposed, SupportUntil, AskFor;
    EligibleIsJustified(desk, s.case_, AskFor(desk, root, s).Proposed(plan.scale));
  }

  /** Every admitted support outlives the decision's start, so a decision is never stillborn. */
  lemma {:induction false} DecisionLivesOn(desk: Desk, root: Root, plan: Plan, deadline: Option<int>, scored: seq<Scored>)
    requires deadline.Some? ==> desk.asOf < deadline.value
    ensures desk.asOf < ValidUntil(desk, root, plan, deadline, scored) <= desk.asOf + desk.policy.validity
    ensures deadline.Some? ==> ValidUntil(desk, root, plan, deadline, scored) <= deadline.value
    ensures forall s :: s in scored && Final(desk, root, plan, s).Some? ==>
              ValidUntil(desk, root, plan, deadline, scored) <= SupportUntil(s.case_, Final(desk, root, plan, s).value.evaluation)
  {
    hide Final, SupportUntil;
    if scored != [] {
      var n := |scored| - 1;
      DecisionLivesOn(desk, root, plan, deadline, scored[..n]);
      assert scored == scored[..n] + [scored[n]];
      if Final(desk, root, plan, scored[n]).Some? { FinalIsSupported(desk, root, plan, scored[n]); }
    }
  }

  // ----- One product per exposure

  function IdOf(s: Scored): int { s.Id() }

  lemma ScoresAreDistinct(desk: Desk, cases: seq<Case>)
    requires UniqueSleeves(cases)
    ensures Sorting.DistinctBy(IdOf, Scores(desk, cases))
  {
    hide EvaluateTransition;
  }

  lemma {:induction false} FilterKeepsDistinct(xs: seq<Scored>, keep: Scored -> bool)
    requires Sorting.DistinctBy(IdOf, xs)
    ensures Sorting.DistinctBy(IdOf, Filter(xs, keep))
  {
    if xs != [] {
      var n := |xs| - 1;
      var before := Filter(xs[..n], keep);
      FilterKeepsDistinct(xs[..n], keep);
      forall j | 0 <= j < |before| ensures IdOf(before[j]) != IdOf(xs[n]) {
        assert before[j] in xs[..n];
        var i :| 0 <= i < n && xs[i] == before[j];
      }
    }
  }

  lemma {:induction false} FilterKeepsOrder(xs: seq<Scored>, keep: Scored -> bool)
    requires Sorting.SortedBy(RanksBefore, xs)
    ensures Sorting.SortedBy(RanksBefore, Filter(xs, keep))
  {
    hide RanksBefore;
    if xs != [] {
      var n := |xs| - 1;
      var before := Filter(xs[..n], keep);
      FilterKeepsOrder(xs[..n], keep);
      forall j | 0 <= j < |before| ensures RanksBefore(before[j], xs[n]) {
        assert before[j] in xs[..n];
        var i :| 0 <= i < n && xs[i] == before[j];
      }
    }
  }

  lemma RanksAreTotal(xs: seq<Scored>)
    requires Sorting.DistinctBy(IdOf, xs)
    ensures Sorting.TotalOn(RanksBefore, set s | s in xs)
  {
    forall a, b | a in xs && b in xs && RanksBefore(a, b) && RanksBefore(b, a) ensures a == b {
      var i :| 0 <= i < |xs| && xs[i] == a;
      var j :| 0 <= j < |xs| && xs[j] == b;
      assert IdOf(a) == IdOf(b);
    }
  }

  lemma RankedIsOrdered(scored: seq<Scored>)
    requires Sorting.DistinctBy(IdOf, scored)
    ensures Sorting.SortedBy(RanksBefore, Ranked(scored)) && Sorting.DistinctBy(IdOf, Ranked(scored))
    ensures multiset(Ranked(scored)) == multiset(Filter(scored, IsEligible()))
  {
    var eligible := Filter(scored, IsEligible());
    FilterKeepsDistinct(scored, IsEligible());
    RanksAreTotal(eligible);
    Sorting.SortSorts(RanksBefore, (set s | s in eligible), eligible);
    Sorting.DistinctIgnoresOrder(IdOf, eligible, Ranked(scored));
  }

  lemma ContendersAreOrdered(scored: seq<Scored>, e: int)
    requires Sorting.DistinctBy(IdOf, scored)
    ensures DistinctIds(Contenders(scored, e)) && BestFirst(Contenders(scored, e))
  {
    RankedIsOrdered(scored);
    FilterKeepsDistinct(Ranked(scored), OfExposure(e));
    FilterKeepsOrder(Ranked(scored), OfExposure(e));
    var ranked := Contenders(scored, e);
    forall s | s in ranked ensures s.candidate.netBps <= ranked[0].candidate.netBps {
      var i :| 0 <= i < |ranked| && ranked[i] == s;
      assert i == 0 || RanksBefore(ranked[0], ranked[i]);
    }
    forall i, j | 0 <= i < j < |ranked| ensures ranked[i].Id() != ranked[j].Id() {
      assert IdOf(ranked[i]) != IdOf(ranked[j]);
    }
  }

  /** Selection, exposure by exposure, in terms of the sleeves alone. */
  lemma {:induction false} SelectionMeaning(desk: Desk, cases: seq<Case>, e: int)
    requires UniqueSleeves(cases)
    ensures
      var scored := Scores(desk, cases);
      var choice, ranked := ChoiceFor(desk, scored, e), Contenders(scored, e);
      if Holding(scored, e).None? then
        && choice.switchExit == None
        && (choice.selected == None <==> ranked == [])
        && (choice.selected.Some? ==> exists s :: s in ranked && s.Id() == choice.selected.value
                                                  && forall t :: t in ranked ==> t.candidate.netBps <= s.candidate.netBps)
      else
        var held := Holding(scored, e).value;
        && (choice.selected == Some(held.Id()) <==> held.candidate.eligible && !Beaten(desk, held, ranked))
        && (choice.selected != Some(held.Id()) ==> choice.selected == None)
        && (choice.switchExit == Some(held.Id()) <==> held.candidate.eligible && Beaten(desk, held, ranked))
        && (choice.switchExit != Some(held.Id()) ==> choice.switchExit == None)
  {
    hide Choose, EvaluateTransition, ExitBps;
    var scored := Scores(desk, cases);
    ScoresAreDistinct(desk, cases);
    ContendersAreOrdered(scored, e);
    var holding := Holding(scored, e);
    if holding.Some? { InContenders(scored, e, holding.value); }
    ChoiceMeaning(desk, holding, Contenders(scored, e));
  }

  lemma {:induction false} SelectedExactlyWhen(desk: Desk, scored: seq<Scored>, exposures: seq<int>, id: int)
    ensures id in Select(desk, scored, exposures).selected
            <==> exists e :: e in exposures && ChoiceFor(desk, scored, e).selected == Some(id)
  {
    hide ChoiceFor;
    if exposures != [] {
      var n := |exposures| - 1;
      SelectedExactlyWhen(desk, scored, exposures[..n], id);
      assert exposures == exposures[..n] + [exposures[n]];
    }
  }

  /** A selected id belongs to a contender of the exposure that selected it. */
  lemma ChosenContends(desk: Desk, scored: seq<Scored>, e: int, id: int) returns (s: Scored)
    requires ChoiceFor(desk, scored, e).selected == Some(id)
    ensures s in scored && s.Id() == id && s.Exposure() == e && s.candidate.eligible
  {
    var ranked := Contenders(scored, e);
    var holding := Holding(scored, e);
    s := if holding.Some? then holding.value else ranked[0];
    InContenders(scored, e, s);
  }

  lemma SameIdSameScore(scored: seq<Scored>, s: Scored, t: Scored)
    requires Sorting.DistinctBy(IdOf, scored) && s in scored && t in scored && s.Id() == t.Id()
    ensures s == t
  {
    var i :| 0 <= i < |scored| && scored[i] == s;
    var j :| 0 <= j < |scored| && scored[j] == t;
    assert IdOf(scored[i]) == IdOf(scored[j]);
  }

  /** Whoever receives capital is eligible and is the choice of its own exposure. */
  lemma AllocatedMeans(desk: Desk, root: Root, cases: seq<Case>, s: Scored)
    requires UniqueSleeves(cases)
    ensures
      var plan := MakePlan(desk, root, cases);
      s in plan.allocation <==>
        s in plan.scored && s.candidate.eligible && ChoiceFor(desk, plan.scored, s.Exposure()).selected == Some(s.Id())
  {
    hide ChoiceFor, Choose, EvaluateTransition, IncrementScale, Asks;
    var plan := MakePlan(desk, root, cases);
    var scored := plan.scored;
    ScoresAreDistinct(desk, cases);
    Sorting.SameElements(Ranked(scored), Filter(scored, IsEligible()));
    SelectedExactlyWhen(desk, scored, Exposures(scored), s.Id());
    if s in plan.allocation {
      var e :| e in Exposures(scored) && ChoiceFor(desk, scored, e).selected == Some(s.Id());
      var t := ChosenContends(desk, scored, e, s.Id());
      SameIdSameScore(scored, s, t);
    }
  }

  /** At most one sleeve per economic exposure ends with a positive target. */
  lemma {:induction false} OneProductPerExposure(desk: Desk, root: Root, cases: seq<Case>, s: Scored, t: Scored)
    requires UniqueSleeves(cases)
    requires
      var plan := MakePlan(desk, root, cases);
      && s in plan.scored && t in plan.scored && s.Exposure() == t.Exposure()
      && Final(desk, root, plan, s).Some? && Final(desk, root, plan, t).Some?
    ensures s == t
  {
    hide ChoiceFor, Review, IncrementScale, Asks, Select, Filter;
    var plan := MakePlan(desk, root, cases);
    AllocatedMeans(desk, root, cases, s);
    AllocatedMeans(desk, root, cases, t);
    ScoresAreDistinct(desk, cases);
    SameIdSameScore(plan.scored, s, t);
  }

  /** A product switch exits first: while its holding is beaten, the exposure receives no capital at all. */
  lemma {:induction false} SwitchExitsFirst(desk: Desk, root: Root, cases: seq<Case>, s: Scored)
    requires UniqueSleeves(cases)
    requires s in Scores(desk, cases) && Holding(Scores(desk, cases), s.Exposure()).Some?
    requires Beaten(desk, Holding(Scores(desk, cases), s.Exposure()).value, Contenders(Scores(desk, cases), s.Exposure()))
    ensures Final(desk, root, MakePlan(desk, root, cases), s) == None
  {
    hide ChoiceFor, Review, Beaten, IncrementScale, Asks, Select, Filter;
    AllocatedMeans(desk, root, cases, s);
    SelectionMeaning(desk, cases, s.Exposure());
  }

  // ----- The total

  function FinalSize(desk: Desk, root: Root, plan: Plan): Scored -> real
  {
    (s: Scored) => SizeOf(Final(desk, root, plan, s))
  }

  lemma {:induction false} FilterSum(xs: seq<Scored>, keep: Scored -> bool, g: Scored -> real)
    requires forall x :: x in xs && !keep(x) ==> g(x) == 0.0
    ensures SumBy(Filter(xs, keep), g) == SumBy(xs, g)
  {
    if xs != [] {
      var n := |xs| - 1;
      var before := Filter(xs[..n], keep);
      FilterSum(xs[..n], keep, g);
      assert xs[n] in xs;
      SumPush(before, xs[n], g);
      assert before + [] == before;
    }
  }

  lemma TargetSize(desk: Desk, root: Root, plan: Plan, s: Scored)
    ensures
      var t := TargetOf(desk, root, plan, s);
      SizeOf(Final(desk, root, plan, s)) == if t.Some? then t.value.desired else 0.0
  {
    hide Final, CostOf, RemainingGrossBps, ReasonOf;
  }

  lemma {:induction false} TargetsSum(desk: Desk, root: Root, plan: Plan, scored: seq<Scored>)
    ensures SumBy(Targets(desk, root, plan, scored), DesiredOf) == SumBy(scored, FinalSize(desk, root, plan))
  {
    hide Final, TargetOf;
    if scored != [] {
      var n := |scored| - 1;
      TargetsSum(desk, root, plan, scored[..n]);
      TargetSize(desk, root, plan, scored[n]);
      var before, target := Targets(desk, root, plan, scored[..n]), TargetOf(desk, root, plan, scored[n]);
      assert before + [] == before;
      if target.Some? { SumPush(before, target.value, DesiredOf); }
    }
  }

  /** Only the allocation carries size, in whatever order it is summed. */
  lemma SizeIsAllocated(desk: Desk, root: Root, cases: seq<Case>)
    requires UniqueSleeves(cases)
    ensures
      var plan := MakePlan(desk, root, cases);
      SumBy(plan.scored, FinalSize(desk, root, plan)) == SumBy(plan.allocation, FinalSize(desk, root, plan))
  {
    hide Select, IncrementScale, Asks, Review, EvaluateTransition;
    var plan := MakePlan(desk, root, cases);
    var g := FinalSize(desk, root, plan);
    var eligible, ranked := Filter(plan.scored, IsEligible()), Ranked(plan.scored);
    ScoresAreDistinct(desk, cases);
    RankedIsOrdered(plan.scored);
    Sorting.SameElements(ranked, eligible);
    FilterSum(ranked, AmongIds(plan.selection.selected), g);
    SumPermutation(ranked, eligible, g);
    FilterSum(plan.scored, IsEligible(), g);
  }

  lemma {:induction false} MapSum(xs: seq<Scored>, g: Scored -> real, values: seq<real>)
    requires |values| == |xs| && forall i :: 0 <= i < |xs| ==> values[i] == g(xs[i])
    ensures SumBy(values, Itself) == SumBy(xs, g)
  {
    if xs != [] { MapSum(xs[..|xs| - 1], g, values[..|xs| - 1]); }
  }

  lemma PlanFacts(desk: Desk, root: Root, cases: seq<Case>)
    ensures
      var plan := MakePlan(desk, root, cases);
      && plan.scored == Scores(desk, cases)
      && (forall s :: s in plan.allocation ==> s in plan.scored && s == Score(desk, s.case_))
      && 0.0 <= plan.scale <= 1.0
      && plan.scale == IncrementScale(TotalLimit(desk), Asks(desk, root, plan.allocation))
  {
    PlanScale(desk, root, cases);
    PlanAllocation(desk, root, cases);
    hide MakePlan;
    forall s | s in MakePlan(desk, root, cases).allocation ensures s == Score(desk, s.case_) {
      ScoredOnce(desk, cases, s);
    }
  }

  lemma ScoredOnce(desk: Desk, cases: seq<Case>, s: Scored)
    requires s in Scores(desk, cases)
    ensures s == Score(desk, s.case_)
  {
    hide EvaluateTransition;
  }

  lemma PlanAllocation(desk: Desk, root: Root, cases: seq<Case>)
    ensures MakePlan(desk, root, cases).scored == Scores(desk, cases)
    ensures forall s :: s in MakePlan(desk, root, cases).allocation ==> s in Scores(desk, cases)
  {
    hide Select, IncrementScale, Scores, Asks;
    var plan := MakePlan(desk, root, cases);
    Sorting.SameElements(Ranked(plan.scored), Filter(plan.scored, IsEligible()));
  }

  lemma PlanScale(desk: Desk, root: Root, cases: seq<Case>)
    ensures
      var plan := MakePlan(desk, root, cases);
      0.0 <= plan.scale <= 1.0 && plan.scale == IncrementScale(TotalLimit(desk), Asks(desk, root, plan.allocation))
  {
    hide Select, IncrementScale, Scores, Requested, Ranked, TotalLimit;
    var plan := MakePlan(desk, root, cases);
    ScaleIsFraction(TotalLimit(desk), Asks(desk, root, plan.allocation));
  }

  /** The final size never exceeds the proposal, whose holding part is untouched by scaling. */
  lemma FinalWithinProposal(desk: Desk, root: Root, scale: real, s: Scored)
    requires s == Score(desk, s.case_) && 0.0 <= scale <= 1.0
    ensures
      var ask := AskFor(desk, root, s);
      && 0.0 <= ask.retained <= ask.Proposed(scale)
      && SizeOf(Review(desk, s.case_, ask.Proposed(scale))) <= ask.Proposed(scale)
  {
    RequestedBounds(desk, root, s);
    ProposalKeepsHoldings(Requested(desk, root, s), s.case_.current, scale);
    hide Requested, Score, EvaluateTransition, Ask.Proposed;
  }

  /** However many sleeves compete, the decision exceeds the total limit only by what it merely keeps. */
  lemma {:induction false} DecisionStaysWithinLimit(desk: Desk, root: Root, cases: seq<Case>)
    requires UniqueSleeves(cases)
    ensures
      var plan := MakePlan(desk, root, cases);
      SumBy(Targets(desk, root, plan, plan.scored), DesiredOf)
      <= MaxR(TotalLimit(desk), SumBy(Asks(desk, root, plan.allocation), RetainedOf))
  {
    hide MakePlan, Final, TotalLimit, Requested, Ask.Proposed, IncrementScale, Targets, AskFor;
    var plan := MakePlan(desk, root, cases);
    PlanFacts(desk, root, cases);
    TargetsSum(desk, root, plan, plan.scored);
    SizeIsAllocated(desk, root, cases);
    var g, asks := FinalSize(desk, root, plan), Asks(desk, root, plan.allocation);
    var finals := seq(|plan.allocation|, i requires 0 <= i < |plan.allocation| => g(plan.allocation[i]));
    MapSum(plan.allocation, g, finals);
    forall i | 0 <= i < |asks| ensures asks[i].increment >= 0.0 && finals[i] <= asks[i].Proposed(plan.scale) {
      AllocatedWithinProposal(desk, root, plan, i);
    }
    TotalIsBounded(TotalLimit(desk), asks, finals);
  }

  lemma AllocatedWithinProposal(desk: Desk, root: Root, plan: Plan, i: nat)
    requires i < |plan.allocation| && 0.0 <= plan.scale <= 1.0
    requires forall s :: s in plan.allocation ==> s == Score(desk, s.case_)
    ensures AskFor(desk, root, plan.allocation[i]).increment >= 0.0
    ensures FinalSize(desk, root, plan)(plan.allocation[i]) <= AskFor(desk, root, plan.allocation[i]).Proposed(plan.scale)
  {
    hide Score, Review, Requested, Ask.Proposed;
    assert plan.allocation[i] in plan.allocation;
    FinalWithinProposal(desk, root, plan.scale, plan.allocation[i]);
  }

  // ----- The decision as published

  /**
   A target above its holding moved new capital on a strictly positive net at that very size, inside the entry
   window. A smaller positive target keeps its support and beats leaving now. A holding always gets a target.
   */
  lemma CapitalMovesOnlyWhenJustified(desk: Desk, root: Root, plan: Plan, s: Scored, t: SleeveTarget)
    requires s == Score(desk, s.case_) && 0.0 <= plan.scale <= 1.0
    requires TargetOf(desk, root, plan, s) == Some(t)
    ensures t.desired > 0.0 ==> t.netBps == NetBps(desk, s.case_, t.desired)
    ensures t.desired > s.case_.current ==>
              && s.case_.item.newCapitalAllowed && s.case_.item.projectionCurrent
              && s.case_.item.AvailableAt() <= desk.asOf < s.case_.item.NewExposureValidUntil()
              && t.netBps > 0.0
    ensures 0.0 < t.desired <= s.case_.current ==>
              && s.case_.item.projectionCurrent && s.case_.item.AvailableAt() <= desk.asOf < s.case_.item.ValidUntil()
              && (t.netBps > 0.0 || t.netBps > -CostOf(desk, s.case_, 0.0, t.desired).totalBps)
  {
    hide NetBps, CostOf, RemainingGrossBps, ReasonOf, Score, AskFor, Ask.Proposed, EvaluateTransition;
    if t.desired > 0.0 {
      PublishedEconomicsAreJustified(desk, root, plan, s);
      TargetSize(desk, root, plan, s);
      if t.desired > s.case_.current { GrowthIsJustified(desk, root, plan.scale, s); }
    }
  }

  lemma {:induction false} TargetIsListed(desk: Desk, root: Root, plan: Plan, scored: seq<Scored>, k: nat)
    requires k < |scored| && TargetOf(desk, root, plan, scored[k]).Some?
    ensures TargetOf(desk, root, plan, scored[k]).value in Targets(desk, root, plan, scored)
  {
    hide TargetOf;
    if k < |scored| - 1 { TargetIsListed(desk, root, plan, scored[..|scored| - 1], k); }
  }

  lemma {:induction false} ListedTargetIsMade(desk: Desk, root: Root, plan: Plan, scored: seq<Scored>, t: SleeveTarget) returns (k: nat)
    requires t in Targets(desk, root, plan, scored)
    ensures k < |scored| && TargetOf(desk, root, plan, scored[k]) == Some(t)
  {
    hide TargetOf;
    var n := |scored| - 1;
    if t in Targets(desk, root, plan, scored[..n]) {
      k := ListedTargetIsMade(desk, root, plan, scored[..n], t);
    } else {
      k := n;
    }
  }

  lemma Published(desk: Desk, root: Root, deadline: Option<int>, cases: seq<Case>)
    requires Conclude(desk, root, deadline, cases).Ok?
    ensures
      var plan := MakePlan(desk, root, cases);
      && plan.scored == Scores(desk, cases) && 0.0 <= plan.scale <= 1.0
      && Conclude(desk, root, deadline, cases).value.targets == Targets(desk, root, plan, Scores(desk, cases))
      && Conclude(desk, root, deadline, cases).value.validUntil == ValidUntil(desk, root, plan, deadline, Scores(desk, cases))
  {
    hide MakePlan, Scores, ValidUntil, Targets, IncrementScale, Asks;
    PlanFacts(desk, root, cases);
  }

  /** Every published target belongs to a sleeve, moves capital only when justified, and lives beyond the decision's start. */
  lemma {:induction false} PublishedTargetsAreJustified(desk: Desk, root: Root, deadline: Option<int>, cases: seq<Case>, t: SleeveTarget)
    returns (c: Case)
    requires deadline.Some? ==> desk.asOf < deadline.value
    requires Conclude(desk, root, deadline, cases).Ok? && t in Conclude(desk, root, deadline, cases).value.targets
    ensures c in cases && c.Id() == t.sleeveId
    ensures t.desired > 0.0 ==>
              && t.netBps == NetBps(desk, c, t.desired)
              && Conclude(desk, root, deadline, cases).value.validUntil <= SupportUntil(c, t.desired)
    ensures t.desired > c.current ==>
              && c.item.newCapitalAllowed && c.item.projectionCurrent
              && c.item.AvailableAt() <= desk.asOf < c.item.NewExposureValidUntil() && t.netBps > 0.0
    ensures 0.0 < t.desired <= c.current ==>
              && c.item.projectionCurrent && c.item.AvailableAt() <= desk.asOf < c.item.ValidUntil()
              && (t.netBps > 0.0 || t.netBps > -CostOf(desk, c, 0.0, t.desired).totalBps)
  {
    hide Conclude, MakePlan, NetBps, CostOf, Targets, ValidUntil, SupportUntil, Score, Ask.Proposed, TargetOf;
    var plan := MakePlan(desk, root, cases);
    Published(desk, root, deadline, cases);
    var k := ListedTargetIsMade(desk, root, plan, plan.scored, t);
    c := cases[k];
    TargetSize(desk, root, plan, plan.scored[k]);
    TargetNames(desk, root, plan, plan.scored[k]);
    ScoreOf(desk, c);
    CapitalMovesOnlyWhenJustified(desk, root, plan, plan.scored[k], t);
    DecisionLivesOn(desk, root, plan, deadline, plan.scored);
  }

  lemma ScoreOf(desk: Desk, c: Case)
    ensures Score(desk, c).case_ == c
  {
  }

  lemma TargetNames(desk: Desk, root: Root, plan: Plan, s: Scored)
    ensures TargetOf(desk, root, plan, s).Some? ==> TargetOf(desk, root, plan, s).value.sleeveId == s.Id()
    ensures s.case_.current > 0.0 ==> TargetOf(desk, root, plan, s).Some?
  {
    hide CostOf, RemainingGrossBps, Final, ReasonOf;
  }

  /** Every holding receives an explicit target, if only to leave. */
  lemma {:induction false} EveryHoldingIsAnswered(desk: Desk, root: Root, deadline: Option<int>, cases: seq<Case>, k: nat)
    requires k < |cases| && cases[k].current > 0.0 && Conclude(desk, root, deadline, cases).Ok?
    ensures exists t :: t in Conclude(desk, root, deadline, cases).value.targets && t.sleeveId == cases[k].Id()
  {
    hide Conclude, MakePlan, ValidUntil, Score, TargetOf, Targets;
    var plan := MakePlan(desk, root, cases);
    Published(desk, root, deadline, cases);
    ScoreOf(desk, cases[k]);
    TargetNames(desk, root, plan, plan.scored[k]);
    TargetIsListed(desk, root, plan, plan.scored, k);
  }

  /** The equity check only refuses a decision whose kept holdings alone exceed the equity; no decision is stillborn. */
  lemma {:induction false} RefusalsAreExplained(desk: Desk, root: Root, deadline: Option<int>, cases: seq<Case>)
    requires UniqueSleeves(cases) && (deadline.Some? ==> desk.asOf < deadline.value)
    ensures Conclude(desk, root, deadline, cases) != Err(NoFutureValidity)
    ensures Conclude(desk, root, deadline, cases) == Err(ExceedsEquity) ==>
              SumBy(Asks(desk, root, MakePlan(desk, root, cases).allocation), RetainedOf) > desk.equity
  {
    hide MakePlan, ValidUntil, Score, Asks, Targets, Clash;
    var plan := MakePlan(desk, root, cases);
    DecisionLivesOn(desk, root, plan, deadline, plan.scored);
    DecisionStaysWithinLimit(desk, root, cases);
    LimitIsWithinEquity(desk);
    hide TotalLimit;
  }

  lemma LimitIsWithinEquity(desk: Desk)
    ensures TotalLimit(desk) <= desk.equity
  {
    assert desk.equity * (1.0 - desk.policy.maximumTotal) >= 0.0;
  }

  // ----- The algorithm

  method EvaluateAll(desk: Desk, cases: seq<Case>) returns (scored: seq<Scored>)
    ensures scored == Scores(desk, cases)
  {
    hide EvaluateTransition, CandidateNotional;
    scored := [];
    for i := 0 to |cases|
      invariant |scored| == i && forall j :: 0 <= j < i ==> scored[j] == Score(desk, cases[j])
    {
      var maximum := CandidateNotional(desk, cases[i]);
      scored := scored + [Scored(cases[i], EvaluateTransition(desk, cases[i], maximum))];
    }
  }

  lemma HoldingIsFirst(scored: seq<Scored>, e: int)
    ensures
      var held := Filter(scored, HeldIn(e));
      Holding(scored, e) == if held == [] then None else Some(held[0])
  {
  }

  lemma HeldInOneMore(scored: seq<Scored>, i: nat, e: int)
    requires i < |scored|
    ensures Filter(scored[..i + 1], HeldIn(e))
            == Filter(scored[..i], HeldIn(e)) + if scored[i].case_.current > 0.0 && scored[i].Exposure() == e then [scored[i]] else []
  {
    assert scored[..i + 1][..i] == scored[..i];
  }

  lemma NoneHeldBefore(scored: seq<Scored>, i: nat, e: int)
    requires i < |scored| && !Clash(scored[..i + 1]) && scored[i].case_.current > 0.0 && scored[i].Exposure() == e
    ensures Filter(scored[..i], HeldIn(e)) == []
  {
    hide Clash;
    var held := Filter(scored[..i], HeldIn(e));
    if held != [] {
      assert held[0] in held;
      var j :| 0 <= j < i && scored[..i][j] == held[0];
      PairClashes(scored[..i + 1], j, i);
    }
  }

  lemma PairClashes(scored: seq<Scored>, a: nat, b: nat)
    requires ClashesAt(scored, a, b)
    ensures Clash(scored)
  {
  }

  lemma HoldingOfOneMore(scored: seq<Scored>, i: nat, e: int)
    requires i < |scored| && !Clash(scored[..i + 1])
    ensures !Clash(scored[..i])
    ensures Holding(scored[..i + 1], e) == if scored[i].case_.current > 0.0 && scored[i].Exposure() == e then Some(scored[i])
                                           else Holding(scored[..i], e)
  {
    hide Clash, Holding, Filter;
    var longer := scored[..i + 1];
    assert longer[..i] == scored[..i];
    if Clash(scored[..i]) { ClashPersists(longer, i); }
    HoldingIsFirst(scored[..i], e);
    HoldingIsFirst(longer, e);
    HeldInOneMore(scored, i, e);
    if scored[i].case_.current > 0.0 && scored[i].Exposure() == e { NoneHeldBefore(scored, i, e); }
  }

  lemma HoldingIsEarlier(scored: seq<Scored>, i: nat, e: int) returns (j: nat)
    requires i <= |scored| && Holding(scored[..i], e).Some?
    ensures j < i && scored[j] == Holding(scored[..i], e).value
  {
    j :| 0 <= j < i && scored[..i][j] == Holding(scored[..i], e).value;
  }

  /** The sleeve at i clashes with an earlier one exactly when the recorded holding of its exposure is another sleeve. */
  lemma ClashAt(scored: seq<Scored>, i: nat)
    requires i < |scored| && Sorting.DistinctBy(IdOf, scored) && !Clash(scored[..i])
    ensures
      var s := scored[i];
      var holding := Holding(scored[..i], s.Exposure());
      Clash(scored[..i + 1]) <==> s.case_.current > 0.0 && holding.Some? && holding.value.Id() != s.Id()
  {
    if scored[i].case_.current > 0.0 && Holding(scored[..i], scored[i].Exposure()).Some? {
      var j := HoldingIsEarlier(scored, i, scored[i].Exposure());
      assert IdOf(scored[j]) != IdOf(scored[i]);
      assert scored[..i + 1][j] == scored[j] && scored[..i + 1][i] == scored[i];
    }
    if Clash(scored[..i + 1]) { ClashNeedsHolding(scored, i); }
  }

  predicate ClashesAt(scored: seq<Scored>, a: int, b: int)
  {
    && 0 <= a < b < |scored| && scored[a].case_.current > 0.0 && scored[b].case_.current > 0.0
    && scored[a].Exposure() == scored[b].Exposure()
  }

  lemma ClashPair(scored: seq<Scored>) returns (a: nat, b: nat)
    requires Clash(scored)
    ensures ClashesAt(scored, a, b)
  {
    a, b :| 0 <= a < b < |scored| && scored[a].case_.current > 0.0 && scored[b].case_.current > 0.0
            && scored[a].Exposure() == scored[b].Exposure();
  }

  lemma EarlierClash(scored: seq<Scored>, i: nat, a: nat, b: nat)
    requires i < |scored| && ClashesAt(scored[..i + 1], a, b) && b < i
    ensures Clash(scored[..i])
  {
    assert ClashesAt(scored[..i], a, b);
  }

  lemma HolderIsFound(scored: seq<Scored>, i: nat, a: nat)
    requires a < i < |scored| && ClashesAt(scored[..i + 1], a, i)
    ensures scored[i].case_.current > 0.0 && Holding(scored[..i], scored[i].Exposure()).Some?
  {
    assert scored[..i][a] == scored[a] && scored[..i][a] in scored[..i];
  }

  lemma ClashNeedsHolding(scored: seq<Scored>, i: nat)
    requires i < |scored| && !Clash(scored[..i]) && Clash(scored[..i + 1])
    ensures scored[i].case_.current > 0.0 && Holding(scored[..i], scored[i].Exposure()).Some?
  {
    hide Clash, Holding;
    var a, b := ClashPair(scored[..i + 1]);
    if b < i { EarlierClash(scored, i, a, b); } else { HolderIsFound(scored, i, a); }
  }

  lemma {:induction false} ClashPersists(scored: seq<Scored>, i: nat)
    requires i <= |scored| && Clash(scored[..i])
    ensures Clash(scored)
  {
    var a, b :| 0 <= a < b < i && scored[..i][a].case_.current > 0.0 && scored[..i][b].case_.current > 0.0
                && scored[..i][a].Exposure() == scored[..i][b].Exposure();
    assert scored[a] == scored[..i][a] && scored[b] == scored[..i][b];
  }

  /** Which sleeve holds each exposure, or nothing when an exposure is held twice. */
  method CurrentExpressions(scored: seq<Scored>) returns (r: Option<map<int, Scored>>)
    requires Sorting.DistinctBy(IdOf, scored)
    ensures r.None? <==> Clash(scored)
    ensures r.Some? ==> Records(r.value, scored)
  {
    hide Holding, Clash;
    var current: map<int, Scored> := map[];
    NothingHeld();
    for i := 0 to |scored|
      invariant !Clash(scored[..i]) && Records(current, scored[..i])
    {
      var s := scored[i];
      var e := s.Exposure();
      ClashAt(scored, i);
      if s.case_.current > 0.0 && e in current && current[e].Id() != s.Id() {
        ClashPersists(scored, i + 1);
        return None;
      }
      forall x { HoldingOfOneMore(scored, i, x); }
      if s.case_.current > 0.0 { current := current[e := s]; }
    }
    assert scored[..|scored|] == scored;
    return Some(current);
  }

  ghost predicate Records(current: map<int, Scored>, scored: seq<Scored>)
  {
    forall e :: if e in current then Holding(scored, e) == Some(current[e]) else Holding(scored, e) == None
  }

  lemma NothingHeld()
    ensures !Clash([]) && Records(map[], [])
  {
  }

  function Group(groups: map<int, seq<Scored>>, e: int): seq<Scored> { if e in groups then groups[e] else [] }

  ghost predicate Groups(groups: map<int, seq<Scored>>, ranked: seq<Scored>)
  {
    forall e :: Group(groups, e) == Filter(ranked, OfExposure(e))
  }

  lemma GroupOfOneMore(ranked: seq<Scored>, i: nat, e: int)
    requires i < |ranked|
    ensures Filter(ranked[..i + 1], OfExposure(e))
            == Filter(ranked[..i], OfExposure(e)) + if ranked[i].Exposure() == e then [ranked[i]] else []
  {
    assert ranked[..i + 1][..i] == ranked[..i];
  }

  /** The eligible products of each exposure, in rank order. */
  method GroupByExposure(ranked: seq<Scored>) returns (groups: map<int, seq<Scored>>)
    ensures Groups(groups, ranked)
  {
    groups := map[];
    for i := 0 to |ranked|
      invariant Groups(groups, ranked[..i])
    {
      var e := ranked[i].Exposure();
      ghost var before := groups;
      groups := groups[e := Group(groups, e) + [ranked[i]]];
      forall x ensures Group(groups, x) == Filter(ranked[..i + 1], OfExposure(x)) {
        GroupOfOneMore(ranked, i, x);
        assert Group(before, x) == Filter(ranked[..i], OfExposure(x));
      }
    }
    assert ranked[..|ranked|] == ranked;
  }

  lemma NoneSelected(desk: Desk, scored: seq<Scored>)
    ensures Select(desk, scored, []) == Selection({}, {}, {})
  {
  }

  lemma SelectOneMore(desk: Desk, scored: seq<Scored>, exposures: seq<int>, i: nat)
    requires i < |exposures|
    ensures
      var before, choice := Select(desk, scored, exposures[..i]), ChoiceFor(desk, scored, exposures[i]);
      Select(desk, scored, exposures[..i + 1])
      == Selection(before.selected + AsSet(choice.selected), before.duplicates + choice.duplicates,
                   before.switchExits + AsSet(choice.switchExit))
  {
    hide ChoiceFor;
    assert exposures[..i + 1][..i] == exposures[..i];
  }

  lemma RecordIs(current: map<int, Scored>, scored: seq<Scored>, e: int)
    requires Records(current, scored)
    ensures Holding(scored, e) == if e in current then Some(current[e]) else None
  {
  }

  lemma GroupIs(groups: map<int, seq<Scored>>, scored: seq<Scored>, e: int)
    requires Groups(groups, Ranked(scored))
    ensures Group(groups, e) == Contenders(scored, e)
  {
  }

  lemma ChoiceIs(desk: Desk, scored: seq<Scored>, e: int)
    ensures
      var holding := Holding(scored, e);
      && (holding.Some? ==> holding.value.case_.current > 0.0
                            && (holding.value.candidate.eligible ==> Contenders(scored, e) != []))
      && ChoiceFor(desk, scored, e) == Choose(desk, holding, Contenders(scored, e))
  {
    hide Choose;
    if Holding(scored, e).Some? {
      HoldingFacts(scored, e);
      InContenders(scored, e, Holding(scored, e).value);
    }
  }

  method SelectExpressions(desk: Desk, scored: seq<Scored>, current: map<int, Scored>) returns (selection: Selection)
    requires Records(current, scored)
    ensures selection == Select(desk, scored, Exposures(scored))
  {
    hide Choose, Exposures, Ranked, Holding, Records, Groups, Select, ChoiceFor, Contenders, AsSet;
    var groups := GroupByExposure(Ranked(scored));
    var exposures := Exposures(scored);
    selection := Selection({}, {}, {});
    NoneSelected(desk, scored);
    for i := 0 to |exposures|
      invariant selection == Select(desk, scored, exposures[..i])
    {
      var e := exposures[i];
      var candidates := Group(groups, e);
      var holding := if e in current then Some(current[e]) else None;
      GroupIs(groups, scored, e);
      RecordIs(current, scored, e);
      ChoiceIs(desk, scored, e);
      var choice := Choose(desk, holding, candidates);
      SelectOneMore(desk, scored, exposures, i);
      selection := Selection(selection.selected + AsSet(choice.selected), selection.duplicates + choice.duplicates,
                             selection.switchExits + AsSet(choice.switchExit));
    }
    assert exposures[..|exposures|] == exposures;
  }

  lemma HoldingFacts(scored: seq<Scored>, e: int)
    requires Holding(scored, e).Some?
    ensures
      var held := Holding(scored, e).value;
      held in scored && held.case_.current > 0.0 && held.Exposure() == e
  {
  }

  ghost predicate IsReviewed(desk: Desk, root: Root, s: Scored, scale: real, finals: map<int, Candidate>)
  {
    Review(desk, s.case_, AskFor(desk, root, s).Proposed(scale)) == Looked(finals, s.Id())
  }

  /** Reviews every proposal at its own size; only those that still justify themselves are recorded. */
  method ReviewAllocation(desk: Desk, root: Root, allocation: seq<Scored>, scale: real) returns (finals: map<int, Candidate>)
    requires Sorting.DistinctBy(IdOf, allocation)
    ensures forall i :: 0 <= i < |allocation| ==> IsReviewed(desk, root, allocation[i], scale, finals)
    ensures forall id :: id in finals ==> exists s :: s in allocation && s.Id() == id
  {
    hide IsReviewed, EvaluateTransition, AskFor, Ask.Proposed;
    finals := map[];
    for i := 0 to |allocation|
      invariant forall j :: 0 <= j < i ==> IsReviewed(desk, root, allocation[j], scale, finals)
      invariant forall id :: id in finals ==> exists j :: 0 <= j < i && allocation[j].Id() == id
    {
      var s, before := allocation[i], finals;
      forall j | 0 <= j < i ensures allocation[j].Id() != s.Id() { assert IdOf(allocation[j]) != IdOf(s); }
      var proposed := AskFor(desk, root, s).Proposed(scale);
      if proposed > 0.0 {
        var candidate := EvaluateTransition(desk, s.case_, proposed);
        if candidate.eligible { finals := finals[s.Id() := candidate]; }
      }
      ReviewOne(desk, root, s, scale, before, finals);
      forall j | 0 <= j < i ensures IsReviewed(desk, root, allocation[j], scale, finals) {
        ReviewStays(desk, root, allocation[j], scale, before, finals);
      }
    }
    forall id | id in finals ensures exists s :: s in allocation && s.Id() == id {
      var j :| 0 <= j < |allocation| && allocation[j].Id() == id;
      assert allocation[j] in allocation;
    }
  }

  lemma ReviewOne(desk: Desk, root: Root, s: Scored, scale: real, before: map<int, Candidate>, finals: map<int, Candidate>)
    requires s.Id() !in before
    requires
      var proposed := AskFor(desk, root, s).Proposed(scale);
      finals == if proposed > 0.0 && EvaluateTransition(desk, s.case_, proposed).eligible
                then before[s.Id() := EvaluateTransition(desk, s.case_, proposed)] else before
    ensures IsReviewed(desk, root, s, scale, finals)
  {
    hide EvaluateTransition, AskFor, Ask.Proposed;
  }

  lemma ReviewStays(desk: Desk, root: Root, s: Scored, scale: real, before: map<int, Candidate>, finals: map<int, Candidate>)
    requires IsReviewed(desk, root, s, scale, before) && Looked(before, s.Id()) == Looked(finals, s.Id())
    ensures IsReviewed(desk, root, s, scale, finals)
  {
  }

  function Looked(finals: map<int, Candidate>, id: int): Option<Candidate> { if id in finals then Some(finals[id]) else None }

  ghost predicate LooksUp(desk: Desk, root: Root, plan: Plan, finals: map<int, Candidate>)
  {
    forall i :: 0 <= i < |plan.scored| ==> Final(desk, root, plan, plan.scored[i]) == Looked(finals, plan.scored[i].Id())
  }

  lemma IsLookedUp(desk: Desk, root: Root, plan: Plan, finals: map<int, Candidate>, i: nat)
    requires LooksUp(desk, root, plan, finals) && i < |plan.scored|
    ensures Final(desk, root, plan, plan.scored[i]) == Looked(finals, plan.scored[i].Id())
  {
  }

  method ListTargets(desk: Desk, root: Root, plan: Plan, finals: map<int, Candidate>) returns (targets: seq<SleeveTarget>)
    requires LooksUp(desk, root, plan, finals)
    ensures targets == Targets(desk, root, plan, plan.scored)
  {
    hide Final, TargetFrom, Looked;
    targets := [];
    for i := 0 to |plan.scored|
      invariant targets == Targets(desk, root, plan, plan.scored[..i])
    {
      assert plan.scored[..i + 1][..i] == plan.scored[..i];
      var target := TargetFrom(desk, plan, plan.scored[i], Looked(finals, plan.scored[i].Id()));
      targets := targets + if target.Some? then [target.value] else [];
    }
    assert plan.scored[..|plan.scored|] == plan.scored;
  }

  lemma ValidUntilOfNone(desk: Desk, root: Root, plan: Plan, deadline: Option<int>)
    ensures
      var window := desk.asOf + desk.policy.validity;
      ValidUntil(desk, root, plan, deadline, plan.scored[..0]) == if deadline.Some? then MinInt(window, deadline.value) else window
  {
  }

  lemma ValidUntilOfOneMore(desk: Desk, root: Root, plan: Plan, deadline: Option<int>, i: nat)
    requires i < |plan.scored|
    ensures
      var before, final := ValidUntil(desk, root, plan, deadline, plan.scored[..i]), Final(desk, root, plan, plan.scored[i]);
      ValidUntil(desk, root, plan, deadline, plan.scored[..i + 1])
      == if final.Some? then MinInt(before, SupportUntil(plan.scored[i].case_, final.value.evaluation)) else before
  {
    assert plan.scored[..i + 1][..i] == plan.scored[..i];
  }

  /** The earliest end among the policy window, the deadline and the support of every admitted sleeve. */
  method EarliestEnd(desk: Desk, root: Root, plan: Plan, deadline: Option<int>, finals: map<int, Candidate>) returns (end: int)
    requires LooksUp(desk, root, plan, finals)
    ensures end == ValidUntil(desk, root, plan, deadline, plan.scored)
  {
    hide Final, SupportUntil, LooksUp, MinInt, ValidUntil;
    ValidUntilOfNone(desk, root, plan, deadline);
    end := desk.asOf + desk.policy.validity;
    if deadline.Some? { end := MinInt(end, deadline.value); }
    for i := 0 to |plan.scored|
      invariant end == ValidUntil(desk, root, plan, deadline, plan.scored[..i])
    {
      var s := plan.scored[i];
      ValidUntilOfOneMore(desk, root, plan, deadline, i);
      IsLookedUp(desk, root, plan, finals, i);
      if s.Id() in finals { end := MinInt(end, SupportUntil(s.case_, finals[s.Id()].evaluation)); }
    }
    assert plan.scored[..|plan.scored|] == plan.scored;
  }

  lemma FinalsAreLookedUp(desk: Desk, root: Root, cases: seq<Case>, finals: map<int, Candidate>)
    requires UniqueSleeves(cases)
    requires
      var plan := MakePlan(desk, root, cases);
      && (forall i :: 0 <= i < |plan.allocation| ==> IsReviewed(desk, root, plan.allocation[i], plan.scale, finals))
      && (forall id :: id in finals ==> exists s :: s in plan.allocation && s.Id() == id)
    ensures LooksUp(desk, root, MakePlan(desk, root, cases), finals)
  {
    hide MakePlan, Review, AskFor, Ask.Proposed, Scores;
    var plan := MakePlan(desk, root, cases);
    PlanAllocation(desk, root, cases);
    ScoresAreDistinct(desk, cases);
    forall k | 0 <= k < |plan.scored| ensures Final(desk, root, plan, plan.scored[k]) == Looked(finals, plan.scored[k].Id()) {
      var s := plan.scored[k];
      if s in plan.allocation {
        var i :| 0 <= i < |plan.allocation| && plan.allocation[i] == s;
      } else if s.Id() in finals {
        var t :| t in plan.allocation && t.Id() == s.Id();
        SameIdSameScore(plan.scored, s, t);
      }
    }
  }

  /** Selects, sizes and reviews the cases of one cycle. */
  method DecideCases(desk: Desk, root: Root, deadline: Option<int>, cases: seq<Case>)
    returns (r: Result<PortfolioTarget, DecideError>)
    requires UniqueSleeves(cases)
    ensures r == Conclude(desk, root, deadline, cases)
  {
    hide Scores, Clash, Select, Asks, IncrementScale, TotalLimit, Review, Targets, ValidUntil, Ranked, Filter, Exposures;
    var scored := EvaluateAll(desk, cases);
    ScoresAreDistinct(desk, cases);
    var current := CurrentExpressions(scored);
    if current.None? { return Err(TwoHoldingsOfOneExposure); }
    var selection := SelectExpressions(desk, scored, current.value);
    var allocation := Filter(Ranked(scored), AmongIds(selection.selected));
    var scale := IncrementScale(TotalLimit(desk), Asks(desk, root, allocation));
    var plan := Plan(scored, selection, allocation, scale);
    assert plan == MakePlan(desk, root, cases);
    RankedIsOrdered(scored);
    FilterKeepsDistinct(Ranked(scored), AmongIds(selection.selected));
    var finals := ReviewAllocation(desk, root, allocation, scale);
    FinalsAreLookedUp(desk, root, cases, finals);
    var targets := ListTargets(desk, root, plan, finals);
    var validUntil := EarliestEnd(desk, root, plan, deadline, finals);
    if desk.asOf >= validUntil { return Err(NoFutureValidity); }
    if SumBy(targets, DesiredOf) > desk.equity { return Err(ExceedsEquity); }
    return Ok(PortfolioTarget(validUntil, targets, selection));
  }

  // ----- Admission of the inputs

  datatype TargetLeg = TargetLeg(instrument: int, direction: Direction, weight: real, multiplier: real, anchor: real)

  datatype Submission = Submission(item: SleeveInput, legs: seq<TargetLeg>)
  {
    predicate Valid() {
      item.Valid() && forall i :: 0 <= i < |legs| ==> legs[i].weight > 0.0 && legs[i].multiplier > 0.0 && legs[i].anchor > 0.0
    }
  }

  datatype Account = Account(portfolioId: int, asOf: int, equity: real, notionals: map<int, real>)

  /** The frozen market of one decision: a quote and a fee per instrument. */
  datatype Market = Market(quotes: map<int, Quote>, fees: map<int, real>)
  {
    predicate Valid() {
      && (forall k :: k in quotes ==> quotes[k].Valid())
      && (forall k :: k in fees ==> fees[k] >= 0.0)
    }
    predicate Covers(legs: seq<TargetLeg>) {
      forall i :: 0 <= i < |legs| ==> legs[i].instrument in quotes && legs[i].instrument in fees
    }
  }

  function Instruments(submissions: seq<Submission>): set<int> {
    set s, leg | s in submissions && leg in s.legs :: leg.instrument
  }

  function PriceLegs(legs: seq<TargetLeg>, market: Market): (r: seq<Leg>)
    requires market.Covers(legs)
    ensures |r| == |legs|
    ensures forall i :: 0 <= i < |legs| ==> r[i] == Leg(legs[i].direction, legs[i].weight, legs[i].multiplier, legs[i].anchor,
                                                        market.quotes[legs[i].instrument], market.fees[legs[i].instrument])
  {
    seq(|legs|, i requires 0 <= i < |legs| => Leg(legs[i].direction, legs[i].weight, legs[i].multiplier, legs[i].anchor,
                                                  market.quotes[legs[i].instrument], market.fees[legs[i].instrument]))
  }

  function Current(account: Account, s: Submission): real {
    if s.item.sleeveId in account.notionals then account.notionals[s.item.sleeveId] else 0.0
  }

  predicate ReviewWithoutHoldingAt(account: Account, s: Submission) { !s.item.newCapitalAllowed && Current(account, s) <= 0.0 }

  /** The checks `decide` makes before it evaluates anything, in order. */
  function Refusal(account: Account, submissions: seq<Submission>, market: Market): Option<DecideError>
  {
    var ids := set s | s in submissions :: s.item.sleeveId;
    if exists k :: k in account.notionals && k !in ids then Some(UncoveredHolding)
    else if market.quotes.Keys != Instruments(submissions) then Some(QuotesDoNotMatch)
    else if !(Instruments(submissions) <= market.fees.Keys) then Some(SpecsMissing)
    else if exists s :: s in submissions && ReviewWithoutHoldingAt(account, s) then Some(ReviewWithoutHolding)
    else None
  }

  lemma UnrefusedIsCovered(account: Account, submissions: seq<Submission>, market: Market, k: nat)
    requires k < |submissions| && Refusal(account, submissions, market).None?
    ensures market.Covers(submissions[k].legs) && !ReviewWithoutHoldingAt(account, submissions[k])
  {
    forall i | 0 <= i < |submissions[k].legs| ensures submissions[k].legs[i].instrument in Instruments(submissions) {
      assert submissions[k] in submissions && submissions[k].legs[i] in submissions[k].legs;
    }
    assert submissions[k] in submissions;
  }

  predicate Ascending(submissions: seq<Submission>) {
    forall i, j :: 0 <= i < j < |submissions| ==> submissions[i].item.sleeveId < submissions[j].item.sleeveId
  }

  /** Every submission joined with its quotes and its holding. */
  function Joined(account: Account, submissions: seq<Submission>, market: Market): seq<CaseData>
    requires Refusal(account, submissions, market).None?
  {
    seq(|submissions|, i requires 0 <= i < |submissions| =>
      UnrefusedIsCovered(account, submissions, market, i);
      CaseData(submissions[i].item, PriceLegs(submissions[i].legs, market), Current(account, submissions[i])))
  }

  ghost predicate InputsAreValid(account: Account, submissions: seq<Submission>, market: Market)
  {
    && (forall i :: 0 <= i < |submissions| ==> submissions[i].Valid()) && market.Valid()
    && (forall k :: k in account.notionals ==> account.notionals[k] >= 0.0)
  }

  lemma JoinedIsValid(account: Account, submissions: seq<Submission>, market: Market)
    requires InputsAreValid(account, submissions, market) && Ascending(submissions)
    requires Refusal(account, submissions, market).None?
    ensures
      var cases := Joined(account, submissions, market);
      (forall i :: 0 <= i < |cases| ==> cases[i].Valid()) && forall i, j :: 0 <= i < j < |cases| ==> cases[i].Id() < cases[j].Id()
  {
    forall i | 0 <= i < |submissions| ensures Joined(account, submissions, market)[i].Valid() {
      UnrefusedIsCovered(account, submissions, market, i);
    }
  }

  /** Decides one cycle: nothing while disabled or without equity, an error on inconsistent inputs, else the target. */
  method Decide(enabled: bool, portfolioId: int, policy: Policy, root: Root, asOf: int, deadline: Option<int>,
                account: Account, submissions: seq<Submission>, market: Market)
    returns (r: Result<Option<PortfolioTarget>, DecideError>)
    requires 0.0 <= policy.maximumTotal <= 1.0 && 0.0 < policy.maximumSingle <= 1.0 && policy.cost.Valid() && policy.validity > 0
    requires InputsAreValid(account, submissions, market)
    ensures
      if !enabled then r == Ok(None)
      else if deadline.Some? && deadline.value <= asOf then r == Err(DeadlineNotInFuture)
      else if !Ascending(submissions) then r == Err(SleevesNotSorted)
      else if account.asOf != asOf || account.portfolioId != portfolioId then r == Err(AccountMismatch)
      else if account.equity <= 0.0 then r == Ok(None)
      else if Refusal(account, submissions, market).Some? then
        r == Err(Refusal(account, submissions, market).value)
      else
        var cases := Joined(account, submissions, market);
        && (forall i :: 0 <= i < |cases| ==> cases[i].Valid())
        && r == match Conclude(DeskData(policy, account.equity, asOf), root, deadline, cases)
                case Ok(target) => Ok(Some(target))
                case Err(e) => Err(e)
  {
    hide Conclude, Joined;
    if !enabled { return Ok(None); }
    if deadline.Some? && deadline.value <= asOf { return Err(DeadlineNotInFuture); }
    if !Ascending(submissions) { return Err(SleevesNotSorted); }
    if account.asOf != asOf || account.portfolioId != portfolioId { return Err(AccountMismatch); }
    if account.equity <= 0.0 { return Ok(None); }
    var refusal := Refusal(account, submissions, market);
    if refusal.Some? { return Err(refusal.value); }
    JoinedIsValid(account, submissions, market);
    var cases: seq<Case> := JoinCases(account, submissions, market);
    var target := DecideCases(DeskData(policy, account.equity, asOf), root, deadline, cases);
    match target
    case Ok(value) => r := Ok(Some(value));
    case Err(e) => r := Err(e);
  }

  method JoinCases(account: Account, submissions: seq<Submission>, market: Market) returns (cases: seq<CaseData>)
    requires Refusal(account, submissions, market).None?
    ensures cases == Joined(account, submissions, market)
  {
    cases := [];
    for i := 0 to |submissions|
      invariant |cases| == i
      invariant forall j :: 0 <= j < i ==> cases[j] == Joined(account, submissions, market)[j]
    {
      var s := submissions[i];
      UnrefusedIsCovered(account, submissions, market, i);
      cases := cases + [CaseData(s.item, PriceLegs(s.legs, market), Current(account, s))];
    }
  }
}
