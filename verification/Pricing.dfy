/**
 Repricing of a forecast and the cost of moving a sleeve from its current to a target notional
 (src/investment_manager/portfolio/decision.py, `remaining_target_gross_bps`,
 `estimate_state_transition_cost`, `_depth_cost_bps`).
 */
module Pricing {
  import opened Results
  import opened Sums

  const BPS := 10000.0

  datatype Direction = Long | Short

  datatype Quote = Quote(bid: real, ask: real, bidQuantity: real, askQuantity: real)
  {
    /** What `ExecutableQuote` enforces at construction. */
    predicate Valid() { 0.0 < bid <= ask && bidQuantity > 0.0 && askQuantity > 0.0 }

    function HalfSpreadBps(): (r: real)
      requires Valid()
      ensures r >= 0.0
    {
      (ask - bid) / (ask + bid) * BPS
    }
  }

  /** A target leg joined with its cutoff price, its quote and its fee. */
  datatype Leg = Leg(direction: Direction, weight: real, multiplier: real, anchor: real, quote: Quote, feeBps: real)
  {
    predicate Valid() { weight > 0.0 && multiplier > 0.0 && anchor > 0.0 && feeBps >= 0.0 && quote.Valid() }

    /** New exposure pays the far side of the book; exposure already held is valued at the near side. */
    function EntryPrice(): real { if direction == Long then quote.ask else quote.bid }
    function ExitPrice(): real { if direction == Long then quote.bid else quote.ask }

    function EntryDepth(): real {
      (if direction == Long then quote.ask * quote.askQuantity else quote.bid * quote.bidQuantity) * multiplier
    }
    function ExitDepth(): real {
      (if direction == Long then quote.bid * quote.bidQuantity else quote.ask * quote.askQuantity) * multiplier
    }
  }

  predicate ValidLegs(legs: seq<Leg>) { forall i :: 0 <= i < |legs| ==> legs[i].Valid() }

  // ----- Remaining gross

  function RetainedFraction(current: real, evaluation: real): (r: real)
    requires current >= 0.0 && evaluation > 0.0
    ensures 0.0 <= r <= 1.0
  {
    MinR(current, evaluation) / evaluation
  }

  /** How much of the forecast move the leg's executable basis has already used up. */
  function DriftBps(leg: Leg, retained: real): real
    requires leg.anchor > 0.0
  {
    var basis := retained * leg.ExitPrice() + (1.0 - retained) * leg.EntryPrice();
    (if leg.direction == Long then 1.0 else -1.0) * leg.weight * (basis / leg.anchor - 1.0) * BPS
  }

  function TotalDriftBps(legs: seq<Leg>, retained: real): real
    requires ValidLegs(legs)
  {
    if legs == [] then 0.0 else TotalDriftBps(legs[..|legs| - 1], retained) + DriftBps(legs[|legs| - 1], retained)
  }

  function RemainingGrossBps(forecastGrossBps: real, legs: seq<Leg>, current: real, evaluation: real): real
    requires ValidLegs(legs) && current >= 0.0 && evaluation > 0.0
  {
    forecastGrossBps - TotalDriftBps(legs, RetainedFraction(current, evaluation))
  }

  method RemainingTargetGrossBps(forecastGrossBps: real, legs: seq<Leg>, current: real, evaluation: real)
    returns (r: Result<real, ()>)
    requires ValidLegs(legs)
    ensures r == if current < 0.0 || evaluation <= 0.0 then Err(())
                 else Ok(RemainingGrossBps(forecastGrossBps, legs, current, evaluation))
  {
    if current < 0.0 || evaluation <= 0.0 { return Err(()); }
    var realized := 0.0;
    var retained := MinR(current, evaluation) / evaluation;
    var added := 1.0 - retained;
    for i := 0 to |legs|
      invariant ValidLegs(legs[..i]) && realized == TotalDriftBps(legs[..i], retained)
    {
      var leg := legs[i];
      var basis := retained * leg.ExitPrice() + added * leg.EntryPrice();
      var sign := if leg.direction == Long then 1.0 else -1.0;
      realized := realized + sign * leg.weight * (basis / leg.anchor - 1.0) * BPS;
      assert legs[..i + 1][..i] == legs[..i];
    }
    assert legs[..|legs|] == legs;
    return Ok(forecastGrossBps - realized);
  }

  lemma DriftFallsWithRetention(leg: Leg, less: real, more: real)
    requires leg.Valid() && less <= more
    ensures DriftBps(leg, less) >= DriftBps(leg, more)
  {
    var sign := if leg.direction == Long then 1.0 else -1.0;
    var spread := leg.quote.ask - leg.quote.bid;
    var a, b := less * leg.ExitPrice() + (1.0 - less) * leg.EntryPrice(), more * leg.ExitPrice() + (1.0 - more) * leg.EntryPrice();
    assert a - b == (more - less) * (leg.EntryPrice() - leg.ExitPrice());
    assert sign * (leg.EntryPrice() - leg.ExitPrice()) == spread;
    assert sign * (a - b) == (more - less) * spread;
    assert (more - less) * spread >= 0.0;
    Scale(leg.weight, leg.anchor, sign * a, sign * b);
    assert DriftBps(leg, less) == leg.weight * ((sign * a) / leg.anchor) * BPS - sign * leg.weight * BPS;
    assert DriftBps(leg, more) == leg.weight * ((sign * b) / leg.anchor) * BPS - sign * leg.weight * BPS;
  }

  lemma Scale(weight: real, anchor: real, a: real, b: real)
    requires weight > 0.0 && anchor > 0.0 && a >= b
    ensures weight * (a / anchor) * BPS >= weight * (b / anchor) * BPS
  {
    assert a / anchor >= b / anchor;
    assert weight * (a / anchor) >= weight * (b / anchor);
  }

  lemma {:induction false} TotalDriftFallsWithRetention(legs: seq<Leg>, less: real, more: real)
    requires ValidLegs(legs) && less <= more
    ensures TotalDriftBps(legs, less) >= TotalDriftBps(legs, more)
  {
    if legs != [] {
      TotalDriftFallsWithRetention(legs[..|legs| - 1], less, more);
      DriftFallsWithRetention(legs[|legs| - 1], less, more);
    }
  }

  lemma AtMostOne(part: real, whole: real)
    requires part <= whole && whole > 0.0
    ensures part / whole <= 1.0
  {
  }

  lemma RetentionFalls(current: real, small: real, large: real)
    requires current >= 0.0 && 0.0 < small <= large
    ensures RetainedFraction(current, small) >= RetainedFraction(current, large)
  {
    if current <= small {
      QuotientFalls(current, small, large);
    } else {
      assert RetainedFraction(current, small) == 1.0;
      AtMostOne(MinR(current, large), large);
    }
  }

  /** With a fixed holding, evaluating a larger size never leaves more of the forecast. */
  lemma {:induction false} LargerSizeKeepsLessGross(forecastGrossBps: real, legs: seq<Leg>, current: real, small: real, large: real)
    requires ValidLegs(legs) && current >= 0.0 && 0.0 < small <= large
    ensures RemainingGrossBps(forecastGrossBps, legs, current, small) >= RemainingGrossBps(forecastGrossBps, legs, current, large)
  {
    RetentionFalls(current, small, large);
    TotalDriftFallsWithRetention(legs, RetainedFraction(current, large), RetainedFraction(current, small));
  }

  /** Crossing the book: what a new exposure has lost, at once, against the same exposure already held. */
  function SpreadLossBps(legs: seq<Leg>): real
    requires ValidLegs(legs)
  {
    if legs == [] then 0.0
    else
      var leg := legs[|legs| - 1];
      SpreadLossBps(legs[..|legs| - 1]) + leg.weight * ((leg.quote.ask - leg.quote.bid) / leg.anchor) * BPS
  }

  lemma DriftOfMixture(leg: Leg, retained: real)
    requires leg.Valid()
    ensures DriftBps(leg, retained)
            == DriftBps(leg, 1.0) + (1.0 - retained) * (leg.weight * ((leg.quote.ask - leg.quote.bid) / leg.anchor) * BPS)
  {
    var sign := if leg.direction == Long then 1.0 else -1.0;
    var enter, leave := leg.EntryPrice(), leg.ExitPrice();
    var basis := retained * leave + (1.0 - retained) * enter;
    assert basis == leave + (1.0 - retained) * (enter - leave);
    assert basis / leg.anchor == leave / leg.anchor + (1.0 - retained) * ((enter - leave) / leg.anchor);
    assert sign * ((enter - leave) / leg.anchor) == (leg.quote.ask - leg.quote.bid) / leg.anchor;
    assert 1.0 * leave + (1.0 - 1.0) * enter == leave;
  }

  /**
   A sleeve that keeps part of its exposure and adds the rest reprices exactly between pure holding and pure
   entry: only the added fraction pays the spread, on whichever side each leg trades.
   */
  lemma {:induction false} OnlyAddedExposurePaysTheSpread(legs: seq<Leg>, retained: real)
    requires ValidLegs(legs)
    ensures TotalDriftBps(legs, retained) == TotalDriftBps(legs, 1.0) + (1.0 - retained) * SpreadLossBps(legs)
  {
    if legs != [] {
      OnlyAddedExposurePaysTheSpread(legs[..|legs| - 1], retained);
      DriftOfMixture(legs[|legs| - 1], retained);
    }
  }

  // ----- Transition cost

  datatype CostPolicy = CostPolicy(exitSpreadMultiplier: real, depthSlippageMultiplier: real)
  {
    predicate Valid() { exitSpreadMultiplier >= 1.0 && depthSlippageMultiplier >= 0.0 }
  }

  datatype Cost = Cost(evaluation: real, feeBps: real, exitSpreadBps: real, depthSlippageBps: real, totalBps: real)

  function DepthCostBps(notional: real, evaluation: real, weight: real, depth: real, halfSpreadBps: real, multiplier: real): real
    requires evaluation > 0.0 && depth > 0.0
  {
    var legNotional := notional * weight;
    if legNotional <= depth then 0.0
    else legNotional / evaluation * halfSpreadBps * multiplier * (legNotional / depth - 1.0)
  }

  function Added(current: real, target: real): real { MaxR(target - current, 0.0) }
  function Reduced(current: real, target: real): real { MaxR(current - target, 0.0) }

  function LegFeeBps(leg: Leg, current: real, target: real, evaluation: real): real
    requires evaluation > 0.0
  {
    leg.weight * (Added(current, target) + Reduced(current, target) + target) / evaluation * leg.feeBps
  }

  function LegSpreadBps(policy: CostPolicy, leg: Leg, target: real, evaluation: real): real
    requires leg.Valid() && evaluation > 0.0
  {
    leg.weight * target / evaluation * leg.quote.HalfSpreadBps() * policy.exitSpreadMultiplier
  }

  lemma DepthIsPositive(leg: Leg)
    requires leg.Valid()
    ensures leg.EntryDepth() > 0.0 && leg.ExitDepth() > 0.0
  {
  }

  /** Added exposure meets the entry side of the book; reduced and final exposure the exit side. */
  function LegDepthBps(policy: CostPolicy, leg: Leg, current: real, target: real, evaluation: real): real
    requires leg.Valid() && evaluation > 0.0
  {
    DepthIsPositive(leg);
    var half, multiplier := leg.quote.HalfSpreadBps(), policy.depthSlippageMultiplier;
    DepthCostBps(Added(current, target), evaluation, leg.weight, leg.EntryDepth(), half, multiplier)
    + DepthCostBps(Reduced(current, target), evaluation, leg.weight, leg.ExitDepth(), half, multiplier)
    + DepthCostBps(target, evaluation, leg.weight, leg.ExitDepth(), half, multiplier)
  }

  function FeeBps(legs: seq<Leg>, current: real, target: real, evaluation: real): real
    requires evaluation > 0.0
  {
    if legs == [] then 0.0
    else FeeBps(legs[..|legs| - 1], current, target, evaluation) + LegFeeBps(legs[|legs| - 1], current, target, evaluation)
  }

  function SpreadBps(policy: CostPolicy, legs: seq<Leg>, target: real, evaluation: real): real
    requires ValidLegs(legs) && evaluation > 0.0
  {
    if legs == [] then 0.0
    else SpreadBps(policy, legs[..|legs| - 1], target, evaluation) + LegSpreadBps(policy, legs[|legs| - 1], target, evaluation)
  }

  function DepthBps(policy: CostPolicy, legs: seq<Leg>, current: real, target: real, evaluation: real): real
    requires ValidLegs(legs) && evaluation > 0.0
  {
    if legs == [] then 0.0
    else DepthBps(policy, legs[..|legs| - 1], current, target, evaluation)
         + LegDepthBps(policy, legs[|legs| - 1], current, target, evaluation)
  }

  function TransitionCost(policy: CostPolicy, legs: seq<Leg>, current: real, target: real, evaluation: real): Cost
    requires ValidLegs(legs) && evaluation > 0.0
  {
    var fee := FeeBps(legs, current, target, evaluation);
    var spread := SpreadBps(policy, legs, target, evaluation);
    var depth := DepthBps(policy, legs, current, target, evaluation);
    Cost(evaluation, fee, spread, depth, fee + spread + depth)
  }

  method EstimateStateTransitionCost(policy: CostPolicy, legs: seq<Leg>, current: real, target: real, evaluation: real)
    returns (r: Result<Cost, ()>)
    requires ValidLegs(legs)
    ensures r == if MinR(current, target) < 0.0 || evaluation <= 0.0 then Err(())
                 else Ok(TransitionCost(policy, legs, current, target, evaluation))
  {
    if MinR(current, target) < 0.0 || evaluation <= 0.0 { return Err(()); }
    var fee, spread, depth := 0.0, 0.0, 0.0;
    for i := 0 to |legs|
      invariant ValidLegs(legs[..i])
      invariant fee == FeeBps(legs[..i], current, target, evaluation)
      invariant spread == SpreadBps(policy, legs[..i], target, evaluation)
      invariant depth == DepthBps(policy, legs[..i], current, target, evaluation)
    {
      var leg := legs[i];
      assert legs[..i + 1][..i] == legs[..i];
      fee := fee + LegFeeBps(leg, current, target, evaluation);
      spread := spread + LegSpreadBps(policy, leg, target, evaluation);
      depth := depth + LegDepthBps(policy, leg, current, target, evaluation);
    }
    assert legs[..|legs|] == legs;
    return Ok(Cost(evaluation, fee, spread, depth, fee + spread + depth));
  }

  // ----- The same cost in money

  function DepthMoney(notional: real, weight: real, depth: real, halfSpreadBps: real, multiplier: real): real
    requires depth > 0.0
  {
    var legNotional := notional * weight;
    if legNotional <= depth then 0.0 else legNotional * halfSpreadBps * multiplier * (legNotional / depth - 1.0)
  }

  function FeeMoney(leg: Leg, current: real, target: real): real {
    leg.weight * (Added(current, target) + Reduced(current, target) + target) * leg.feeBps
  }

  function SpreadMoney(policy: CostPolicy, leg: Leg, target: real): real
    requires leg.Valid()
  {
    leg.weight * target * leg.quote.HalfSpreadBps() * policy.exitSpreadMultiplier
  }

  function LegDepthMoney(policy: CostPolicy, leg: Leg, current: real, target: real): real
    requires leg.Valid()
  {
    DepthIsPositive(leg);
    var half, multiplier := leg.quote.HalfSpreadBps(), policy.depthSlippageMultiplier;
    DepthMoney(Added(current, target), leg.weight, leg.EntryDepth(), half, multiplier)
    + DepthMoney(Reduced(current, target), leg.weight, leg.ExitDepth(), half, multiplier)
    + DepthMoney(target, leg.weight, leg.ExitDepth(), half, multiplier)
  }

  /** What one leg pays, in money times BPS, to go from current to target and, later, to leave the target. */
  function LegMoney(policy: CostPolicy, leg: Leg, current: real, target: real): real
    requires leg.Valid()
  {
    FeeMoney(leg, current, target) + SpreadMoney(policy, leg, target) + LegDepthMoney(policy, leg, current, target)
  }

  function Money(policy: CostPolicy, legs: seq<Leg>, current: real, target: real): real
    requires ValidLegs(legs)
  {
    if legs == [] then 0.0
    else Money(policy, legs[..|legs| - 1], current, target) + LegMoney(policy, legs[|legs| - 1], current, target)
  }

  lemma DepthCostIsMoney(notional: real, evaluation: real, weight: real, depth: real, half: real, multiplier: real)
    requires evaluation > 0.0 && depth > 0.0
    ensures DepthCostBps(notional, evaluation, weight, depth, half, multiplier) * evaluation
            == DepthMoney(notional, weight, depth, half, multiplier)
  {
    var legNotional := notional * weight;
    if legNotional > depth {
      var x, k := legNotional / evaluation, half * multiplier * (legNotional / depth - 1.0);
      assert x * evaluation == legNotional;
      assert DepthCostBps(notional, evaluation, weight, depth, half, multiplier) == x * k;
      assert DepthMoney(notional, weight, depth, half, multiplier) == legNotional * k;
    }
  }

  lemma Rescale(x: real, evaluation: real, j: real, k: real)
    requires evaluation > 0.0
    ensures x / evaluation * j * k * evaluation == x * j * k
  {
    var y := x / evaluation;
    assert y * evaluation == x;
    assert y * j * k * evaluation == (y * evaluation) * j * k;
  }

  lemma FeeIsMoney(leg: Leg, current: real, target: real, evaluation: real)
    requires evaluation > 0.0
    ensures LegFeeBps(leg, current, target, evaluation) * evaluation == FeeMoney(leg, current, target)
  {
    Rescale(leg.weight * (Added(current, target) + Reduced(current, target) + target), evaluation, leg.feeBps, 1.0);
  }

  lemma SpreadIsMoney(policy: CostPolicy, leg: Leg, target: real, evaluation: real)
    requires leg.Valid() && evaluation > 0.0
    ensures LegSpreadBps(policy, leg, target, evaluation) * evaluation == SpreadMoney(policy, leg, target)
  {
    Rescale(leg.weight * target, evaluation, leg.quote.HalfSpreadBps(), policy.exitSpreadMultiplier);
  }

  lemma SumScaled(a: real, b: real, c: real, d: real, k: real, am: real, bm: real, cm: real, dm: real)
    requires a * k == am && b * k == bm && c * k == cm && d * k == dm
    ensures (a + b + c + d) * k == am + bm + cm + dm
  {
  }

  lemma DepthIsMoney(policy: CostPolicy, leg: Leg, current: real, target: real, evaluation: real)
    requires leg.Valid() && evaluation > 0.0
    ensures LegDepthBps(policy, leg, current, target, evaluation) * evaluation == LegDepthMoney(policy, leg, current, target)
  {
    DepthIsPositive(leg);
    hide DepthCostBps, DepthMoney, Leg.EntryDepth, Leg.ExitDepth, Quote.HalfSpreadBps;
    var half, multiplier := leg.quote.HalfSpreadBps(), policy.depthSlippageMultiplier;
    var added, reduced, w, enter, leave := Added(current, target), Reduced(current, target), leg.weight, leg.EntryDepth(), leg.ExitDepth();
    DepthCostIsMoney(added, evaluation, w, enter, half, multiplier);
    DepthCostIsMoney(reduced, evaluation, w, leave, half, multiplier);
    DepthCostIsMoney(target, evaluation, w, leave, half, multiplier);
    SumScaled(DepthCostBps(added, evaluation, w, enter, half, multiplier), DepthCostBps(reduced, evaluation, w, leave, half, multiplier),
              DepthCostBps(target, evaluation, w, leave, half, multiplier), 0.0, evaluation,
              DepthMoney(added, w, enter, half, multiplier), DepthMoney(reduced, w, leave, half, multiplier),
              DepthMoney(target, w, leave, half, multiplier), 0.0);
  }

  /** In money the cost of a transition does not depend on the notional at which it is evaluated. */
  lemma {:induction false} CostInMoneyIgnoresEvaluation(policy: CostPolicy, legs: seq<Leg>, current: real, target: real, evaluation: real)
    requires ValidLegs(legs) && evaluation > 0.0
    ensures TransitionCost(policy, legs, current, target, evaluation).totalBps * evaluation == Money(policy, legs, current, target)
  {
    hide LegFeeBps, LegSpreadBps, LegDepthBps, FeeMoney, SpreadMoney, LegDepthMoney;
    if legs != [] {
      var n := |legs| - 1;
      var leg := legs[n];
      CostInMoneyIgnoresEvaluation(policy, legs[..n], current, target, evaluation);
      FeeIsMoney(leg, current, target, evaluation);
      SpreadIsMoney(policy, leg, target, evaluation);
      DepthIsMoney(policy, leg, current, target, evaluation);
      SumScaled(TransitionCost(policy, legs[..n], current, target, evaluation).totalBps, LegFeeBps(leg, current, target, evaluation),
                LegSpreadBps(policy, leg, target, evaluation), LegDepthBps(policy, leg, current, target, evaluation), evaluation,
                Money(policy, legs[..n], current, target), FeeMoney(leg, current, target), SpreadMoney(policy, leg, target),
                LegDepthMoney(policy, leg, current, target));
    }
  }

  function Excess(a: real, depth: real, k: real): real
    requires depth > 0.0
  {
    if a <= depth then 0.0 else a * k * (a / depth - 1.0)
  }

  lemma DepthMoneyIsExcess(notional: real, weight: real, depth: real, half: real, multiplier: real)
    requires depth > 0.0
    ensures DepthMoney(notional, weight, depth, half, multiplier) == Excess(Times(notional, weight), depth, Times(half, multiplier))
  {
  }

  lemma ExcessIsMonotone(a: real, b: real, depth: real, k: real)
    requires a <= b && depth > 0.0 && k >= 0.0
    ensures 0.0 <= Excess(a, depth, k) <= Excess(b, depth, k)
  {
    if b > depth { ExcessGrows(if a > depth then a else depth, b, depth, k); }
  }

  lemma Scaled(a: real, b: real, c: real)
    requires a <= b && c >= 0.0
    ensures Times(a, c) <= Times(b, c)
  {
  }

  lemma DepthMoneyGrows(small: real, large: real, weight: real, depth: real, half: real, multiplier: real)
    requires 0.0 <= small <= large && weight > 0.0 && depth > 0.0 && half >= 0.0 && multiplier >= 0.0
    ensures 0.0 <= DepthMoney(small, weight, depth, half, multiplier) <= DepthMoney(large, weight, depth, half, multiplier)
  {
    hide DepthMoney, Excess;
    DepthMoneyIsExcess(small, weight, depth, half, multiplier);
    DepthMoneyIsExcess(large, weight, depth, half, multiplier);
    Scaled(small, large, weight);
    Scaled(0.0, half, multiplier);
    assert Times(0.0, multiplier) == 0.0;
    hide Times;
    ExcessIsMonotone(Times(small, weight), Times(large, weight), depth, Times(half, multiplier));
  }

  lemma ExcessGrows(a: real, b: real, depth: real, k: real)
    requires 0.0 < depth <= a <= b && k >= 0.0
    ensures 0.0 <= a * k * (a / depth - 1.0) <= b * k * (b / depth - 1.0)
  {
    var x, y := a / depth, b / depth;
    assert x * depth == a && y * depth == b;
    assert (x - 1.0) * depth == a - depth && (y - x) * depth == b - a;
    assert 1.0 <= x <= y;
    Product(a, k, x - 1.0);
    Product(a, k, y - x);
    Product(b - a, k, y - 1.0);
    assert b * k * (y - 1.0) == a * k * (x - 1.0) + a * k * (y - x) + (b - a) * k * (y - 1.0);
  }

  lemma Product(a: real, b: real, c: real)
    requires a >= 0.0 && b >= 0.0 && c >= 0.0
    ensures a * b * c >= 0.0
  {
    assert a * b >= 0.0;
  }

  lemma FeeMoneyGrows(leg: Leg, current: real, small: real, large: real)
    requires leg.Valid() && 0.0 <= current <= small <= large
    ensures FeeMoney(leg, current, small) <= FeeMoney(leg, current, large)
  {
    var x, y := small - current + small, large - current + large;
    assert leg.weight * x <= leg.weight * y;
    assert leg.weight * x * leg.feeBps <= leg.weight * y * leg.feeBps;
  }

  lemma SpreadMoneyGrows(policy: CostPolicy, leg: Leg, small: real, large: real)
    requires policy.Valid() && leg.Valid() && small <= large
    ensures SpreadMoney(policy, leg, small) <= SpreadMoney(policy, leg, large)
  {
    var half := leg.quote.HalfSpreadBps();
    assert leg.weight * small <= leg.weight * large;
    assert leg.weight * small * half <= leg.weight * large * half;
  }

  lemma LegDepthMoneyGrows(policy: CostPolicy, leg: Leg, current: real, small: real, large: real)
    requires policy.Valid() && leg.Valid() && 0.0 <= current <= small <= large
    ensures LegDepthMoney(policy, leg, current, small) <= LegDepthMoney(policy, leg, current, large)
  {
    var half, multiplier := leg.quote.HalfSpreadBps(), policy.depthSlippageMultiplier;
    DepthIsPositive(leg);
    hide DepthMoney, Leg.EntryDepth, Leg.ExitDepth, Quote.HalfSpreadBps;
    DepthMoneyGrows(small - current, large - current, leg.weight, leg.EntryDepth(), half, multiplier);
    DepthMoneyGrows(small, large, leg.weight, leg.ExitDepth(), half, multiplier);
  }

  /** Above the current holding a larger target never costs less money. */
  lemma {:induction false} CostGrowsAboveCurrent(policy: CostPolicy, legs: seq<Leg>, current: real, small: real, large: real)
    requires policy.Valid() && ValidLegs(legs) && 0.0 <= current <= small <= large
    ensures Money(policy, legs, current, small) <= Money(policy, legs, current, large)
  {
    if legs != [] {
      CostGrowsAboveCurrent(policy, legs[..|legs| - 1], current, small, large);
      FeeMoneyGrows(legs[|legs| - 1], current, small, large);
      SpreadMoneyGrows(policy, legs[|legs| - 1], small, large);
      LegDepthMoneyGrows(policy, legs[|legs| - 1], current, small, large);
    }
  }

  lemma LegMoneyNonNegative(policy: CostPolicy, leg: Leg, current: real, target: real)
    requires policy.Valid() && leg.Valid() && current >= 0.0 && target >= 0.0
    ensures LegMoney(policy, leg, current, target) >= 0.0
  {
    var half, multiplier := leg.quote.HalfSpreadBps(), policy.depthSlippageMultiplier;
    var added, reduced := Added(current, target), Reduced(current, target);
    DepthIsPositive(leg);
    Product(leg.weight, added + reduced + target, leg.feeBps);
    Product(leg.weight, target, half * policy.exitSpreadMultiplier);
    assert SpreadMoney(policy, leg, target) == leg.weight * target * (half * policy.exitSpreadMultiplier);
    hide DepthMoney, Leg.EntryDepth, Leg.ExitDepth, Quote.HalfSpreadBps, SpreadMoney;
    DepthMoneyGrows(added, added, leg.weight, leg.EntryDepth(), half, multiplier);
    DepthMoneyGrows(reduced, reduced, leg.weight, leg.ExitDepth(), half, multiplier);
    DepthMoneyGrows(target, target, leg.weight, leg.ExitDepth(), half, multiplier);
  }

  /** No transition is ever paid for. */
  lemma {:induction false} CostIsNonNegative(policy: CostPolicy, legs: seq<Leg>, current: real, target: real, evaluation: real)
    requires policy.Valid() && ValidLegs(legs) && current >= 0.0 && target >= 0.0 && evaluation > 0.0
    ensures TransitionCost(policy, legs, current, target, evaluation).totalBps >= 0.0
  {
    MoneyNonNegative(policy, legs, current, target);
    CostInMoneyIgnoresEvaluation(policy, legs, current, target, evaluation);
  }

  lemma {:induction false} MoneyNonNegative(policy: CostPolicy, legs: seq<Leg>, current: real, target: real)
    requires policy.Valid() && ValidLegs(legs) && current >= 0.0 && target >= 0.0
    ensures Money(policy, legs, current, target) >= 0.0
  {
    if legs != [] {
      MoneyNonNegative(policy, legs[..|legs| - 1], current, target);
      LegMoneyNonNegative(policy, legs[|legs| - 1], current, target);
    }
  }

  // ----- Visible depth

  /** Buying consumes the ask, selling the bid. */
  function Visible(leg: Leg, buying: bool): real
  {
    leg.multiplier * (if buying then leg.quote.askQuantity * leg.quote.ask else leg.quote.bidQuantity * leg.quote.bid)
  }

  /** A long leg is entered by buying and left by selling, a short leg the other way round. */
  predicate FitsTheBook(leg: Leg, current: real, target: real)
  {
    var long := leg.direction == Long;
    && Fits(Added(current, target), leg.weight, Visible(leg, long))
    && Fits(Reduced(current, target), leg.weight, Visible(leg, !long))
    && Fits(target, leg.weight, Visible(leg, !long))
  }

  predicate Fits(notional: real, weight: real, depth: real) { weight * notional <= depth }

  lemma DepthPartIsFree(notional: real, evaluation: real, weight: real, depth: real, half: real, multiplier: real)
    requires notional >= 0.0 && evaluation > 0.0 && weight > 0.0 && depth > 0.0 && half > 0.0 && multiplier > 0.0
    ensures DepthCostBps(notional, evaluation, weight, depth, half, multiplier) >= 0.0
    ensures DepthCostBps(notional, evaluation, weight, depth, half, multiplier) == 0.0 <==> Fits(notional, weight, depth)
  {
    var legNotional := notional * weight;
    if legNotional > depth {
      var x, y := legNotional / evaluation, legNotional / depth - 1.0;
      assert x * evaluation == legNotional && (y + 1.0) * depth == legNotional;
      assert x > 0.0 && y > 0.0;
      assert x * half > 0.0;
      assert x * half * multiplier > 0.0;
      assert x * half * multiplier * y > 0.0;
    }
  }

  lemma LegSlippage(policy: CostPolicy, leg: Leg, current: real, target: real, evaluation: real)
    requires policy.depthSlippageMultiplier > 0.0 && leg.Valid() && leg.quote.bid < leg.quote.ask
    requires current >= 0.0 && target >= 0.0 && evaluation > 0.0
    ensures LegDepthBps(policy, leg, current, target, evaluation) >= 0.0
    ensures LegDepthBps(policy, leg, current, target, evaluation) == 0.0 <==> FitsTheBook(leg, current, target)
  {
    var half, multiplier := leg.quote.HalfSpreadBps(), policy.depthSlippageMultiplier;
    assert half > 0.0;
    DepthIsPositive(leg);
    assert leg.EntryDepth() == Visible(leg, leg.direction == Long) && leg.ExitDepth() == Visible(leg, leg.direction != Long);
    hide DepthCostBps, Quote.HalfSpreadBps, Leg.EntryDepth, Leg.ExitDepth, Visible, Fits;
    DepthPartIsFree(Added(current, target), evaluation, leg.weight, leg.EntryDepth(), half, multiplier);
    DepthPartIsFree(Reduced(current, target), evaluation, leg.weight, leg.ExitDepth(), half, multiplier);
    DepthPartIsFree(target, evaluation, leg.weight, leg.ExitDepth(), half, multiplier);
  }

  /** With a spread on every leg, depth slippage is free exactly when each trade fits the visible side it consumes. */
  lemma {:induction false} SlippageIsFreeExactlyWithinDepth(policy: CostPolicy, legs: seq<Leg>, current: real, target: real, evaluation: real)
    requires policy.depthSlippageMultiplier > 0.0 && ValidLegs(legs)
    requires forall i :: 0 <= i < |legs| ==> legs[i].quote.bid < legs[i].quote.ask
    requires current >= 0.0 && target >= 0.0 && evaluation > 0.0
    ensures DepthBps(policy, legs, current, target, evaluation) >= 0.0
    ensures DepthBps(policy, legs, current, target, evaluation) == 0.0
            <==> forall i :: 0 <= i < |legs| ==> FitsTheBook(legs[i], current, target)
  {
    hide LegDepthBps, FitsTheBook;
    if legs != [] {
      var n := |legs| - 1;
      SlippageIsFreeExactlyWithinDepth(policy, legs[..n], current, target, evaluation);
      LegSlippage(policy, legs[n], current, target, evaluation);
      assert forall i :: 0 <= i < n ==> legs[..n][i] == legs[i];
    }
  }
}
