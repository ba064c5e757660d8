/**
 The one-shot blind evaluation budget (src/investment_manager/governance/repository.py, `claim_blind_evaluation` and
 `complete_blind_evaluation`; validators in governance/models.py, unique keys in governance/tables.py). A row keeps its
 indexed columns apart from its payload, because completing a claim rewrites the payload alone.
 */
module BlindClaims {
  import opened Results

  datatype Completion = Completion(at: int, resultId: int, resultHash: int)

  /** The identity of a window is injective in its symbol and bounds. */
  datatype Scope = Scope(symbol: int, start: int, end: int)

  datatype Claim = Claim(plan: int, query: int, scope: Scope, source: int, claimedAt: int, completion: Option<Completion>)

  predicate WellFormed(c: Claim)
  {
    c.scope.start < c.scope.end && (c.completion.Some? ==> c.completion.value.at >= c.claimedAt)
  }

  type BlindClaim = c: Claim | WellFormed(c) witness Claim(0, 0, Scope(0, 0, 1), 0, 0, None)

  datatype Plan = Plan(requiresBlind: bool, queryBudget: int)

  datatype Row = Row(query: int, scope: Scope, source: int, claimedAt: int, payload: BlindClaim)

  datatype State = State(plans: map<int, Plan>, rows: map<int, Row>)

  datatype ClaimError =
    | CarriesResult
    | NoBudget
    | BudgetSpent
    | WindowRevealed
    | WindowTaken
    | ResultMissing
    | NotClaimed
    | NotTheClaim
    | AlreadyCompleted

  predicate Overlap(a: Scope, b: Scope) { a.symbol == b.symbol && a.start < b.end && a.end > b.start }

  predicate HasBudget(s: State, plan: int)
  {
    plan in s.plans && s.plans[plan].requiresBlind && s.plans[plan].queryBudget == 1
  }

  /** What an exact retry must repeat. */
  predicate SameClaim(stored: Claim, c: Claim) { stored.query == c.query && stored.scope == c.scope && stored.source == c.source }

  predicate OverlapsAny(s: State, c: Claim) { exists p :: p in s.rows && Overlap(s.rows[p].scope, c.scope) }

  predicate KeyTaken(s: State, c: Claim) { exists p :: p in s.rows && (s.rows[p].query == c.query || s.rows[p].scope == c.scope) }

  /** Whether this call would write a new row. */
  predicate Grants(s: State, c: Claim)
  {
    c.completion.None? && HasBudget(s, c.plan) && c.plan !in s.rows && !OverlapsAny(s, c) && !KeyTaken(s, c)
  }

  function ClaimAnswer(s: State, c: BlindClaim): Result<BlindClaim, ClaimError>
  {
    if c.completion.Some? then Err(CarriesResult)
    else if !HasBudget(s, c.plan) then Err(NoBudget)
    else if c.plan in s.rows then
      if SameClaim(s.rows[c.plan].payload, c) then Ok(s.rows[c.plan].payload) else Err(BudgetSpent)
    else if OverlapsAny(s, c) then Err(WindowRevealed)
    else if KeyTaken(s, c) then Err(WindowTaken)
    else Ok(c)
  }

  function Claimed(s: State, c: BlindClaim): State
  {
    if Grants(s, c) then s.(rows := s.rows[c.plan := Row(c.query, c.scope, c.source, c.claimedAt, c)]) else s
  }

  predicate Completes(s: State, c: Claim)
  {
    && c.completion.Some? && c.plan in s.rows
    && var stored := s.rows[c.plan].payload;
       stored.query == c.query && stored.source == c.source && stored.claimedAt == c.claimedAt && stored.completion.None?
  }

  function CompletionAnswer(s: State, c: BlindClaim): Result<BlindClaim, ClaimError>
  {
    if c.completion.None? then Err(ResultMissing)
    else if c.plan !in s.rows then Err(NotClaimed)
    else
      var stored := s.rows[c.plan].payload;
      if stored.query != c.query || stored.source != c.source || stored.claimedAt != c.claimedAt then Err(NotTheClaim)
      else if stored.completion.Some? && stored != c then Err(AlreadyCompleted)
      else Ok(c)
  }

  function Completed(s: State, c: BlindClaim): State
  {
    if Completes(s, c) then s.(rows := s.rows[c.plan := s.rows[c.plan].(payload := c)]) else s
  }

  /** The claims table, changed in place. */
  class BlindEvaluations {
    const plans: map<int, Plan>
    var rows: map<int, Row>

    function View(): State
      reads this
    {
      State(plans, rows)
    }

    constructor (plans: map<int, Plan>)
      ensures View() == State(plans, map[])
    {
      this.plans := plans;
      rows := map[];
    }

    method Claim(c: BlindClaim) returns (answer: Result<BlindClaim, ClaimError>)
      modifies this
      ensures View() == Claimed(old(View()), c) && answer == ClaimAnswer(old(View()), c)
    {
      if c.completion.Some? {
        return Err(CarriesResult);
      }
      if c.plan !in plans || !plans[c.plan].requiresBlind || plans[c.plan].queryBudget != 1 {
        return Err(NoBudget);
      }
      if c.plan in rows {
        var stored := rows[c.plan].payload;
        if stored.query != c.query || stored.scope != c.scope || stored.source != c.source {
          return Err(BudgetSpent);
        }
        return Ok(stored);
      }
      if exists p :: p in rows && Overlap(rows[p].scope, c.scope) {
        return Err(WindowRevealed);
      }
      if exists p :: p in rows && (rows[p].query == c.query || rows[p].scope == c.scope) {
        return Err(WindowTaken);
      }
      rows := rows[c.plan := Row(c.query, c.scope, c.source, c.claimedAt, c)];
      answer := Ok(c);
    }

    method Complete(c: BlindClaim) returns (answer: Result<BlindClaim, ClaimError>)
      modifies this
      ensures View() == Completed(old(View()), c) && answer == CompletionAnswer(old(View()), c)
    {
      if c.completion.None? {
        return Err(ResultMissing);
      }
      if c.plan !in rows {
        return Err(NotClaimed);
      }
      var stored := rows[c.plan].payload;
      if stored.query != c.query || stored.source != c.source || stored.claimedAt != c.claimedAt {
        return Err(NotTheClaim);
      }
      if stored.completion.Some? {
        return if stored != c then Err(AlreadyCompleted) else Ok(stored);
      }
      rows := rows[c.plan := rows[c.plan].(payload := c)];
      answer := Ok(c);
    }
  }

  // ----- Every run

  datatype Action = ToClaim(claim: BlindClaim) | ToComplete(claim: BlindClaim)

  function Step(s: State, a: Action): State
  {
    match a
    case ToClaim(c) => Claimed(s, c)
    case ToComplete(c) => Completed(s, c)
  }

  function Run(s: State, actions: seq<Action>): State
  {
    if actions == [] then s else Step(Run(s, actions[..|actions| - 1]), actions[|actions| - 1])
  }

  /** The claims that wrote a row, in order: each revealed one window. */
  function Granted(s: State, actions: seq<Action>): seq<BlindClaim>
  {
    if actions == [] then [] else
      var n := |actions| - 1;
      var before, a := Run(s, actions[..n]), actions[n];
      Granted(s, actions[..n]) + if a.ToClaim? && Grants(before, a.claim) then [a.claim] else []
  }

  /** A row's columns are those of the claim that wrote it; its payload may only have gained a result. */
  ghost predicate RowOf(r: Row, c: Claim)
  {
    && r.query == c.query && r.scope == c.scope && r.source == c.source && r.claimedAt == c.claimedAt
    && r.payload.plan == c.plan && r.payload.query == c.query && r.payload.source == c.source && r.payload.claimedAt == c.claimedAt
    && (r.payload.completion.None? ==> r.payload == c)
  }

  ghost predicate RowsAre(s: State, granted: seq<BlindClaim>)
  {
    && (forall p :: p in s.rows ==> exists c :: c in granted && c.plan == p && RowOf(s.rows[p], c))
    && (forall c :: c in granted ==> c.plan in s.rows && RowOf(s.rows[c.plan], c) && HasBudget(s, c.plan) && c.completion.None?)
  }

  /** No two revelations share a plan, a query or any moment of one symbol. */
  ghost predicate RevealedApart(granted: seq<BlindClaim>)
  {
    forall i, j :: 0 <= i < j < |granted| ==>
      && granted[i].plan != granted[j].plan && granted[i].query != granted[j].query
      && granted[i].scope != granted[j].scope && !Overlap(granted[i].scope, granted[j].scope)
  }

  lemma {:induction false} RunsRevealApart(plans: map<int, Plan>, actions: seq<Action>)
    ensures
      var start := State(plans, map[]);
      RevealedApart(Granted(start, actions)) && RowsAre(Run(start, actions), Granted(start, actions))
  {
    if actions != [] {
      var n, start := |actions| - 1, State(plans, map[]);
      RunsRevealApart(plans, actions[..n]);
      var before, granted := Run(start, actions[..n]), Granted(start, actions[..n]);
      if actions[n].ToClaim? { ClaimKeepsApart(before, granted, actions[n].claim); }
      else { CompletionKeepsRows(before, granted, actions[n].claim); }
    }
  }

  lemma ClaimKeepsApart(s: State, granted: seq<BlindClaim>, c: BlindClaim)
    requires RowsAre(s, granted) && RevealedApart(granted)
    ensures
      var more := granted + if Grants(s, c) then [c] else [];
      RowsAre(Claimed(s, c), more) && RevealedApart(more)
  {
    if Grants(s, c) {
      forall g | g in granted ensures g.plan != c.plan && g.query != c.query && g.scope != c.scope && !Overlap(g.scope, c.scope) {
        assert RowOf(s.rows[g.plan], g);
      }
      assert forall i :: 0 <= i < |granted| ==> granted[i] in granted;
      assert c in granted + [c];
    } else {
      assert granted + [] == granted;
    }
  }

  lemma CompletionKeepsRows(s: State, granted: seq<BlindClaim>, c: BlindClaim)
    requires RowsAre(s, granted)
    ensures RowsAre(Completed(s, c), granted)
  {
  }

  lemma {:induction false} RunContinues(s: State, first: seq<Action>, more: seq<Action>)
    ensures Run(s, first + more) == Run(Run(s, first), more)
  {
    if more == [] {
      assert first + more == first;
    } else {
      var n := |more| - 1;
      RunContinues(s, first, more[..n]);
      assert (first + more)[..|first + more| - 1] == first + more[..n];
    }
  }

  /** A registered result stands for good. */
  lemma {:induction false} CompletionIsFinal(s: State, actions: seq<Action>, plan: int)
    requires plan in s.rows && s.rows[plan].payload.completion.Some?
    ensures plan in Run(s, actions).rows && Run(s, actions).rows[plan] == s.rows[plan]
  {
    if actions != [] { CompletionIsFinal(s, actions[..|actions| - 1], plan); }
  }

  /** Once revealed, a window is known to every later state: no later claim on it is granted, whatever was completed since. */
  lemma {:induction false} RevealedStaysRevealed(plans: map<int, Plan>, first: seq<Action>, more: seq<Action>, c: BlindClaim, late: BlindClaim)
    requires c in Granted(State(plans, map[]), first) && Overlap(c.scope, late.scope)
    ensures !Grants(Run(State(plans, map[]), first + more), late)
  {
    var start := State(plans, map[]);
    RunsRevealApart(plans, first);
    RunContinues(start, first, more);
    RowsStay(Run(start, first), more, c.plan);
    assert RowOf(Run(start, first).rows[c.plan], c);
  }

  lemma {:induction false} RowsStay(s: State, actions: seq<Action>, plan: int)
    requires plan in s.rows
    ensures plan in Run(s, actions).rows
    ensures
      var was, now := s.rows[plan], Run(s, actions).rows[plan];
      now.query == was.query && now.scope == was.scope && now.source == was.source && now.claimedAt == was.claimedAt
  {
    if actions != [] { RowsStay(s, actions[..|actions| - 1], plan); }
  }

  /** Retrying a granted claim returns what is stored, exactly as long as no completion has changed the stored window. */
  lemma {:induction false} RetryReturnsTheClaimExactlyWhen(plans: map<int, Plan>, actions: seq<Action>, c: BlindClaim)
    requires c in Granted(State(plans, map[]), actions)
    ensures
      var s := Run(State(plans, map[]), actions);
      && c.plan in s.rows
      && (ClaimAnswer(s, c) == Ok(s.rows[c.plan].payload) <==> s.rows[c.plan].payload.scope == s.rows[c.plan].scope)
      && (ClaimAnswer(s, c).Ok? <==> s.rows[c.plan].payload.scope == s.rows[c.plan].scope)
      && Claimed(s, c) == s
  {
    RunsRevealApart(plans, actions);
    assert RowOf(Run(State(plans, map[]), actions).rows[c.plan], c);
  }

  /** Completion does not check the window: it may move it, and then the original caller's retry is refused. */
  lemma {:induction false} CompletionMayMoveTheWindow()
    ensures
      var claim := Claim(1, 5, Scope(9, 0, 10), 3, 0, None);
      var moved := claim.(scope := Scope(9, 20, 30), completion := Some(Completion(50, 1, 1)));
      var s := Run(State(map[1 := Plan(true, 1)], map[]), [ToClaim(claim), ToComplete(moved)]);
      && WellFormed(claim) && WellFormed(moved)
      && 1 in s.rows && s.rows[1].payload == moved && ClaimAnswer(s, claim) == Err(BudgetSpent)
  {
    var claim := Claim(1, 5, Scope(9, 0, 10), 3, 0, None);
    var moved := claim.(scope := Scope(9, 20, 30), completion := Some(Completion(50, 1, 1)));
    var start := State(map[1 := Plan(true, 1)], map[]);
    var actions := [ToClaim(claim), ToComplete(moved)];
    assert actions[..1] == [ToClaim(claim)] && [ToClaim(claim)][..0] == [];
    assert Run(start, [ToClaim(claim)]) == Claimed(start, claim);
    assert Run(start, actions) == Completed(Claimed(start, claim), moved);
  }
}
