/**
 The append-only forecast ledger: contracts, producer bindings, decision slots, slot obligations, absences and forecasts
 (src/investment_manager/forecast/contract_repository.py and repository.py, with the unique keys of tables.py). Each public
 method is one atomic step. The database is the sequence of its rows in order of insertion.
 */
module ForecastLedger {
  import opened Results
  import opened Sums

  datatype ProducerKind = Program | Context

  datatype Permission = Research | CapitalCandidate

  datatype Target = Target(id: int, legs: seq<int>)

  datatype Contract = Contract(
    id: int, family: int, target: Target, horizon: int, startDelay: Option<int>, orientations: set<int>,
    buckets: seq<int>, representatives: seq<real>)

  datatype Binding = Binding(id: int, contract: int, kind: ProducerKind, producer: int, behavior: int, permission: Permission)

  /** Times and durations in seconds. */
  datatype Slot = Slot(
    id: int, contract: int, asOf: int, cutoff: int, deadline: int, outcomeStart: Option<int>, evaluation: int,
    prices: seq<(int, real)>)

  datatype Duty = Duty(slot: int, binding: int, contract: int, kind: ProducerKind, producer: int, behavior: int, assignedAt: int)

  datatype Absence = Absence(id: int, slot: int, contract: int, kind: ProducerKind, producer: int, behavior: int, reason: int)

  datatype Basis = Base(analysisInput: bool, programInput: bool) | Calibrated(base: int, policy: int)

  datatype Forecast = Forecast(
    id: int, contract: int, slot: int, producer: int, behavior: int, family: int, target: Target, horizon: int,
    orientation: int, cutoff: int, prices: seq<(int, real)>, availableAt: int,
    buckets: seq<int>, probabilities: seq<real>, expectedGross: real, basis: Basis)

  datatype Row =
    | ContractRow(contract: Contract)
    | BindingRow(binding: Binding)
    | SlotRow(slot: Slot)
    | DutyRow(duty: Duty)
    | AbsenceRow(absence: Absence)
    | ForecastRow(forecast: Forecast)

  function DutyOf(s: Slot, b: Binding): Duty { Duty(s.id, b.id, s.contract, b.kind, b.producer, b.behavior, s.asOf) }

  // ----- Queries by key

  function FindContract(rows: seq<Row>, id: int): (r: Option<Contract>)
    ensures r.Some? ==> ContractRow(r.value) in rows && r.value.id == id
    ensures r.None? ==> forall x :: x in rows && x.ContractRow? ==> x.contract.id != id
  {
    if rows == [] then None else
      var n := |rows| - 1;
      assert rows == rows[..n] + [rows[n]];
      if rows[n].ContractRow? && rows[n].contract.id == id then Some(rows[n].contract) else FindContract(rows[..n], id)
  }

  function FindBinding(rows: seq<Row>, id: int): (r: Option<Binding>)
    ensures r.Some? ==> BindingRow(r.value) in rows && r.value.id == id
    ensures r.None? ==> forall x :: x in rows && x.BindingRow? ==> x.binding.id != id
  {
    if rows == [] then None else
      var n := |rows| - 1;
      assert rows == rows[..n] + [rows[n]];
      if rows[n].BindingRow? && rows[n].binding.id == id then Some(rows[n].binding) else FindBinding(rows[..n], id)
  }

  function FindSlot(rows: seq<Row>, id: int): (r: Option<Slot>)
    ensures r.Some? ==> SlotRow(r.value) in rows && r.value.id == id
    ensures r.None? ==> forall x :: x in rows && x.SlotRow? ==> x.slot.id != id
  {
    if rows == [] then None else
      var n := |rows| - 1;
      assert rows == rows[..n] + [rows[n]];
      if rows[n].SlotRow? && rows[n].slot.id == id then Some(rows[n].slot) else FindSlot(rows[..n], id)
  }

  function FindDuty(rows: seq<Row>, slot: int, behavior: int): (r: Option<Duty>)
    ensures r.Some? ==> DutyRow(r.value) in rows && r.value.slot == slot && r.value.behavior == behavior
    ensures r.None? ==> forall x :: x in rows && x.DutyRow? ==> !(x.duty.slot == slot && x.duty.behavior == behavior)
  {
    if rows == [] then None else
      var n := |rows| - 1;
      assert rows == rows[..n] + [rows[n]];
      if rows[n].DutyRow? && rows[n].duty.slot == slot && rows[n].duty.behavior == behavior then Some(rows[n].duty)
      else FindDuty(rows[..n], slot, behavior)
  }

  function FindForecast(rows: seq<Row>, id: int): (r: Option<Forecast>)
    ensures r.Some? ==> ForecastRow(r.value) in rows && r.value.id == id
    ensures r.None? ==> forall x :: x in rows && x.ForecastRow? ==> x.forecast.id != id
  {
    if rows == [] then None else
      var n := |rows| - 1;
      assert rows == rows[..n] + [rows[n]];
      if rows[n].ForecastRow? && rows[n].forecast.id == id then Some(rows[n].forecast) else FindForecast(rows[..n], id)
  }

  predicate IsAbsent(rows: seq<Row>, slot: int, behavior: int)
  {
    exists x :: x in rows && x.AbsenceRow? && x.absence.slot == slot && x.absence.behavior == behavior
  }

  predicate IsForecast(rows: seq<Row>, slot: int, behavior: int)
  {
    exists x :: x in rows && x.ForecastRow? && x.forecast.slot == slot && x.forecast.behavior == behavior
  }

  // ----- Unique keys

  /** Two rows that may not both be in the database. */
  predicate SameKey(a: Row, b: Row)
  {
    match (a, b)
    case (ContractRow(x), ContractRow(y)) => x.id == y.id
    case (BindingRow(x), BindingRow(y)) =>
      x.id == y.id || (x.contract == y.contract && x.behavior == y.behavior && x.permission == y.permission)
    case (SlotRow(x), SlotRow(y)) => x.id == y.id
    case (DutyRow(x), DutyRow(y)) => x.slot == y.slot && (x.binding == y.binding || x.behavior == y.behavior)
    case (AbsenceRow(x), AbsenceRow(y)) => x.id == y.id || (x.slot == y.slot && x.behavior == y.behavior)
    case (ForecastRow(x), ForecastRow(y)) =>
      x.id == y.id || (x.slot == y.slot && x.behavior == y.behavior && x.basis.Base? == y.basis.Base?)
    case _ => false
  }

  predicate KeyTaken(rows: seq<Row>, r: Row) { exists x :: x in rows && SameKey(x, r) }

  // ----- What each row needs before it

  predicate SlotFits(s: Slot, c: Contract)
  {
    && s.evaluation == s.cutoff + c.horizon * 60
    && s.outcomeStart == (if c.startDelay.None? then None else Some(s.deadline + c.startDelay.value))
    && (s.prices != [] ==> Instruments(s.prices) == c.target.legs)
  }

  function Instruments(prices: seq<(int, real)>): seq<int> { seq(|prices|, i requires 0 <= i < |prices| => prices[i].0) }

  function ExpectedGross(p: seq<real>, representatives: seq<real>): real
    requires |p| == |representatives|
  {
    if p == [] then 0.0 else
      var n := |p| - 1; ExpectedGross(p[..n], representatives[..n]) + Times(p[n], representatives[n])
  }

  predicate ForecastFits(f: Forecast, c: Contract, s: Slot)
  {
    && f.family == c.family && f.target == c.target && f.horizon == c.horizon && f.orientation in c.orientations
    && f.cutoff == s.cutoff && f.prices == s.prices && f.availableAt <= s.deadline
    && f.buckets == c.buckets && |f.probabilities| == |f.buckets| == |c.representatives|
    && f.expectedGross == ExpectedGross(f.probabilities, c.representatives)
  }

  predicate DutyCovers(d: Duty, f: Forecast)
  {
    && d.slot == f.slot && d.behavior == f.behavior && d.contract == f.contract && d.producer == f.producer
    && (f.basis.Base? && d.kind == Context ==> f.basis.analysisInput && !f.basis.programInput)
  }

  predicate Calibrates(f: Forecast, base: Forecast)
    requires f.basis.Calibrated?
  {
    base.id == f.basis.base && base.basis.Base? && base.contract == f.contract && base.slot == f.slot && base.behavior == f.behavior
  }

  predicate Owed(d: Duty, a: Absence)
  {
    d.slot == a.slot && d.behavior == a.behavior && d.contract == a.contract && d.kind == a.kind && d.producer == a.producer
  }

  /** The rows this one refers to are there. */
  ghost predicate Supported(rows: seq<Row>, r: Row)
  {
    match r
    case ContractRow(_) => true
    case BindingRow(b) => exists c :: ContractRow(c) in rows && c.id == b.contract
    case SlotRow(s) => exists c :: ContractRow(c) in rows && c.id == s.contract && SlotFits(s, c)
    case DutyRow(d) =>
      exists s, b :: SlotRow(s) in rows && BindingRow(b) in rows && b.contract == s.contract && d == DutyOf(s, b)
    case AbsenceRow(a) =>
      && (exists s :: SlotRow(s) in rows && s.id == a.slot && s.contract == a.contract)
      && (exists d :: DutyRow(d) in rows && Owed(d, a))
    case ForecastRow(f) =>
      && (exists c, s :: ContractRow(c) in rows && SlotRow(s) in rows && c.id == f.contract && s.id == f.slot
                         && s.contract == f.contract && ForecastFits(f, c, s))
      && (exists d :: DutyRow(d) in rows && DutyCovers(d, f))
      && (f.basis.Calibrated? ==> exists base :: ForecastRow(base) in rows && Calibrates(f, base))
  }

  /** An answer already given that this row would contradict. */
  predicate Blocked(rows: seq<Row>, r: Row)
  {
    match r
    case DutyRow(d) => IsForecast(rows, d.slot, d.behavior) || IsAbsent(rows, d.slot, d.behavior)
    case AbsenceRow(a) => IsForecast(rows, a.slot, a.behavior)
    case ForecastRow(f) => IsAbsent(rows, f.slot, f.behavior)
    case _ => false
  }

  ghost predicate Admissible(rows: seq<Row>, r: Row) { Supported(rows, r) && !Blocked(rows, r) }

  /** Every row was admissible, and its keys free, when it was written. */
  ghost predicate Lawful(rows: seq<Row>)
  {
    forall i :: 0 <= i < |rows| ==> Admissible(rows[..i], rows[i]) && !KeyTaken(rows[..i], rows[i])
  }

  datatype LedgerError = Refused | Conflict

  /** True: written now. False: an exact retry. */
  ghost function Answer(rows: seq<Row>, r: Row): Result<bool, LedgerError>
  {
    if r in rows then Ok(false)
    else if !Admissible(rows, r) then Err(Refused)
    else if KeyTaken(rows, r) then Err(Conflict)
    else Ok(true)
  }

  ghost function After(rows: seq<Row>, r: Row): seq<Row> { if Answer(rows, r) == Ok(true) then rows + [r] else rows }

  lemma LawfulPush(rows: seq<Row>, r: Row)
    requires Lawful(rows) && Admissible(rows, r) && !KeyTaken(rows, r)
    ensures Lawful(rows + [r])
  {
    hide Admissible, KeyTaken;
    var longer := rows + [r];
    forall i | 0 <= i < |longer| ensures Admissible(longer[..i], longer[i]) && !KeyTaken(longer[..i], longer[i]) {
      assert longer[..i] == rows[..i];
      if i == |rows| { assert rows[..i] == rows; }
    }
  }

  lemma AfterIsLawful(rows: seq<Row>, r: Row)
    requires Lawful(rows)
    ensures Lawful(After(rows, r))
  {
    hide Admissible, KeyTaken, Lawful;
    if Answer(rows, r) == Ok(true) { LawfulPush(rows, r); }
  }

  /** Any sequence of attempts, written or not. A new slot is two of them. */
  ghost function RunAll(rows: seq<Row>, attempts: seq<Row>): seq<Row>
  {
    if attempts == [] then rows else
      var n := |attempts| - 1; After(RunAll(rows, attempts[..n]), attempts[n])
  }

  /** Every run keeps the ledger lawful, and what is written stays written, in place. */
  lemma {:induction false} RunsOnlyAppend(rows: seq<Row>, attempts: seq<Row>)
    requires Lawful(rows)
    ensures Lawful(RunAll(rows, attempts)) && rows <= RunAll(rows, attempts)
  {
    hide Lawful, Answer;
    if attempts != [] {
      var n := |attempts| - 1;
      RunsOnlyAppend(rows, attempts[..n]);
      AfterIsLawful(RunAll(rows, attempts[..n]), attempts[n]);
    }
  }

  // ----- Safety of every lawful ledger

  lemma LaterKeyIsFree(rows: seq<Row>, i: nat, j: nat)
    requires Lawful(rows) && i < j < |rows|
    ensures !SameKey(rows[i], rows[j])
  {
    hide Admissible, SameKey;
    assert rows[i] in rows[..j];
  }

  lemma SameKeyBothWays(a: Row, b: Row)
    ensures SameKey(a, b) <==> SameKey(b, a)
  {
  }

  lemma {:induction false} KeysAreUnique(rows: seq<Row>, a: Row, b: Row)
    requires Lawful(rows) && a in rows && b in rows && SameKey(a, b)
    ensures a == b
  {
    hide Lawful, SameKey, KeyTaken, Admissible;
    var i :| 0 <= i < |rows| && rows[i] == a;
    var j :| 0 <= j < |rows| && rows[j] == b;
    SameKeyBothWays(a, b);
    if i < j { LaterKeyIsFree(rows, i, j); } else if j < i { LaterKeyIsFree(rows, j, i); }
  }

  lemma WasAdmissible(rows: seq<Row>, r: Row) returns (i: nat)
    requires Lawful(rows) && r in rows
    ensures i < |rows| && rows[i] == r && Admissible(rows[..i], r)
  {
    i :| 0 <= i < |rows| && rows[i] == r;
  }

  lemma WasNotBlocked(rows: seq<Row>, k: nat)
    requires Lawful(rows) && k < |rows|
    ensures !Blocked(rows[..k], rows[k])
  {
    hide Supported, Blocked, KeyTaken;
    assert Admissible(rows[..k], rows[k]);
  }

  /** No producer both answered a slot and declared it unanswerable. */
  lemma {:induction false} NoAnswerIsContradicted(rows: seq<Row>, f: Forecast, a: Absence)
    requires Lawful(rows) && ForecastRow(f) in rows && AbsenceRow(a) in rows
    ensures !(f.slot == a.slot && f.behavior == a.behavior)
  {
    hide Lawful, Admissible;
    var i :| 0 <= i < |rows| && rows[i] == ForecastRow(f);
    var j :| 0 <= j < |rows| && rows[j] == AbsenceRow(a);
    if i < j {
      WasNotBlocked(rows, j);
      assert rows[i] in rows[..j];
    } else {
      WasNotBlocked(rows, i);
      assert rows[j] in rows[..i];
    }
  }

  ghost predicate OnlyDuty(rows: seq<Row>, d: Duty)
  {
    forall e :: DutyRow(e) in rows && e.slot == d.slot && e.behavior == d.behavior ==> e == d
  }

  lemma DutyIsUnique(rows: seq<Row>, d: Duty)
    requires Lawful(rows) && DutyRow(d) in rows
    ensures OnlyDuty(rows, d)
  {
    hide Lawful;
    forall e | DutyRow(e) in rows && e.slot == d.slot && e.behavior == d.behavior ensures e == d {
      KeysAreUnique(rows, DutyRow(e), DutyRow(d));
    }
  }

  /** Every forecast answers the one obligation its producer had for the slot, which was written before it. */
  lemma {:induction false} ForecastWasOwed(rows: seq<Row>, k: nat) returns (j: nat)
    requires Lawful(rows) && k < |rows| && rows[k].ForecastRow?
    ensures j < k && rows[j].DutyRow? && DutyCovers(rows[j].duty, rows[k].forecast)
    ensures OnlyDuty(rows, rows[j].duty)
  {
    var f := rows[k].forecast;
    assert Admissible(rows[..k], rows[k]);
    var d :| DutyRow(d) in rows[..k] && DutyCovers(d, f);
    j :| 0 <= j < k && rows[j] == DutyRow(d);
    DutyIsUnique(rows, d);
  }

  lemma {:induction false} AbsenceWasOwed(rows: seq<Row>, k: nat) returns (j: nat)
    requires Lawful(rows) && k < |rows| && rows[k].AbsenceRow?
    ensures j < k && rows[j].DutyRow? && Owed(rows[j].duty, rows[k].absence)
    ensures OnlyDuty(rows, rows[j].duty)
  {
    var a := rows[k].absence;
    assert Admissible(rows[..k], rows[k]);
    var d :| DutyRow(d) in rows[..k] && Owed(d, a);
    j :| 0 <= j < k && rows[j] == DutyRow(d);
    DutyIsUnique(rows, d);
  }

  ghost predicate OnlyBase(rows: seq<Row>, base: Forecast)
  {
    forall g :: ForecastRow(g) in rows && g.basis.Base? && g.slot == base.slot && g.behavior == base.behavior ==> g == base
  }

  lemma BaseOf(rows: seq<Row>, f: Forecast) returns (base: Forecast)
    requires f.basis.Calibrated? && Admissible(rows, ForecastRow(f))
    ensures ForecastRow(base) in rows && Calibrates(f, base)
  {
    hide ForecastFits, DutyCovers, IsAbsent, Calibrates;
    base :| ForecastRow(base) in rows && Calibrates(f, base);
  }

  lemma BaseIsUnique(rows: seq<Row>, base: Forecast)
    requires Lawful(rows) && ForecastRow(base) in rows && base.basis.Base?
    ensures OnlyBase(rows, base)
  {
    hide Lawful;
    forall g | ForecastRow(g) in rows && g.basis.Base? && g.slot == base.slot && g.behavior == base.behavior ensures g == base {
      KeysAreUnique(rows, ForecastRow(g), ForecastRow(base));
    }
  }

  /** A calibrated forecast stands on the one base forecast of its slot and producer, written before it. */
  lemma {:induction false} CalibratedHasItsBase(rows: seq<Row>, k: nat) returns (j: nat)
    requires Lawful(rows) && k < |rows| && rows[k].ForecastRow? && rows[k].forecast.basis.Calibrated?
    ensures j < k && rows[j].ForecastRow? && Calibrates(rows[k].forecast, rows[j].forecast)
    ensures OnlyBase(rows, rows[j].forecast)
  {
    assert Admissible(rows[..k], rows[k]);
    hide Lawful, Admissible;
    var base := BaseOf(rows[..k], rows[k].forecast);
    j :| 0 <= j < k && rows[j] == ForecastRow(base);
    BaseIsUnique(rows, base);
  }

  /** What a forecast reports is what the contract of that id prescribes, now and not only when it was written. */
  lemma {:induction false} ForecastFitsItsContract(rows: seq<Row>, f: Forecast, c: Contract)
    requires Lawful(rows) && ForecastRow(f) in rows && ContractRow(c) in rows && c.id == f.contract
    ensures |f.probabilities| == |c.representatives| && f.buckets == c.buckets
    ensures f.expectedGross == ExpectedGross(f.probabilities, c.representatives)
  {
    var i := WasAdmissible(rows, ForecastRow(f));
    var d, s :| ContractRow(d) in rows[..i] && SlotRow(s) in rows[..i] && d.id == f.contract && s.id == f.slot
                && s.contract == f.contract && ForecastFits(f, d, s);
    KeysAreUnique(rows, ContractRow(c), ContractRow(d));
  }

  /** Contract, then binding and slot, then obligation: an obligation is what its slot and binding made it. */
  lemma {:induction false} DutyHasItsSource(rows: seq<Row>, k: nat) returns (s: Slot, b: Binding)
    requires Lawful(rows) && k < |rows| && rows[k].DutyRow?
    ensures SlotRow(s) in rows[..k] && BindingRow(b) in rows[..k] && rows[k].duty == DutyOf(s, b) && b.contract == s.contract
    ensures !IsForecast(rows[..k], rows[k].duty.slot, rows[k].duty.behavior)
    ensures !IsAbsent(rows[..k], rows[k].duty.slot, rows[k].duty.behavior)
  {
    assert Admissible(rows[..k], rows[k]);
    s, b :| SlotRow(s) in rows[..k] && BindingRow(b) in rows[..k] && b.contract == s.contract && rows[k].duty == DutyOf(s, b);
  }

  // ----- The join of forecasts to obligations

  function Joins(f: Forecast, d: Duty): bool { d.slot == f.slot && d.producer == f.producer && d.behavior == f.behavior }

  function Matches(f: Forecast, duties: seq<Duty>): seq<(Forecast, Duty)>
  {
    if duties == [] then [] else
      var n := |duties| - 1;
      Matches(f, duties[..n]) + if Joins(f, duties[n]) then [(f, duties[n])] else []
  }

  function Join(forecasts: seq<Forecast>, duties: seq<Duty>): seq<(Forecast, Duty)>
  {
    if forecasts == [] then [] else
      var n := |forecasts| - 1; Join(forecasts[..n], duties) + Matches(forecasts[n], duties)
  }

  function Forecasts(rows: seq<Row>): (fs: seq<Forecast>)
    ensures forall f :: f in fs <==> ForecastRow(f) in rows
  {
    if rows == [] then [] else
      var n := |rows| - 1;
      assert rows == rows[..n] + [rows[n]];
      Forecasts(rows[..n]) + if rows[n].ForecastRow? then [rows[n].forecast] else []
  }

  function Duties(rows: seq<Row>): (ds: seq<Duty>)
    ensures forall d :: d in ds <==> DutyRow(d) in rows
  {
    if rows == [] then [] else
      var n := |rows| - 1;
      assert rows == rows[..n] + [rows[n]];
      Duties(rows[..n]) + if rows[n].DutyRow? then [rows[n].duty] else []
  }

  ghost predicate Distinct(duties: seq<Duty>)
  {
    forall i, j :: 0 <= i < j < |duties| ==> !(duties[i].slot == duties[j].slot && duties[i].behavior == duties[j].behavior)
  }

  lemma LawfulPrefix(rows: seq<Row>, n: nat)
    requires Lawful(rows) && n <= |rows|
    ensures Lawful(rows[..n])
  {
    hide Admissible, KeyTaken;
    forall i | 0 <= i < n ensures Admissible(rows[..n][..i], rows[..n][i]) && !KeyTaken(rows[..n][..i], rows[..n][i]) {
      assert rows[..n][..i] == rows[..i];
    }
  }

  lemma {:induction false} DutiesAreDistinct(rows: seq<Row>)
    requires Lawful(rows)
    ensures Distinct(Duties(rows))
  {
    hide Admissible;
    if rows != [] {
      var n := |rows| - 1;
      LawfulPrefix(rows, n);
      DutiesAreDistinct(rows[..n]);
      if rows[n].DutyRow? {
        var before := Duties(rows[..n]);
        assert !KeyTaken(rows[..n], rows[n]);
        hide Lawful;
        forall i | 0 <= i < |before| ensures !(before[i].slot == rows[n].duty.slot && before[i].behavior == rows[n].duty.behavior) {
          assert DutyRow(before[i]) in rows[..n];
        }
      }
    }
  }

  lemma {:induction false} NoMatch(f: Forecast, duties: seq<Duty>)
    requires forall i :: 0 <= i < |duties| ==> !Joins(f, duties[i])
    ensures Matches(f, duties) == []
  {
    if duties != [] { NoMatch(f, duties[..|duties| - 1]); }
  }

  lemma JoinsOnce(f: Forecast, duties: seq<Duty>, i: nat, j: nat)
    requires Distinct(duties) && i < |duties| && j < |duties| && i != j && Joins(f, duties[i])
    ensures !Joins(f, duties[j])
  {
    assert i < j || j < i;
  }

  lemma {:induction false} OneMatch(f: Forecast, duties: seq<Duty>, k: nat)
    requires Distinct(duties) && k < |duties| && Joins(f, duties[k])
    ensures Matches(f, duties) == [(f, duties[k])]
  {
    hide Joins;
    var n := |duties| - 1;
    if k == n {
      forall i | 0 <= i < n ensures !Joins(f, duties[..n][i]) { JoinsOnce(f, duties, n, i); }
      NoMatch(f, duties[..n]);
    } else {
      OneMatch(f, duties[..n], k);
      JoinsOnce(f, duties, k, n);
    }
  }

  function Firsts(pairs: seq<(Forecast, Duty)>): seq<Forecast>
  {
    seq(|pairs|, i requires 0 <= i < |pairs| => pairs[i].0)
  }

  ghost predicate IsOwed(f: Forecast, duties: seq<Duty>) { exists d :: d in duties && Joins(f, d) }

  lemma OwedMatchesOnce(f: Forecast, duties: seq<Duty>)
    requires Distinct(duties) && IsOwed(f, duties)
    ensures |Matches(f, duties)| == 1 && Matches(f, duties)[0].0 == f
  {
    var d :| d in duties && Joins(f, d);
    var k :| 0 <= k < |duties| && duties[k] == d;
    OneMatch(f, duties, k);
  }

  lemma FirstsPush(pairs: seq<(Forecast, Duty)>, one: seq<(Forecast, Duty)>)
    requires |one| == 1
    ensures Firsts(pairs + one) == Firsts(pairs) + [one[0].0]
  {
  }

  lemma {:induction false} JoinKeeps(forecasts: seq<Forecast>, duties: seq<Duty>)
    requires Distinct(duties) && forall i :: 0 <= i < |forecasts| ==> IsOwed(forecasts[i], duties)
    ensures Firsts(Join(forecasts, duties)) == forecasts
  {
    if forecasts != [] {
      var n := |forecasts| - 1;
      var f := forecasts[n];
      hide Distinct, Matches, IsOwed, Firsts;
      JoinKeeps(forecasts[..n], duties);
      OwedMatchesOnce(f, duties);
      FirstsPush(Join(forecasts[..n], duties), Matches(f, duties));
    }
  }

  /** Reading forecasts through their obligations loses none and repeats none. */
  lemma {:induction false} JoinYieldsEachForecastOnce(rows: seq<Row>)
    requires Lawful(rows)
    ensures Firsts(Join(Forecasts(rows), Duties(rows))) == Forecasts(rows)
  {
    DutiesAreDistinct(rows);
    hide Lawful;
    var fs := Forecasts(rows);
    forall i | 0 <= i < |fs| ensures IsOwed(fs[i], Duties(rows)) {
      assert fs[i] in fs;
      var k :| 0 <= k < |rows| && rows[k] == ForecastRow(fs[i]);
      var j := ForecastWasOwed(rows, k);
      assert rows[j].duty in Duties(rows) && Joins(fs[i], rows[j].duty);
    }
    JoinKeeps(fs, Duties(rows));
  }

  // ----- The ledger as a database that only grows

  class ForecastLedger {
    var rows: seq<Row>

    ghost predicate Valid()
      reads this
    {
      Lawful(rows)
    }

    constructor ()
      ensures Valid() && rows == []
    {
      rows := [];
    }

    /** The insertion itself: a taken key is a conflict unless the very same row holds it. */
    method Insert(r: Row) returns (answer: Result<bool, LedgerError>)
      requires Valid() && (r in rows || Admissible(rows, r))
      modifies this
      ensures Valid() && rows == After(old(rows), r) && answer == Answer(old(rows), r)
    {
      hide Admissible, Lawful;
      if KeyTaken(rows, r) {
        answer := if r in rows then Ok(false) else Err(Conflict);
      } else {
        assert r !in rows by { NotYet(rows, r); }
        LawfulPush(rows, r);
        rows := rows + [r];
        answer := Ok(true);
      }
    }

    method RecordContract(c: Contract) returns (answer: Result<bool, LedgerError>)
      requires Valid()
      modifies this
      ensures Valid() && rows == After(old(rows), ContractRow(c)) && answer == Answer(old(rows), ContractRow(c))
    {
      answer := Insert(ContractRow(c));
    }

    method RecordBinding(b: Binding) returns (answer: Result<bool, LedgerError>)
      requires Valid()
      modifies this
      ensures Valid() && rows == After(old(rows), BindingRow(b)) && answer == Answer(old(rows), BindingRow(b))
    {
      RetryPasses(rows, BindingRow(b));
      if FindContract(rows, b.contract).None? {
        return Err(Refused);
      }
      answer := Insert(BindingRow(b));
    }

    /** A slot is written together with the obligation of the producer that opened it; a known slot only gains the obligation. */
    method RecordSlot(s: Slot, b: Binding) returns (answer: Result<bool, LedgerError>)
      requires Valid()
      modifies this
      ensures Valid()
      ensures answer == SlotAnswer(old(rows), s, b)
      ensures rows == if answer == Ok(true) then old(rows) + [SlotRow(s), DutyRow(DutyOf(s, b))]
                      else if answer == Ok(false) then After(old(rows), DutyRow(DutyOf(s, b))) else old(rows)
    {
      SlotChecks(rows, s, b);
      assert SlotMayOpen(rows, s, b) && SlotRow(s) in rows ==> Authoritative(rows, s, b);
      hide Lawful, Supported, SlotFits, SlotMayOpen, Admissible, KeyTaken, Authoritative;
      var contract := FindContract(rows, s.contract);
      if contract.None? || FindBinding(rows, b.id) != Some(b) || b.contract != s.contract || !SlotFits(s, contract.value) {
        return Err(Refused);
      }
      var known := FindSlot(rows, s.id);
      if known.None? {
        NewSlot(rows, s, b);
        AfterIsLawful(rows, SlotRow(s));
        AfterIsLawful(rows + [SlotRow(s)], DutyRow(DutyOf(s, b)));
        assert rows + [SlotRow(s)] + [DutyRow(DutyOf(s, b))] == rows + [SlotRow(s), DutyRow(DutyOf(s, b))];
        rows := rows + [SlotRow(s), DutyRow(DutyOf(s, b))];
        answer := Ok(true);
      } else if known.value != s {
        answer := Err(Conflict);
      } else {
        var duty := RecordDuty(s, b);
        answer := if duty.Ok? then Ok(false) else duty;
      }
    }

    /** The obligation itself; it may come later than its slot, but never after an answer. */
    method RecordDuty(s: Slot, b: Binding) returns (answer: Result<bool, LedgerError>)
      requires Valid()
      modifies this
      ensures Valid() && answer == DutyAnswer(old(rows), s, b)
      ensures rows == if Authoritative(old(rows), s, b) then After(old(rows), DutyRow(DutyOf(s, b))) else old(rows)
    {
      DutyChecks(rows, s, b);
      hide Lawful, Admissible, Authoritative;
      if FindSlot(rows, s.id) != Some(s) || FindBinding(rows, b.id) != Some(b) {
        return Err(Refused);
      }
      if b.contract != s.contract {
        return Err(Refused);
      }
      var duty := DutyOf(s, b);
      if DutyRow(duty) in rows {
        return Ok(false);
      }
      if IsForecast(rows, s.id, b.behavior) || IsAbsent(rows, s.id, b.behavior) {
        return Err(Refused);
      }
      answer := Insert(DutyRow(duty));
    }

    method RecordAbsence(a: Absence) returns (answer: Result<bool, LedgerError>)
      requires Valid()
      modifies this
      ensures Valid() && rows == After(old(rows), AbsenceRow(a)) && answer == Answer(old(rows), AbsenceRow(a))
    {
      RetryPasses(rows, AbsenceRow(a));
      AbsenceChecks(rows, a);
      hide Lawful, Admissible;
      var slot := FindSlot(rows, a.slot);
      if slot.None? || slot.value.contract != a.contract {
        return Err(Refused);
      }
      var duty := FindDuty(rows, a.slot, a.behavior);
      if duty.None? || !Owed(duty.value, a) {
        return Err(Refused);
      }
      if IsForecast(rows, a.slot, a.behavior) {
        return Err(Refused);
      }
      answer := Insert(AbsenceRow(a));
    }

    method RecordForecast(f: Forecast) returns (answer: Result<bool, LedgerError>)
      requires Valid()
      modifies this
      ensures Valid() && rows == After(old(rows), ForecastRow(f)) && answer == Answer(old(rows), ForecastRow(f))
    {
      RetryPasses(rows, ForecastRow(f));
      ForecastChecks(rows, f);
      hide Lawful, Admissible, ForecastFits, DutyCovers, Calibrates;
      var contract, slot := FindContract(rows, f.contract), FindSlot(rows, f.slot);
      if contract.None? || slot.None? || slot.value.contract != f.contract {
        return Err(Refused);
      }
      if IsAbsent(rows, f.slot, f.behavior) {
        return Err(Refused);
      }
      var duty := FindDuty(rows, f.slot, f.behavior);
      if duty.None? || !DutyCovers(duty.value, f) {
        return Err(Refused);
      }
      if f.basis.Calibrated? {
        var base := FindForecast(rows, f.basis.base);
        if base.None? || !Calibrates(f, base.value) {
          return Err(Refused);
        }
      }
      if !ForecastFits(f, contract.value, slot.value) {
        return Err(Refused);
      }
      answer := Insert(ForecastRow(f));
    }
  }

  lemma NotYet(rows: seq<Row>, r: Row)
    requires !KeyTaken(rows, r)
    ensures r !in rows
  {
    assert SameKey(r, r);
  }

  lemma SupportPersists(rows: seq<Row>, i: nat, r: Row)
    requires i <= |rows| && Supported(rows[..i], r)
    ensures Supported(rows, r)
  {
    assert forall x :: x in rows[..i] ==> x in rows;
    hide ForecastFits, DutyCovers, SlotFits, Owed, Calibrates;
  }

  lemma AnswersAreNotBlocked(rows: seq<Row>, r: Row)
    requires Lawful(rows) && r in rows && !r.DutyRow?
    ensures !Blocked(rows, r)
  {
    hide Lawful;
    forall x | x in rows ensures r.ForecastRow? && x.AbsenceRow? ==>
                                   !(x.absence.slot == r.forecast.slot && x.absence.behavior == r.forecast.behavior)
    {
      if r.ForecastRow? && x.AbsenceRow? { NoAnswerIsContradicted(rows, r.forecast, x.absence); }
    }
    forall x | x in rows ensures r.AbsenceRow? && x.ForecastRow? ==>
                                   !(x.forecast.slot == r.absence.slot && x.forecast.behavior == r.absence.behavior)
    {
      if r.AbsenceRow? && x.ForecastRow? { NoAnswerIsContradicted(rows, x.forecast, r.absence); }
    }
  }

  /** Everything an admitted row needed is still there, so an exact retry is never refused. */
  lemma {:induction false} RetryPasses(rows: seq<Row>, r: Row)
    requires Lawful(rows) && !r.DutyRow?
    ensures r in rows ==> Admissible(rows, r)
  {
    hide Supported, Blocked;
    if r in rows {
      var i := WasAdmissible(rows, r);
      SupportPersists(rows, i, r);
      AnswersAreNotBlocked(rows, r);
    }
  }

  // ----- The queries answer for the whole table

  lemma FindsContract(rows: seq<Row>, c: Contract)
    requires Lawful(rows) && ContractRow(c) in rows
    ensures FindContract(rows, c.id) == Some(c)
  {
    hide Lawful;
    KeysAreUnique(rows, ContractRow(c), ContractRow(FindContract(rows, c.id).value));
  }

  lemma FindsBinding(rows: seq<Row>, b: Binding)
    requires Lawful(rows) && BindingRow(b) in rows
    ensures FindBinding(rows, b.id) == Some(b)
  {
    hide Lawful;
    KeysAreUnique(rows, BindingRow(b), BindingRow(FindBinding(rows, b.id).value));
  }

  lemma FindsSlot(rows: seq<Row>, s: Slot)
    requires Lawful(rows) && SlotRow(s) in rows
    ensures FindSlot(rows, s.id) == Some(s)
  {
    hide Lawful;
    KeysAreUnique(rows, SlotRow(s), SlotRow(FindSlot(rows, s.id).value));
  }

  lemma FindsDuty(rows: seq<Row>, d: Duty)
    requires Lawful(rows) && DutyRow(d) in rows
    ensures FindDuty(rows, d.slot, d.behavior) == Some(d)
  {
    hide Lawful;
    KeysAreUnique(rows, DutyRow(d), DutyRow(FindDuty(rows, d.slot, d.behavior).value));
  }

  lemma FindsForecast(rows: seq<Row>, f: Forecast)
    requires Lawful(rows) && ForecastRow(f) in rows
    ensures FindForecast(rows, f.id) == Some(f)
  {
    hide Lawful;
    KeysAreUnique(rows, ForecastRow(f), ForecastRow(FindForecast(rows, f.id).value));
  }

  lemma AbsenceChecks(rows: seq<Row>, a: Absence)
    requires Lawful(rows)
    ensures
      var slot, duty := FindSlot(rows, a.slot), FindDuty(rows, a.slot, a.behavior);
      Admissible(rows, AbsenceRow(a)) <==>
        slot.Some? && slot.value.contract == a.contract && duty.Some? && Owed(duty.value, a) && !IsForecast(rows, a.slot, a.behavior)
  {
    hide Lawful, FindSlot, FindDuty;
    if Admissible(rows, AbsenceRow(a)) {
      var s :| SlotRow(s) in rows && s.id == a.slot && s.contract == a.contract;
      var d :| DutyRow(d) in rows && Owed(d, a);
      FindsSlot(rows, s);
      FindsDuty(rows, d);
    }
  }

  predicate PassesChecks(rows: seq<Row>, f: Forecast)
  {
    var contract, slot := FindContract(rows, f.contract), FindSlot(rows, f.slot);
    var duty := FindDuty(rows, f.slot, f.behavior);
    && contract.Some? && slot.Some? && slot.value.contract == f.contract
    && !IsAbsent(rows, f.slot, f.behavior)
    && duty.Some? && DutyCovers(duty.value, f)
    && (f.basis.Calibrated? ==> var base := FindForecast(rows, f.basis.base); base.Some? && Calibrates(f, base.value))
    && ForecastFits(f, contract.value, slot.value)
  }

  lemma ForecastChecks(rows: seq<Row>, f: Forecast)
    requires Lawful(rows)
    ensures Admissible(rows, ForecastRow(f)) <==> PassesChecks(rows, f)
  {
    hide Lawful, FindSlot, FindDuty, FindContract, FindForecast, ForecastFits;
    if Admissible(rows, ForecastRow(f)) {
      var c, s :| ContractRow(c) in rows && SlotRow(s) in rows && c.id == f.contract && s.id == f.slot
                  && s.contract == f.contract && ForecastFits(f, c, s);
      var d :| DutyRow(d) in rows && DutyCovers(d, f);
      FindsContract(rows, c);
      FindsSlot(rows, s);
      FindsDuty(rows, d);
      if f.basis.Calibrated? {
        var base :| ForecastRow(base) in rows && Calibrates(f, base);
        FindsForecast(rows, base);
      }
    }
  }

  // ----- Opening a slot

  ghost predicate SlotMayOpen(rows: seq<Row>, s: Slot, b: Binding)
  {
    BindingRow(b) in rows && b.contract == s.contract && Supported(rows, SlotRow(s))
  }

  ghost function SlotAnswer(rows: seq<Row>, s: Slot, b: Binding): Result<bool, LedgerError>
  {
    if !SlotMayOpen(rows, s, b) then Err(Refused)
    else if SlotRow(s) in rows then
      var duty := Answer(rows, DutyRow(DutyOf(s, b))); if duty.Ok? then Ok(false) else duty
    else if KeyTaken(rows, SlotRow(s)) then Err(Conflict)
    else Ok(true)
  }

  ghost predicate Authoritative(rows: seq<Row>, s: Slot, b: Binding)
  {
    SlotRow(s) in rows && BindingRow(b) in rows && b.contract == s.contract
  }

  ghost function DutyAnswer(rows: seq<Row>, s: Slot, b: Binding): Result<bool, LedgerError>
  {
    if Authoritative(rows, s, b) then Answer(rows, DutyRow(DutyOf(s, b))) else Err(Refused)
  }

  lemma DutyChecks(rows: seq<Row>, s: Slot, b: Binding)
    requires Lawful(rows)
    ensures Authoritative(rows, s, b) <==>
              FindSlot(rows, s.id) == Some(s) && FindBinding(rows, b.id) == Some(b) && b.contract == s.contract
    ensures Authoritative(rows, s, b) ==>
              (Admissible(rows, DutyRow(DutyOf(s, b))) <==> !IsForecast(rows, s.id, b.behavior) && !IsAbsent(rows, s.id, b.behavior))
  {
    hide Lawful, FindSlot, FindBinding;
    if SlotRow(s) in rows { FindsSlot(rows, s); }
    if BindingRow(b) in rows { FindsBinding(rows, b); }
  }

  lemma SlotChecks(rows: seq<Row>, s: Slot, b: Binding)
    requires Lawful(rows)
    ensures
      var contract := FindContract(rows, s.contract);
      SlotMayOpen(rows, s, b) <==>
        contract.Some? && FindBinding(rows, b.id) == Some(b) && b.contract == s.contract && SlotFits(s, contract.value)
    ensures SlotRow(s) in rows <==> FindSlot(rows, s.id) == Some(s)
    ensures KeyTaken(rows, SlotRow(s)) <==> FindSlot(rows, s.id).Some?
  {
    hide Lawful, FindSlot, FindContract, FindBinding, SlotFits;
    if SlotMayOpen(rows, s, b) {
      var c :| ContractRow(c) in rows && c.id == s.contract && SlotFits(s, c);
      FindsContract(rows, c);
      FindsBinding(rows, b);
    }
    if SlotRow(s) in rows { FindsSlot(rows, s); }
  }

  lemma SlotIsUnused(rows: seq<Row>, id: int, x: Row)
    requires Lawful(rows) && FindSlot(rows, id).None? && x in rows
    ensures !(x.DutyRow? && x.duty.slot == id) && !(x.AbsenceRow? && x.absence.slot == id) && !(x.ForecastRow? && x.forecast.slot == id)
  {
    var i := WasAdmissible(rows, x);
    hide Lawful, FindSlot, ForecastFits, DutyCovers, SlotFits, Owed, Calibrates, Blocked;
  }

  /** A slot nobody opened yet owes and holds nothing, so its first obligation is always free. */
  lemma NewSlot(rows: seq<Row>, s: Slot, b: Binding)
    requires Lawful(rows) && SlotMayOpen(rows, s, b) && FindSlot(rows, s.id).None?
    ensures Answer(rows, SlotRow(s)) == Ok(true)
    ensures Answer(rows + [SlotRow(s)], DutyRow(DutyOf(s, b))) == Ok(true)
  {
    var longer, duty := rows + [SlotRow(s)], DutyRow(DutyOf(s, b));
    forall x | x in rows ensures !(x.DutyRow? && x.duty.slot == s.id) && !(x.AbsenceRow? && x.absence.slot == s.id)
                                 && !(x.ForecastRow? && x.forecast.slot == s.id)
    {
      SlotIsUnused(rows, s.id, x);
    }
    hide Lawful, SlotFits, FindSlot;
    assert BindingRow(b) in longer && SlotRow(s) in longer;
  }
}
