/**
 Which forecasts a capital decision is made from: the panel selection, the identity of a decision cycle and the merging of
 instruments (src/investment_manager/decision_cycle/capital.py).
 */
module CapitalPanel {
  import opened Results
  import opened Sorting

  datatype Source = Source(family: int, binding: int, contract: int, producer: int, behavior: int)

  /** A base forecast joined to the binding of its obligation. */
  datatype Forecast = Forecast(
    id: int, binding: int, family: int, contract: int, producer: int, behavior: int, cutoff: int, availableAt: int, validUntil: int)

  predicate Active(f: Forecast, s: Source, asOf: int, includeExpired: bool)
  {
    f.binding == s.binding && f.availableAt <= asOf && (includeExpired || f.validUntil > asOf)
  }

  predicate Agrees(f: Forecast, s: Source)
  {
    f.contract == s.contract && f.family == s.family && f.producer == s.producer && f.behavior == s.behavior
  }

  datatype PanelError = BindingReadsAnotherForecast | CutoffIsAmbiguous

  // ----- What the panel is

  /** One reading of the ledger. */
  datatype Reading = Reading(ledger: set<Forecast>, asOf: int, includeExpired: bool)

  ghost predicate Sees(r: Reading, s: Source, f: Forecast) { f in r.ledger && Active(f, s, r.asOf, r.includeExpired) }

  ghost predicate Inconsistent(r: Reading, s: Source) { exists f :: Sees(r, s, f) && !Agrees(f, s) }

  ghost predicate Ambiguous(r: Reading, s: Source) { exists f, g :: Sees(r, s, f) && Sees(r, s, g) && f.cutoff == g.cutoff && f != g }

  ghost predicate Readable(r: Reading, sources: set<Source>)
  {
    forall s :: s in sources ==> !Inconsistent(r, s) && !Ambiguous(r, s)
  }

  ghost predicate HasCutoff(r: Reading, s: Source, c: int) { exists f :: Sees(r, s, f) && f.cutoff == c }

  ghost predicate IsCommon(r: Reading, sources: set<Source>, c: int) { forall s :: s in sources ==> HasCutoff(r, s, c) }

  ghost predicate IsNewestCommon(r: Reading, sources: set<Source>, c: int)
  {
    IsCommon(r, sources, c) && forall d :: IsCommon(r, sources, d) ==> d <= c
  }

  predicate FamiliesAscend(panel: seq<Forecast>) { forall i, j :: 0 <= i < j < |panel| ==> panel[i].family < panel[j].family }

  ghost predicate Answers(r: Reading, s: Source, c: int, panel: seq<Forecast>)
  {
    exists f :: f in panel && Sees(r, s, f) && f.cutoff == c && f.family == s.family
  }

  ghost predicate Asked(r: Reading, sources: set<Source>, c: int, f: Forecast)
  {
    exists s :: s in sources && Sees(r, s, f) && f.cutoff == c && f.family == s.family
  }

  /** One forecast for every source and nothing else, all at one cutoff, by family. */
  ghost predicate IsPanel(r: Reading, sources: set<Source>, c: int, panel: seq<Forecast>)
  {
    && FamiliesAscend(panel)
    && (forall s :: s in sources ==> Answers(r, s, c, panel))
    && (forall i :: 0 <= i < |panel| ==> Asked(r, sources, c, panel[i]))
  }

  predicate FamiliesDiffer(sources: seq<Source>) { forall i, j :: 0 <= i < j < |sources| ==> sources[i].family != sources[j].family }

  ghost function Members(sources: seq<Source>): set<Source> { set s | s in sources }

  ghost function RowsOf(rows: seq<Forecast>): set<Forecast> { set f | f in rows }

  // ----- How it is computed

  /** The forecasts of one source by cutoff. */
  ghost predicate Collected(r: Reading, s: Source, done: seq<Forecast>, byCutoff: map<int, Forecast>)
  {
    && (forall f :: f in done && Sees(r, s, f) ==> Agrees(f, s) && f.cutoff in byCutoff && byCutoff[f.cutoff] == f)
    && (forall c :: c in byCutoff ==> Sees(r, s, byCutoff[c]) && byCutoff[c].cutoff == c && byCutoff[c].family == s.family)
  }

  method CollectByCutoff(rows: seq<Forecast>, s: Source, asOf: int, includeExpired: bool)
    returns (answer: Result<map<int, Forecast>, PanelError>)
    ensures
      var r := Reading(RowsOf(rows), asOf, includeExpired);
      && (answer.Ok? <==> !Inconsistent(r, s) && !Ambiguous(r, s))
      && (answer.Ok? ==> Collected(r, s, rows, answer.value))
  {
    ghost var r := Reading(RowsOf(rows), asOf, includeExpired);
    var byCutoff: map<int, Forecast> := map[];
    for i := 0 to |rows|
      invariant Collected(r, s, rows[..i], byCutoff)
    {
      var f := rows[i];
      assert rows[..i + 1] == rows[..i] + [f];
      if Active(f, s, asOf, includeExpired) {
        assert Sees(r, s, f);
        if !Agrees(f, s) {
          return Err(BindingReadsAnotherForecast);
        }
        if f.cutoff in byCutoff && byCutoff[f.cutoff] != f {
          return Err(CutoffIsAmbiguous);
        }
        byCutoff := byCutoff[f.cutoff := f];
      }
    }
    assert rows[..|rows|] == rows;
    answer := Ok(byCutoff);
  }

  method Newest(cutoffs: set<int>) returns (newest: int)
    requires exists c :: c in cutoffs
    ensures newest in cutoffs && forall c :: c in cutoffs ==> c <= newest
  {
    newest :| newest in cutoffs;
    var rest := cutoffs - {newest};
    while exists c :: c in rest
      invariant newest in cutoffs && rest <= cutoffs && forall c :: c in cutoffs ==> c in rest || c <= newest
      decreases rest
    {
      var c :| c in rest;
      if c > newest {
        newest := c;
      }
      rest := rest - {c};
    }
  }

  predicate IsKnown(sources: seq<Source>, visible: map<int, map<int, Forecast>>)
  {
    forall j :: 0 <= j < |sources| ==> sources[j].family in visible
  }

  ghost predicate AllCollected(r: Reading, rows: seq<Forecast>, sources: seq<Source>, visible: map<int, map<int, Forecast>>)
  {
    IsKnown(sources, visible) && forall j :: 0 <= j < |sources| ==> Collected(r, sources[j], rows, visible[sources[j].family])
  }

  function Common(sources: seq<Source>, visible: map<int, map<int, Forecast>>): set<int>
    requires sources != [] && IsKnown(sources, visible)
  {
    set c | c in visible[sources[0].family] && forall j :: 0 <= j < |sources| ==> c in visible[sources[j].family]
  }

  /** The newest complete panel of one common cutoff, or nothing. */
  ghost predicate IsAnswer(r: Reading, sources: set<Source>, answer: Result<seq<Forecast>, PanelError>)
  {
    match answer
    case Err(_) => !Readable(r, sources)
    case Ok(panel) =>
      Readable(r, sources) &&
      if panel == [] then sources == {} || forall c :: !IsCommon(r, sources, c)
      else exists c :: IsNewestCommon(r, sources, c) && IsPanel(r, sources, c, panel)
  }

  method CollectAll(sources: seq<Source>, rows: seq<Forecast>, asOf: int, includeExpired: bool)
    returns (answer: Result<map<int, map<int, Forecast>>, PanelError>)
    requires FamiliesDiffer(sources)
    ensures
      var r := Reading(RowsOf(rows), asOf, includeExpired);
      && (answer.Ok? <==> Readable(r, Members(sources)))
      && (answer.Ok? ==> AllCollected(r, rows, sources, answer.value))
  {
    hide Collected, Inconsistent, Ambiguous;
    ghost var r := Reading(RowsOf(rows), asOf, includeExpired);
    var visible: map<int, map<int, Forecast>> := map[];
    for i := 0 to |sources|
      invariant AllCollected(r, rows, sources[..i], visible)
      invariant forall j :: 0 <= j < i ==> !Inconsistent(r, sources[j]) && !Ambiguous(r, sources[j])
    {
      var byCutoff := CollectByCutoff(rows, sources[i], asOf, includeExpired);
      if byCutoff.Err? {
        assert sources[i] in Members(sources);
        return Err(byCutoff.error);
      }
      visible := visible[sources[i].family := byCutoff.value];
    }
    assert sources[..|sources|] == sources;
    answer := Ok(visible);
  }

  method AuthorizedForecastPanel(sources: seq<Source>, rows: seq<Forecast>, asOf: int, includeExpired: bool)
    returns (answer: Result<seq<Forecast>, PanelError>)
    requires FamiliesDiffer(sources)
    ensures IsAnswer(Reading(RowsOf(rows), asOf, includeExpired), Members(sources), answer)
  {
    hide AllCollected, Readable, IsPanel, IsCommon, Common, Sort;
    if sources == [] {
      assert Members(sources) == {} && Readable(Reading(RowsOf(rows), asOf, includeExpired), {}) by { NothingToRead(Reading(RowsOf(rows), asOf, includeExpired)); }
      return Ok([]);
    }
    ghost var r := Reading(RowsOf(rows), asOf, includeExpired);
    var collected := CollectAll(sources, rows, asOf, includeExpired);
    if collected.Err? {
      return Err(collected.error);
    }
    var visible := collected.value;
    CommonCutoffs(r, rows, sources, visible);
    var common := Common(sources, visible);
    if !exists c :: c in common {
      return Ok([]);
    }
    var cutoff := Newest(common);
    var families := Sort(Ascending(), Families(sources));
    var panel: seq<Forecast> := [];
    ChoicesExist(r, rows, sources, visible, cutoff);
    for i := 0 to |families|
      invariant |panel| == i
      invariant forall j :: 0 <= j < i ==> IsChoice(visible, families[j], cutoff, panel[j])
    {
      assert IsReady(visible, families[i], cutoff);
      panel := panel + [visible[families[i]][cutoff]];
    }
    PanelIsComplete(r, rows, sources, visible, cutoff, families, panel);
    answer := Ok(panel);
  }

  lemma NothingToRead(r: Reading)
    ensures Readable(r, {})
  {
  }

  ghost predicate IsChoice(visible: map<int, map<int, Forecast>>, family: int, cutoff: int, f: Forecast)
  {
    family in visible && cutoff in visible[family] && f == visible[family][cutoff]
  }

  function Families(sources: seq<Source>): seq<int> { seq(|sources|, i requires 0 <= i < |sources| => sources[i].family) }

  lemma SortedFamilies(sources: seq<Source>)
    requires FamiliesDiffer(sources)
    ensures
      var sorted := Sort(Ascending(), Families(sources));
      |sorted| == |sources| && forall i, j :: 0 <= i < j < |sorted| ==> sorted[i] < sorted[j]
  {
    SortedKeysAscend(Families(sources));
  }

  lemma FamilyHasSource(sources: seq<Source>, i: nat) returns (k: nat)
    requires i < |sources|
    ensures k < |sources| && sources[k].family == Sort(Ascending(), Families(sources))[i]
  {
    var families := Families(sources);
    SameElements(families, Sort(Ascending(), families));
    assert Sort(Ascending(), families)[i] in families;
    k :| 0 <= k < |families| && families[k] == Sort(Ascending(), families)[i];
  }

  lemma SourceHasFamily(sources: seq<Source>, k: nat) returns (i: nat)
    requires k < |sources|
    ensures i < |sources| && sources[k].family == Sort(Ascending(), Families(sources))[i]
  {
    var families := Families(sources);
    SameElements(families, Sort(Ascending(), families));
    assert families[k] in families;
    i :| 0 <= i < |sources| && Sort(Ascending(), families)[i] == families[k];
  }

  lemma CollectedCutoffs(r: Reading, rows: seq<Forecast>, s: Source, byCutoff: map<int, Forecast>)
    requires r.ledger == RowsOf(rows) && Collected(r, s, rows, byCutoff)
    ensures forall c :: c in byCutoff <==> HasCutoff(r, s, c)
  {
  }

  lemma CommonCutoffs(r: Reading, rows: seq<Forecast>, sources: seq<Source>, visible: map<int, map<int, Forecast>>)
    requires sources != [] && r.ledger == RowsOf(rows) && AllCollected(r, rows, sources, visible)
    ensures IsKnown(sources, visible)
    ensures forall c :: c in Common(sources, visible) <==> IsCommon(r, Members(sources), c)
  {
    hide Collected, HasCutoff;
    forall j | 0 <= j < |sources| ensures forall c :: c in visible[sources[j].family] <==> HasCutoff(r, sources[j], c) {
      CollectedCutoffs(r, rows, sources[j], visible[sources[j].family]);
    }
    forall c ensures c in Common(sources, visible) <==> IsCommon(r, Members(sources), c) {
      if IsCommon(r, Members(sources), c) {
        forall j | 0 <= j < |sources| ensures c in visible[sources[j].family] { assert sources[j] in Members(sources); }
      }
    }
  }

  lemma ChoicesExist(r: Reading, rows: seq<Forecast>, sources: seq<Source>, visible: map<int, map<int, Forecast>>, cutoff: int)
    requires sources != [] && FamiliesDiffer(sources) && IsKnown(sources, visible) && cutoff in Common(sources, visible)
    ensures forall i :: 0 <= i < |sources| ==> IsReady(visible, Sort(Ascending(), Families(sources))[i], cutoff)
  {
    forall i | 0 <= i < |sources| ensures IsReady(visible, Sort(Ascending(), Families(sources))[i], cutoff) {
      var k := FamilyHasSource(sources, i);
    }
  }

  predicate IsReady(visible: map<int, map<int, Forecast>>, family: int, cutoff: int)
  {
    family in visible && cutoff in visible[family]
  }

  lemma PanelIsComplete(r: Reading, rows: seq<Forecast>, sources: seq<Source>, visible: map<int, map<int, Forecast>>, cutoff: int,
                        families: seq<int>, panel: seq<Forecast>)
    requires FamiliesDiffer(sources) && families == Sort(Ascending(), Families(sources)) && |panel| == |families|
    requires AllCollected(r, rows, sources, visible)
    requires forall i :: 0 <= i < |panel| ==> IsChoice(visible, families[i], cutoff, panel[i])
    ensures IsPanel(r, Members(sources), cutoff, panel) && |panel| == |sources|
  {
    SortedFamilies(sources);
    hide Sort, Families, Answers, Asked, Collected, FamiliesAscend;
    forall i | 0 <= i < |panel| ensures panel[i].family == families[i] && Asked(r, Members(sources), cutoff, panel[i]) {
      var k := FamilyHasSource(sources, i);
      ChoiceIsAsked(r, rows, sources, visible[sources[k].family], cutoff, k, panel[i]);
    }
    AscendTogether(families, panel);
    forall s | s in Members(sources) ensures Answers(r, s, cutoff, panel) {
      var k :| 0 <= k < |sources| && sources[k] == s;
      var i := SourceHasFamily(sources, k);
      ChoiceAnswers(r, rows, s, visible[s.family], cutoff, panel, i);
    }
  }

  lemma AscendTogether(families: seq<int>, panel: seq<Forecast>)
    requires |panel| == |families| && forall i, j :: 0 <= i < j < |families| ==> families[i] < families[j]
    requires forall i :: 0 <= i < |panel| ==> panel[i].family == families[i]
    ensures FamiliesAscend(panel)
  {
  }

  lemma ChoiceIsAsked(r: Reading, rows: seq<Forecast>, sources: seq<Source>, byCutoff: map<int, Forecast>, cutoff: int, k: nat, f: Forecast)
    requires k < |sources| && Collected(r, sources[k], rows, byCutoff) && cutoff in byCutoff && f == byCutoff[cutoff]
    ensures Asked(r, Members(sources), cutoff, f) && f.family == sources[k].family
  {
    assert sources[k] in Members(sources);
  }

  lemma ChoiceAnswers(r: Reading, rows: seq<Forecast>, s: Source, byCutoff: map<int, Forecast>, cutoff: int, panel: seq<Forecast>, i: nat)
    requires i < |panel| && Collected(r, s, rows, byCutoff) && cutoff in byCutoff && panel[i] == byCutoff[cutoff]
    ensures Answers(r, s, cutoff, panel)
  {
    assert panel[i] in panel;
  }

  // ----- What follows

  /** The panel is determined by the sources as a set and by what they see: neither order nor repetition matters. */
  lemma {:induction false} PanelIsUnique(r: Reading, sources: set<Source>, c: int, p: seq<Forecast>, q: seq<Forecast>)
    requires Readable(r, sources) && IsPanel(r, sources, c, p) && IsPanel(r, sources, c, q)
    requires forall s, t :: s in sources && t in sources && s.family == t.family ==> s == t
    ensures p == q
  {
    hide Readable, Answers, Asked, Sees;
    forall i | 0 <= i < |p| ensures p[i] in q { PanelMember(r, sources, c, p, q, i); }
    forall i | 0 <= i < |q| ensures q[i] in p { PanelMember(r, sources, c, q, p, i); }
    assert forall x :: x in p <==> x in q;
    AscendingDetermines((f: Forecast) => f.family, p, q);
  }

  lemma PanelMember(r: Reading, sources: set<Source>, c: int, p: seq<Forecast>, q: seq<Forecast>, i: nat)
    requires Readable(r, sources) && IsPanel(r, sources, c, p) && IsPanel(r, sources, c, q) && i < |p|
    requires forall s, t :: s in sources && t in sources && s.family == t.family ==> s == t
    ensures p[i] in q
  {
    hide Active;
    assert Asked(r, sources, c, p[i]);
    var s :| s in sources && Sees(r, s, p[i]) && p[i].cutoff == c && p[i].family == s.family;
    assert Answers(r, s, c, q);
    var f :| f in q && Sees(r, s, f) && f.cutoff == c && f.family == s.family;
    assert !Ambiguous(r, s);
  }

  /** Forecasts that stay readable after expiry never take the panel back: later readings have every earlier common cutoff. */
  lemma {:induction false} CutoffNeverRecedes(ledger: set<Forecast>, more: set<Forecast>, sources: set<Source>, asOf: int, later: int, c: int, d: int)
    requires ledger <= more && asOf <= later
    requires IsNewestCommon(Reading(ledger, asOf, true), sources, c)
    ensures IsCommon(Reading(more, later, true), sources, c)
    ensures IsNewestCommon(Reading(more, later, true), sources, d) ==> c <= d
  {
    forall s | s in sources ensures HasCutoff(Reading(more, later, true), s, c) {
      assert HasCutoff(Reading(ledger, asOf, true), s, c);
      var f :| Sees(Reading(ledger, asOf, true), s, f) && f.cutoff == c;
      assert Sees(Reading(more, later, true), s, f);
    }
  }

  /** With expiry the panel may fall back: the newer forecast can be the shorter-lived one. */
  lemma {:induction false} ExpiryMayRecede()
    ensures
      var s := Source(1, 1, 1, 1, 1);
      var long, short := Forecast(1, 1, 1, 1, 1, 1, 10, 11, 100), Forecast(2, 1, 1, 1, 1, 1, 20, 21, 30);
      && IsNewestCommon(Reading({long, short}, 25, false), {s}, 20)
      && IsNewestCommon(Reading({long, short}, 40, false), {s}, 10)
  {
    var s := Source(1, 1, 1, 1, 1);
    var long, short := Forecast(1, 1, 1, 1, 1, 1, 10, 11, 100), Forecast(2, 1, 1, 1, 1, 1, 20, 21, 30);
    assert Sees(Reading({long, short}, 25, false), s, short);
    assert Sees(Reading({long, short}, 40, false), s, long);
    forall d ensures IsCommon(Reading({long, short}, 25, false), {s}, d) ==> d <= 20 {
      if IsCommon(Reading({long, short}, 25, false), {s}, d) { assert HasCutoff(Reading({long, short}, 25, false), s, d); }
    }
    forall d ensures IsCommon(Reading({long, short}, 40, false), {s}, d) ==> d <= 10 {
      if IsCommon(Reading({long, short}, 40, false), {s}, d) { assert HasCutoff(Reading({long, short}, 40, false), s, d); }
    }
  }

  // ----- The identity of a decision cycle

  /** The stable identity is injective in its parts. */
  datatype CycleId = CycleId(portfolio: int, forecastIds: seq<int>)

  function ForecastIds(panel: seq<Forecast>): seq<int> { seq(|panel|, i requires 0 <= i < |panel| => panel[i].id) }

  function ForecastCycleId(portfolio: int, forecasts: seq<Forecast>): CycleId
  {
    CycleId(portfolio, Sort(Ascending(), ForecastIds(forecasts)))
  }

  /** Two decisions share a cycle exactly when they weigh the same forecasts, however ordered. */
  lemma {:induction false} CycleIsItsForecasts(portfolio: int, p: seq<Forecast>, q: seq<Forecast>)
    ensures ForecastCycleId(portfolio, p) == ForecastCycleId(portfolio, q) <==> multiset(ForecastIds(p)) == multiset(ForecastIds(q))
  {
    if multiset(ForecastIds(p)) == multiset(ForecastIds(q)) {
      SortIgnoresOrder(Ascending(), ForecastIds(p), ForecastIds(q));
    }
  }

  // ----- Merging instruments

  datatype Instrument = Instrument(key: int, product: int)

  ghost predicate Conflicting(items: set<Instrument>) { exists a, b :: a in items && b in items && a.key == b.key && a != b }

  predicate KeysAscend(xs: seq<Instrument>) { forall i, j :: 0 <= i < j < |xs| ==> xs[i].key < xs[j].key }

  ghost function ItemsOf(groups: seq<seq<Instrument>>): set<Instrument> { set g, x | g in groups && x in g :: x }

  lemma IsItem(groups: seq<seq<Instrument>>, k: nat, x: Instrument)
    requires k < |groups| && x in groups[k]
    ensures x in ItemsOf(groups)
  {
    var g := groups[k];
    assert g in groups && x in g;
  }

  datatype MergeError = ConflictingDefinition

  ghost predicate IsMerge(items: set<Instrument>, answer: Result<seq<Instrument>, MergeError>)
  {
    match answer
    case Err(_) => Conflicting(items)
    case Ok(merged) => !Conflicting(items) && KeysAscend(merged) && forall x :: x in merged <==> x in items
  }

  /** Every instrument once, in key order, or an error when one key has two definitions. */
  method MergeInstruments(groups: seq<seq<Instrument>>) returns (answer: Result<seq<Instrument>, MergeError>)
    ensures IsMerge(ItemsOf(groups), answer)
  {
    var keys: seq<int>, byKey: map<int, Instrument> := [], map[];
    ghost var done: set<Instrument> := {};
    for i := 0 to |groups|
      invariant forall x :: x in done <==> exists k :: 0 <= k < i && x in groups[k]
      invariant Gathered(done, keys, byKey)
    {
      var group := groups[i];
      ghost var before := done;
      for j := 0 to |group|
        invariant forall x :: x in done <==> x in before || x in group[..j]
        invariant Gathered(done, keys, byKey)
      {
        var item := group[j];
        assert group[..j + 1] == group[..j] + [item];
        if item.key in byKey && byKey[item.key] != item {
          var k :| 0 <= k <= i && byKey[item.key] in groups[k];
          IsItem(groups, i, item);
          IsItem(groups, k, byKey[item.key]);
          return Err(ConflictingDefinition);
        }
        GatheredGrows(done, keys, byKey, item);
        keys := if item.key in byKey then keys else keys + [item.key];
        byKey := byKey[item.key := item];
        done := done + {item};
      }
      assert group[..|group|] == group;
    }
    assert done == ItemsOf(groups);
    var merged := InKeyOrder(done, keys, byKey);
    answer := Ok(merged);
  }

  method InKeyOrder(ghost items: set<Instrument>, keys: seq<int>, byKey: map<int, Instrument>) returns (merged: seq<Instrument>)
    requires Gathered(items, keys, byKey)
    ensures !Conflicting(items) && KeysAscend(merged) && forall x :: x in merged <==> x in items
  {
    var sorted := Sort(Ascending(), keys);
    SortedKeysAscend(keys);
    SameElements(keys, sorted);
    hide Sort;
    merged := [];
    for i := 0 to |sorted|
      invariant |merged| == i && forall j :: 0 <= j < i ==> sorted[j] in byKey && merged[j] == byKey[sorted[j]]
    {
      assert sorted[i] in keys;
      merged := merged + [byKey[sorted[i]]];
    }
    forall x | x in items ensures x in merged {
      var i :| 0 <= i < |sorted| && sorted[i] == x.key;
      assert merged[i] == x;
    }
  }

  /** The dictionary under construction and the order in which its keys appeared. */
  ghost predicate Gathered(items: set<Instrument>, keys: seq<int>, byKey: map<int, Instrument>)
  {
    && (forall k :: k in byKey ==> byKey[k].key == k && byKey[k] in items)
    && (forall x :: x in items ==> x.key in byKey && byKey[x.key] == x)
    && (forall k :: k in keys <==> k in byKey)
    && (forall i, j :: 0 <= i < j < |keys| ==> keys[i] != keys[j])
  }

  lemma GatheredGrows(items: set<Instrument>, keys: seq<int>, byKey: map<int, Instrument>, item: Instrument)
    requires Gathered(items, keys, byKey) && (item.key in byKey ==> byKey[item.key] == item)
    ensures Gathered(items + {item}, if item.key in byKey then keys else keys + [item.key], byKey[item.key := item])
  {
    assert forall i :: 0 <= i < |keys| ==> keys[i] in keys;
  }

  /** Merging depends on the instruments alone: grouping, order and repetition are forgotten. */
  lemma {:induction false} MergeIsUnique(items: set<Instrument>, a: Result<seq<Instrument>, MergeError>, b: Result<seq<Instrument>, MergeError>)
    requires IsMerge(items, a) && IsMerge(items, b)
    ensures a == b
  {
    if a.Ok? && b.Ok? {
      var key := (x: Instrument) => x.key;
      assert AscendsBy(key, a.value) && AscendsBy(key, b.value);
      AscendingDetermines(key, a.value, b.value);
    } else {
      assert a.Err? && b.Err?;
      assert a.error == ConflictingDefinition && b.error == ConflictingDefinition;
    }
  }
}
