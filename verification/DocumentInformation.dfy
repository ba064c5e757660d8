/**
 Which observations of a source document add information: the classifier of
 src/investment_manager/information/models.py, the online store that applies it (information/repository.py) and the
 migration that backfilled it (migrations/versions/e9a5b2c7d130_document_information_expansion.py).
 Texts are already normalized; a character knows whether it is alphanumeric.
 */
module DocumentInformation {
  import opened Results

  datatype Letter = Letter(code: int, alnum: bool)

  type Text = seq<Letter>

  // ----- Coverage of one fragment by another

  predicate OccursAt(fragment: Text, text: Text, i: int)
  {
    0 <= i <= |text| - |fragment| && text[i..i + |fragment|] == fragment
  }

  /** An occurrence that does not cut a word at either end. */
  predicate WordAt(fragment: Text, text: Text, i: int)
    requires fragment != []
  {
    && OccursAt(fragment, text, i)
    && (i == 0 || !fragment[0].alnum || !text[i - 1].alnum)
    && var end := i + |fragment|;
       (end == |text| || !fragment[|fragment| - 1].alnum || !text[end].alnum)
  }

  ghost predicate Covered(fragment: Text, text: Text)
    requires fragment != []
  {
    exists i :: WordAt(fragment, text, i)
  }

  /** Python's `find`: the first occurrence at or after `from`, or -1. */
  function Find(text: Text, fragment: Text, from: nat): (i: int)
    ensures i == -1 || (from <= i && OccursAt(fragment, text, i))
    ensures forall j :: from <= j && OccursAt(fragment, text, j) ==> i != -1 && i <= j
    decreases |text| - from
  {
    if from > |text| then -1 else if OccursAt(fragment, text, from) then from else Find(text, fragment, from + 1)
  }

  /** Overlapping occurrences included, the search misses no bounded one. */
  method FragmentIsCovered(fragment: Text, historical: Text) returns (covered: bool)
    requires fragment != []
    ensures covered <==> Covered(fragment, historical)
  {
    var start := Find(historical, fragment, 0);
    while start >= 0
      invariant start == -1 || OccursAt(fragment, historical, start)
      invariant forall j :: 0 <= j && (start == -1 || j < start) ==> !WordAt(fragment, historical, j)
      decreases if start >= 0 then |historical| - start else -1
    {
      var end := start + |fragment|;
      var left := start == 0 || !fragment[0].alnum || !historical[start - 1].alnum;
      var right := end == |historical| || !fragment[|fragment| - 1].alnum || !historical[end].alnum;
      if left && right {
        assert WordAt(fragment, historical, start);
        return true;
      }
      start := Find(historical, fragment, start + 1);
    }
    covered := false;
  }

  lemma OccurrencesNest(a: Text, b: Text, c: Text, i: int, j: int)
    requires OccursAt(a, b, i) && OccursAt(b, c, j)
    ensures OccursAt(a, c, i + j)
  {
    forall k | 0 <= k < |a| ensures a[k] == c[i + j + k] {
      assert a[k] == b[i..i + |a|][k] && b[i + k] == c[j..j + |b|][i + k];
    }
  }

  /** Whole words inside whole words are whole words. */
  lemma {:induction false} CoverageIsTransitive(a: Text, b: Text, c: Text)
    requires a != [] && b != [] && Covered(a, b) && Covered(b, c)
    ensures Covered(a, c)
  {
    var i :| WordAt(a, b, i);
    var j :| WordAt(b, c, j);
    OccurrencesNest(a, b, c, i, j);
    assert b == c[j..j + |b|] && a == b[i..i + |a|];
    assert i > 0 ==> c[i + j - 1] == b[i - 1];
    assert i + |a| < |b| ==> c[i + j + |a|] == b[i + |a|];
    assert a[0] == b[i] && a[|a| - 1] == b[i + |a| - 1];
    assert WordAt(a, c, i + j);
  }

  lemma CoverageIsReflexive(a: Text)
    requires a != []
    ensures Covered(a, a)
  {
    assert WordAt(a, a, 0);
  }

  // ----- Whether an observation adds information

  /** `digest` identifies the raw title, body and excerpt; the texts are their normalized forms. */
  datatype Event = Event(
    id: int, observedAt: int, source: int, url: Option<string>, digest: int,
    title: Text, body: Text, excerpt: Text, symbols: set<int>)

  function FragmentsOf(e: Event): set<Text> { {e.title, e.body, e.excerpt} - {[]} }

  predicate SameDocument(e: Event, f: Event) { e.source == f.source && e.url == f.url }

  ghost predicate Known(fragment: Text, e: Event, history: set<Event>)
    requires fragment != []
  {
    exists p, text :: p in history && SameDocument(p, e) && text in FragmentsOf(p) && Covered(fragment, text)
  }

  ghost predicate Routed(symbol: int, e: Event, history: set<Event>)
  {
    exists p :: p in history && SameDocument(p, e) && symbol in p.symbols
  }

  ghost predicate Seen(e: Event, history: set<Event>) { exists p :: p in history && SameDocument(p, e) }

  /** The document was seen, and everything about this observation was already known from it. */
  ghost predicate Redundant(e: Event, history: set<Event>)
  {
    && e.url.Some? && Seen(e, history)
    && (forall s :: s in e.symbols ==> Routed(s, e, history))
    && (forall f :: f in FragmentsOf(e) ==> Known(f, e, history))
  }

  ghost function Earlier(events: seq<Event>): set<Event> { set e | e in events }

  /** The fragments of an event in order of first appearance. */
  method EventFragments(e: Event) returns (fragments: seq<Text>)
    ensures (set f | f in fragments) == FragmentsOf(e)
    ensures forall i, j :: 0 <= i < j < |fragments| ==> fragments[i] != fragments[j]
  {
    var values := [e.title, e.body, e.excerpt];
    fragments := [];
    for k := 0 to 3
      invariant forall f :: f in fragments <==> f in values[..k] && f != []
      invariant forall i, j :: 0 <= i < j < |fragments| ==> fragments[i] != fragments[j]
    {
      if values[k] != [] && values[k] !in fragments {
        fragments := fragments + [values[k]];
      }
      assert values[..k + 1] == values[..k] + [values[k]];
    }
    assert values[..3] == values;
  }

  /** Every fragment of the earlier observations, in order. */
  method HistoricalFragments(history: seq<Event>) returns (fragments: seq<Text>)
    ensures forall f :: f in fragments <==> exists p :: p in history && f in FragmentsOf(p)
  {
    fragments := [];
    for k := 0 to |history|
      invariant forall f :: f in fragments <==> exists p :: p in history[..k] && f in FragmentsOf(p)
    {
      var more := EventFragments(history[k]);
      assert forall f :: f in more <==> f in (set g | g in more);
      assert history[..k + 1] == history[..k] + [history[k]];
      fragments := fragments + more;
    }
    assert history[..|history|] == history;
  }

  method AnyCovers(fragment: Text, texts: seq<Text>) returns (covered: bool)
    requires fragment != []
    ensures covered <==> exists t :: t in texts && Covered(fragment, t)
  {
    for k := 0 to |texts|
      invariant forall t :: t in texts[..k] ==> !Covered(fragment, t)
    {
      covered := FragmentIsCovered(fragment, texts[k]);
      if covered {
        return;
      }
      assert texts[..k + 1] == texts[..k] + [texts[k]];
    }
    assert texts[..|texts|] == texts;
    covered := false;
  }

  /** The classifier itself, on the observations that came before. */
  method RevisionAddsInformation(e: Event, previous: seq<Event>) returns (adds: bool)
    ensures adds <==> !Redundant(e, Earlier(previous))
  {
    if e.url.None? {
      return true;
    }
    var history := Filtered(previous, e);
    if history == [] {
      return true;
    }
    assert history[0] in history;
    if exists s :: s in e.symbols && !exists p :: p in history && s in p.symbols {
      var s :| s in e.symbols && !exists p :: p in history && s in p.symbols;
      forall p | p in previous && SameDocument(p, e) ensures s !in p.symbols { assert p in history; }
      assert !Routed(s, e, Earlier(previous));
      return true;
    }
    var historical := HistoricalFragments(history);
    var fragments := EventFragments(e);
    for k := 0 to |fragments|
      invariant forall i :: 0 <= i < k ==> fragments[i] != [] && Known(fragments[i], e, Earlier(previous))
    {
      assert fragments[k] in (set f | f in fragments);
      var covered := AnyCovers(fragments[k], historical);
      if !covered {
        forall p, text | p in previous && SameDocument(p, e) && text in FragmentsOf(p) ensures !Covered(fragments[k], text) {
          assert p in history && text in historical;
        }
        assert fragments[k] in FragmentsOf(e) && !Known(fragments[k], e, Earlier(previous));
        return true;
      }
    }
    assert forall f :: f in FragmentsOf(e) ==> f in (set g | g in fragments);
    adds := false;
  }

  function Filtered(previous: seq<Event>, e: Event): (history: seq<Event>)
    ensures forall p :: p in history <==> p in previous && SameDocument(p, e)
  {
    if previous == [] then [] else
      var rest := Filtered(previous[1..], e);
      assert previous == [previous[0]] + previous[1..];
      if SameDocument(previous[0], e) then [previous[0]] + rest else rest
  }

  // ----- Compaction

  /** More history can only make an observation redundant, never the reverse. */
  lemma RedundancyGrows(e: Event, less: set<Event>, more: set<Event>)
    requires less <= more && Redundant(e, less)
    ensures Redundant(e, more)
  {
    forall f | f in FragmentsOf(e) ensures Known(f, e, more) {
      var p, text :| p in less && SameDocument(p, e) && text in FragmentsOf(p) && Covered(f, text);
    }
  }

  ghost predicate Subsumed(more: set<Event>, less: set<Event>)
  {
    less <= more && forall p :: p in more ==> p in less || Redundant(p, less)
  }

  /** What a redundant observation knows, the others know: coverage being transitive, it can go. */
  lemma SubsumedHistoryDecides(e: Event, more: set<Event>, less: set<Event>)
    requires Subsumed(more, less)
    ensures Redundant(e, less) <==> Redundant(e, more)
  {
    if Redundant(e, less) { RedundancyGrows(e, less, more); }
    if Redundant(e, more) {
      forall f | f in FragmentsOf(e) ensures Known(f, e, less) { KnownWithout(f, e, more, less); }
    }
  }

  lemma KnownWithout(f: Text, e: Event, more: set<Event>, less: set<Event>)
    requires f != [] && Subsumed(more, less) && Known(f, e, more)
    ensures Known(f, e, less)
  {
    var p, text :| p in more && SameDocument(p, e) && text in FragmentsOf(p) && Covered(f, text);
    if p !in less {
      assert Known(text, p, less);
      var q, whole :| q in less && SameDocument(q, p) && whole in FragmentsOf(q) && Covered(text, whole);
      CoverageIsTransitive(f, text, whole);
    }
  }

  /** The observations that added information when they came. */
  ghost function Expanding(events: seq<Event>): seq<Event>
  {
    if events == [] then [] else
      var n := |events| - 1;
      var kept := Expanding(events[..n]);
      if Redundant(events[n], Earlier(events[..n])) then kept else kept + [events[n]]
  }

  lemma {:induction false} ExpandingSubsumes(events: seq<Event>)
    ensures Subsumed(Earlier(events), Earlier(Expanding(events)))
  {
    if events != [] {
      var n := |events| - 1;
      var last, before, kept := events[n], events[..n], Expanding(events[..n]);
      ExpandingSubsumes(before);
      SubsumedHistoryDecides(last, Earlier(before), Earlier(kept));
      assert events == before + [last];
      assert Earlier(events) == Earlier(before) + {last} && Earlier(kept + [last]) == Earlier(kept) + {last};
      forall p | p in events ensures p in Expanding(events) || Redundant(p, Earlier(Expanding(events))) {
        if p in before && p !in kept {
          assert p in Earlier(before);
          RedundancyGrows(p, Earlier(kept), Earlier(Expanding(events)));
        }
      }
    }
  }

  /** Forgetting every non-expanding observation never changes what adds information later. */
  lemma {:induction false} CompactionIsInvisible(events: seq<Event>, e: Event)
    ensures Redundant(e, Earlier(Expanding(events))) <==> Redundant(e, Earlier(events))
  {
    ExpandingSubsumes(events);
    SubsumedHistoryDecides(e, Earlier(events), Earlier(Expanding(events)));
  }

  /** The same selection made by a reader who keeps nothing else. */
  ghost function Compacted(events: seq<Event>): seq<Event>
  {
    if events == [] then [] else
      var n := |events| - 1;
      var kept := Compacted(events[..n]);
      if Redundant(events[n], Earlier(kept)) then kept else kept + [events[n]]
  }

  lemma {:induction false} CompactedIsExpanding(events: seq<Event>)
    ensures Compacted(events) == Expanding(events)
  {
    if events != [] {
      CompactedIsExpanding(events[..|events| - 1]);
      CompactionIsInvisible(events[..|events| - 1], events[|events| - 1]);
    }
  }

  // ----- The online store

  datatype Row = Row(event: Event, expands: bool)

  datatype PutOutcome = Inserted | AlreadyKnown | Conflict | Ambiguous

  ghost function EventsOf(rows: seq<Row>): set<Event> { set r | r in rows :: r.event }

  ghost function ObservedBy(rows: seq<Row>, at: int): set<Event> { set r | r in rows && r.event.observedAt <= at :: r.event }

  predicate SameContent(e: Event, f: Event) { e.source == f.source && e.digest == f.digest }

  predicate Clashes(e: Event, f: Event) { e.id == f.id || SameContent(e, f) }

  predicate KeyTaken(rows: seq<Row>, e: Event) { exists r :: r in rows && Clashes(r.event, e) }

  ghost function Stored(rows: seq<Row>, e: Event): seq<Row>
  {
    if KeyTaken(rows, e) then rows else rows + [Row(e, !Redundant(e, ObservedBy(rows, e.observedAt)))]
  }

  ghost predicate KeysAreUnique(rows: seq<Row>)
  {
    forall i, j :: 0 <= i < j < |rows| ==> !Clashes(rows[i].event, rows[j].event)
  }

  /** Each row's flag is what the classifier says of the rows stored before it and observed no later. */
  ghost predicate FlagsAreOnline(rows: seq<Row>)
  {
    forall i :: 0 <= i < |rows| ==>
      (rows[i].expands <==> !Redundant(rows[i].event, ObservedBy(rows[..i], rows[i].event.observedAt)))
  }

  datatype Wakeup = Wakeup(eventId: int, symbol: int)

  function RoutingOf(owner: Option<int>, e: Event): set<int> { if owner.Some? then {owner.value} else e.symbols }

  function WakeupsOf(owner: Option<int>, e: Event): set<Wakeup> { set s | s in RoutingOf(owner, e) :: Wakeup(e.id, s) }

  /** Exactly the expanding rows have woken anyone. */
  ghost predicate WakeupsAreDue(wakeups: set<Wakeup>, rows: seq<Row>, owner: Option<int>)
  {
    forall w :: w in wakeups <==> exists r :: r in rows && r.expands && w in WakeupsOf(owner, r.event)
  }

  class EventStore {
    const owner: Option<int>
    var rows: seq<Row>
    var wakeups: set<Wakeup>

    ghost predicate Valid()
      reads this
    {
      KeysAreUnique(rows) && FlagsAreOnline(rows) && WakeupsAreDue(wakeups, rows, owner)
    }

    constructor (owner: Option<int>)
      ensures Valid() && rows == [] && this.owner == owner
    {
      this.owner := owner;
      rows, wakeups := [], {};
    }

    /** One observation: stored and flagged in one transaction, or matched against what holds its keys. */
    method Put(e: Event) returns (outcome: PutOutcome)
      requires Valid()
      modifies this
      ensures Valid() && rows == Stored(old(rows), e) && outcome == OutcomeOf(old(rows), e)
    {
      if KeyTaken(rows, e) {
        outcome := Matched(rows, e);
        return;
      }
      ghost var before := rows;
      var history := Visible(rows, e.observedAt);
      var adds := RevisionAddsInformation(e, history);
      assert Earlier(history) == ObservedBy(rows, e.observedAt);
      rows := rows + [Row(e, adds)];
      if adds {
        wakeups := wakeups + WakeupsOf(owner, e);
      }
      RowsGrow(before, Row(e, adds));
      outcome := Inserted;
    }
  }

  function Visible(rows: seq<Row>, at: int): (events: seq<Event>)
    ensures forall e :: e in events <==> e in ObservedBy(rows, at)
  {
    if rows == [] then [] else
      var n := |rows| - 1;
      assert rows == rows[..n] + [rows[n]];
      Visible(rows[..n], at) + if rows[n].event.observedAt <= at then [rows[n].event] else []
  }

  lemma RowsGrow(rows: seq<Row>, r: Row)
    requires KeysAreUnique(rows) && FlagsAreOnline(rows) && !KeyTaken(rows, r.event)
    requires r.expands <==> !Redundant(r.event, ObservedBy(rows, r.event.observedAt))
    ensures KeysAreUnique(rows + [r]) && FlagsAreOnline(rows + [r])
  {
    var longer := rows + [r];
    forall i | 0 <= i < |longer|
      ensures longer[i].expands <==> !Redundant(longer[i].event, ObservedBy(longer[..i], longer[i].event.observedAt))
    {
      assert longer[..i] == rows[..i];
      if i == |rows| { assert rows[..i] == rows; }
    }
  }

  /** The rows that hold one of the keys decide how the rejected insertion ends. */
  method Matched(rows: seq<Row>, e: Event) returns (outcome: PutOutcome)
    requires KeyTaken(rows, e) && KeysAreUnique(rows)
    ensures outcome == OutcomeOf(rows, e)
  {
    var k :| 0 <= k < |rows| && Clashes(rows[k].event, e);
    var r := rows[k];
    assert forall j :: 0 <= j < |rows| && j != k ==> !Clashes(rows[j].event, r.event);
    if exists s :: s in rows && s != r && Clashes(s.event, e) {
      outcome := Ambiguous;
    } else if r.event == e || SameContent(r.event, e) {
      outcome := AlreadyKnown;
    } else {
      outcome := Conflict;
    }
  }

  ghost predicate IdHeld(rows: seq<Row>, e: Event) { exists r :: r in rows && r.event.id == e.id }

  ghost predicate ContentHeld(rows: seq<Row>, e: Event) { exists r :: r in rows && SameContent(r.event, e) }

  ghost predicate BothHeld(rows: seq<Row>, e: Event) { exists r :: r in rows && r.event.id == e.id && SameContent(r.event, e) }

  /** Repeated content is ignored under any id; a reused id is an error; content held by one row and id by another is ambiguous. */
  ghost function OutcomeOf(rows: seq<Row>, e: Event): PutOutcome
  {
    if BothHeld(rows, e) then AlreadyKnown
    else if IdHeld(rows, e) && ContentHeld(rows, e) then Ambiguous
    else if IdHeld(rows, e) then Conflict
    else if ContentHeld(rows, e) then AlreadyKnown
    else Inserted
  }

  // ----- The migration

  /** Rows without a usable URL are always taken to expand. */
  predicate HasLocator(e: Event) { e.url.Some? && e.url.value != "" }

  ghost predicate Migrated(e: Event, earlier: seq<Event>) { HasLocator(e) ==> !Redundant(e, Earlier(earlier)) }

  ghost predicate HistoriesAreComplete(histories: map<(int, string), seq<Event>>, events: seq<Event>)
  {
    && (forall k, p :: k in histories && p in histories[k] ==> p in events && p.source == k.0 && p.url == Some(k.1))
    && (forall p :: p in events && HasLocator(p) ==> (p.source, p.url.value) in histories && p in histories[(p.source, p.url.value)])
  }

  lemma HistoriesGrow(histories: map<(int, string), seq<Event>>, events: seq<Event>, e: Event, history: seq<Event>)
    requires HistoriesAreComplete(histories, events)
    requires HasLocator(e) ==>
      history == if (e.source, e.url.value) in histories then histories[(e.source, e.url.value)] else []
    ensures HistoriesAreComplete(if HasLocator(e) then histories[(e.source, e.url.value) := history + [e]] else histories, events + [e])
    ensures HasLocator(e) ==> forall p :: p in history ==> p in events
    ensures HasLocator(e) ==> forall p :: p in events && SameDocument(p, e) ==> p in history
  {
  }

  /** The single pass over the rows, with one growing history per source and URL. */
  method Upgrade(rows: seq<Event>) returns (flags: seq<bool>)
    ensures |flags| == |rows|
    ensures forall i :: 0 <= i < |rows| ==> (flags[i] <==> Migrated(rows[i], rows[..i]))
  {
    hide HistoriesAreComplete, AreMigrated, Migrated;
    var histories: map<(int, string), seq<Event>> := map[];
    flags := [];
    NothingYet(rows);
    for i := 0 to |rows|
      invariant |flags| == i && HistoriesAreComplete(histories, rows[..i]) && AreMigrated(rows, flags)
    {
      var expands: bool;
      ghost var before := flags;
      histories, expands := Classify(histories, rows[..i], rows[i]);
      assert rows[..i] + [rows[i]] == rows[..i + 1];
      flags := flags + [expands];
      MigratedPush(rows, before, expands);
    }
    MigratedAll(rows, flags);
  }

  lemma NothingYet(rows: seq<Event>)
    ensures HistoriesAreComplete(map[], rows[..0]) && AreMigrated(rows, [])
  {
  }

  lemma MigratedAll(rows: seq<Event>, flags: seq<bool>)
    requires AreMigrated(rows, flags) && |flags| == |rows|
    ensures forall i :: 0 <= i < |rows| ==> (flags[i] <==> Migrated(rows[i], rows[..i]))
  {
    hide Migrated;
  }

  ghost predicate AreMigrated(rows: seq<Event>, flags: seq<bool>)
  {
    |flags| <= |rows| && forall j :: 0 <= j < |flags| ==> (flags[j] <==> Migrated(rows[j], rows[..j]))
  }

  lemma MigratedPush(rows: seq<Event>, flags: seq<bool>, expands: bool)
    requires AreMigrated(rows, flags) && |flags| < |rows| && (expands <==> Migrated(rows[|flags|], rows[..|flags|]))
    ensures AreMigrated(rows, flags + [expands])
  {
    hide Migrated;
  }

  method Classify(histories: map<(int, string), seq<Event>>, ghost earlier: seq<Event>, e: Event)
    returns (grown: map<(int, string), seq<Event>>, expands: bool)
    requires HistoriesAreComplete(histories, earlier)
    ensures HistoriesAreComplete(grown, earlier + [e]) && (expands <==> Migrated(e, earlier))
  {
    hide Redundant, HistoriesAreComplete;
    grown, expands := histories, true;
    if e.url.Some? && e.url.value != "" {
      var key := (e.source, e.url.value);
      var history := if key in histories then histories[key] else [];
      HistoriesGrow(histories, earlier, e, history);
      expands := RevisionAddsInformation(e, history);
      SameVerdict(e, history, earlier);
      grown := histories[key := history + [e]];
    } else {
      HistoriesGrow(histories, earlier, e, []);
    }
  }

  /** Only observations of the same document matter. */
  lemma SameVerdict(e: Event, history: seq<Event>, events: seq<Event>)
    requires forall p :: p in history ==> p in events
    requires forall p :: p in events && SameDocument(p, e) ==> p in history
    ensures Redundant(e, Earlier(history)) <==> Redundant(e, Earlier(events))
  {
    if Redundant(e, Earlier(history)) { RedundancyGrows(e, Earlier(history), Earlier(events)); }
    if Redundant(e, Earlier(events)) {
      forall f | f in FragmentsOf(e) ensures Known(f, e, Earlier(history)) {
        var p, text :| p in Earlier(events) && SameDocument(p, e) && text in FragmentsOf(p) && Covered(f, text);
      }
    }
  }

  /** The store after putting events one by one. */
  ghost function Replay(events: seq<Event>): seq<Row>
  {
    if events == [] then [] else Stored(Replay(events[..|events| - 1]), events[|events| - 1])
  }

  /** Rows as the table holds them, in the order the migration reads them. */
  ghost predicate AreTableRows(events: seq<Event>)
  {
    && (forall i, j :: 0 <= i < j < |events| ==> events[i].observedAt <= events[j].observedAt)
    && (forall i, j :: 0 <= i < j < |events| ==> !Clashes(events[i], events[j]))
  }

  ghost predicate Holds(rows: seq<Row>, events: seq<Event>)
  {
    |rows| == |events| && forall i :: 0 <= i < |rows| ==> rows[i].event == events[i]
  }

  lemma AllVisible(rows: seq<Row>, events: seq<Event>, at: int)
    requires Holds(rows, events) && forall i :: 0 <= i < |events| ==> events[i].observedAt <= at
    ensures ObservedBy(rows, at) == Earlier(events)
  {
    forall p | p in events ensures p in ObservedBy(rows, at) {
      var i :| 0 <= i < |events| && events[i] == p;
      assert rows[i] in rows && rows[i].event == p;
    }
  }

  lemma NoClash(rows: seq<Row>, events: seq<Event>, e: Event)
    requires Holds(rows, events) && forall i :: 0 <= i < |events| ==> !Clashes(events[i], e)
    ensures !KeyTaken(rows, e)
  {
    forall r | r in rows ensures !Clashes(r.event, e) {
      var i :| 0 <= i < |rows| && rows[i] == r;
    }
  }

  lemma {:induction false} ReplayedFlags(events: seq<Event>)
    requires AreTableRows(events)
    ensures Holds(Replay(events), events)
    ensures forall i :: 0 <= i < |events| ==> (Replay(events)[i].expands <==> !Redundant(events[i], Earlier(events[..i])))
  {
    hide Redundant, ObservedBy, KeyTaken, Clashes, Earlier;
    if events != [] {
      var n := |events| - 1;
      var before := events[..n];
      ReplayedFlags(before);
      NoClash(Replay(before), before, events[n]);
      AllVisible(Replay(before), before, events[n].observedAt);
      forall i | 0 <= i < n ensures before[..i] == events[..i] {}
    }
  }

  ghost predicate EmptyLocatorsExpand(events: seq<Event>)
  {
    forall i :: 0 <= i < |events| && events[i].url == Some("") ==> !Redundant(events[i], Earlier(events[..i]))
  }

  /** The backfill agrees with replaying the online store exactly when no row with an empty URL repeats its source. */
  lemma {:induction false} BackfillMatchesReplayExactlyWhen(events: seq<Event>)
    requires AreTableRows(events)
    ensures |Replay(events)| == |events|
    ensures (forall i :: 0 <= i < |events| ==> (Replay(events)[i].expands <==> Migrated(events[i], events[..i])))
       <==> EmptyLocatorsExpand(events)
    ensures forall i :: 0 <= i < |events| && events[i].url != Some("") ==>
              (Replay(events)[i].expands <==> Migrated(events[i], events[..i]))
  {
    ReplayedFlags(events);
  }

  /** Two identical bulletins without an address: online the second is redundant, the backfill flags it as new. */
  lemma {:induction false} EmptyLocatorsDiverge(letter: Letter)
    ensures
      var first := Event(1, 10, 7, Some(""), 1, [letter], [], [], {});
      var second := Event(2, 20, 7, Some(""), 2, [letter], [], [], {});
      AreTableRows([first, second]) && |Replay([first, second])| == 2
      && !Replay([first, second])[1].expands && Migrated(second, [first])
  {
    var first := Event(1, 10, 7, Some(""), 1, [letter], [], [], {});
    var second := Event(2, 20, 7, Some(""), 2, [letter], [], [], {});
    var events := [first, second];
    ReplayedFlags(events);
    assert events[..1] == [first];
    assert first in [first] && FragmentsOf(second) == {[letter]} && FragmentsOf(first) == {[letter]};
    CoverageIsReflexive([letter]);
    assert Known([letter], second, Earlier([first]));
  }

  // ----- Any order of arrival

  lemma OnlineHistoryIsPartial(rows: seq<Row>, k: nat, at: int)
    requires KeysAreUnique(rows) && k < |rows|
    ensures ObservedBy(rows[..k], at) <= ObservedBy(rows, at) - {rows[k].event}
  {
    forall r | r in rows[..k] ensures r.event != rows[k].event && r in rows {
      var i :| 0 <= i < k && rows[i] == r;
      assert !Clashes(rows[i].event, rows[k].event);
    }
  }

  /** However late observations arrive, none that adds to everything observed by its time is left unflagged. */
  lemma {:induction false} NothingNewIsSilenced(rows: seq<Row>, k: nat)
    requires FlagsAreOnline(rows) && KeysAreUnique(rows) && k < |rows|
    requires !Redundant(rows[k].event, ObservedBy(rows, rows[k].event.observedAt) - {rows[k].event})
    ensures rows[k].expands
  {
    hide Redundant, ObservedBy, KeysAreUnique;
    var e := rows[k].event;
    var online, all := ObservedBy(rows[..k], e.observedAt), ObservedBy(rows, e.observedAt) - {e};
    OnlineHistoryIsPartial(rows, k, e.observedAt);
    if Redundant(e, online) { RedundancyGrows(e, online, all); }
  }
}
