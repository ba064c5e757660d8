/**
 First-seen market facts and point-in-time reading (src/investment_manager/market/repository.py,
 `InMemoryMarketDataStore`). The ten dictionaries have one shape, so a fact carries its kind:
 `subject` is the symbol or instrument, `series` the interval, venue or rate type, `at` the exchange, event, funding or
 open time, `content` everything else a provider reports, and `volume` the volume fields of a closed bar.
 */
module MarketFacts {
  import opened Results
  import opened Sorting
  import OutcomeBuckets

  datatype Kind =
    | SpotQuote | ReferencePrice | VenueQuote | Trade | Bar
    | PerpetualState | PerpetualQuote | ProductRules | Funding | Schedule

  datatype Fact = Fact(
    kind: Kind, id: int, subject: int, series: int, at: int, observedAt: int, source: int, content: int, volume: int)

  datatype Key = ById(kind: Kind, id: int) | ByTrade(symbol: int, aggregateId: int) | ByBar(symbol: int, interval: int, openTime: int)

  function KeyOf(f: Fact): Key
  {
    match f.kind
    case Trade => ByTrade(f.subject, f.id)
    case Bar => ByBar(f.subject, f.series, f.at)
    case _ => ById(f.kind, f.id)
  }

  type Facts = m: map<Key, Fact> | forall k :: k in m ==> KeyOf(m[k]) == k

  /** Two reports of one market fact; product rules are compared with their provenance. */
  predicate SameMarketFact(a: Fact, b: Fact)
  {
    if a.kind == ProductRules then a == b else a.(observedAt := b.observedAt, source := b.source) == b
  }

  predicate OnlyVolumeDiffers(a: Fact, b: Fact)
  {
    a.kind == Bar && a.volume != b.volume && SameMarketFact(a.(volume := b.volume), b)
  }

  datatype StoreError = FactsDisagree

  function PutAnswer(facts: Facts, f: Fact): Result<bool, StoreError>
  {
    if KeyOf(f) !in facts then Ok(true)
    else if SameMarketFact(facts[KeyOf(f)], f) || OnlyVolumeDiffers(facts[KeyOf(f)], f) then Ok(false)
    else Err(FactsDisagree)
  }

  /** Whatever the answer, a known key keeps its first fact. */
  function Kept(facts: Facts, f: Fact): Facts { if KeyOf(f) in facts then facts else facts[KeyOf(f) := f] }

  function PutAll(facts: Facts, fs: seq<Fact>): Facts
  {
    if fs == [] then facts else Kept(PutAll(facts, fs[..|fs| - 1]), fs[|fs| - 1])
  }

  // ----- What a query sees

  datatype Range = Anytime | UpTo(last: int) | Between(start: int, end: int)

  datatype Want = Want(kind: Kind, subject: Option<int>, series: Option<int>, range: Range, observedBy: int)

  predicate InRange(r: Range, at: int)
  {
    match r
    case Anytime => true
    case UpTo(last) => at <= last
    case Between(start, end) => start <= at < end
  }

  predicate Selects(w: Want, f: Fact)
  {
    && f.kind == w.kind && (w.subject.Some? ==> f.subject == w.subject.value) && (w.series.Some? ==> f.series == w.series.value)
    && InRange(w.range, f.at) && f.observedAt <= w.observedBy
  }

  ghost function Visible(facts: Facts, w: Want): set<Fact> { set k | k in facts && Selects(w, facts[k]) :: facts[k] }

  datatype Rank = Rank(first: int, second: int, third: int)

  /** The sort keys of the queries, kind by kind. */
  function RankOf(f: Fact): Rank
  {
    match f.kind
    case SpotQuote => Rank(f.observedAt, f.id, 0)
    case ProductRules => Rank(f.observedAt, f.id, 0)
    case Bar => Rank(f.at, 0, 0)
    case Funding => Rank(f.at, f.series, f.id)
    case _ => Rank(f.at, f.observedAt, f.id)
  }

  predicate RankLe(a: Rank, b: Rank)
  {
    a.first < b.first || (a.first == b.first && (a.second < b.second || (a.second == b.second && a.third <= b.third)))
  }

  function Order(): (Fact, Fact) -> bool { (a: Fact, b: Fact) => RankLe(RankOf(a), RankOf(b)) }

  /** The query pins down enough of a fact for its rank to identify it. */
  predicate Identifies(w: Want)
  {
    (w.kind == Trade ==> w.subject.Some?) && (w.kind == Bar ==> w.subject.Some? && w.series.Some?)
  }

  type Question = w: Want | Identifies(w) witness Want(Schedule, None, None, Anytime, 0)

  lemma RanksAreTotal(facts: Facts, w: Question)
    ensures TotalOn(Order(), Visible(facts, w))
  {
    forall a, b | a in Visible(facts, w) && b in Visible(facts, w) && RankOf(a) == RankOf(b) ensures a == b {
      assert KeyOf(a) == KeyOf(b);
    }
  }

  ghost function ListingOf(visible: set<Fact>): seq<Fact> { Sort(Order(), Arrangement(visible)) }

  ghost function LatestOf(visible: set<Fact>): Option<Fact>
  {
    var l := ListingOf(visible);
    if l == [] then None else Some(l[|l| - 1])
  }

  lemma ArrangementIsWithin(s: set<Fact>)
    ensures Within(Arrangement(s), s) && forall f :: f in s ==> f in Arrangement(s)
  {
    forall i | 0 <= i < |Arrangement(s)| ensures Arrangement(s)[i] in s {
      assert Arrangement(s)[i] in multiset(Arrangement(s));
    }
    forall f | f in s ensures f in Arrangement(s) { assert f in multiset(s); }
  }

  lemma ListingMeaning(facts: Facts, w: Question)
    ensures
      var l := ListingOf(Visible(facts, w));
      SortedBy(Order(), l) && multiset(l) == multiset(Visible(facts, w))
  {
    var visible := Visible(facts, w);
    RanksAreTotal(facts, w);
    ArrangementIsWithin(visible);
    SortSorts(Order(), visible, Arrangement(visible));
  }

  /** The latest fact is visible and outranks every visible fact; there is none exactly when nothing is visible. */
  lemma {:induction false} LatestMeaning(facts: Facts, w: Question)
    ensures
      var visible := Visible(facts, w);
      match LatestOf(visible)
      case None => visible == {}
      case Some(f) => f in visible && forall g :: g in visible ==> RankLe(RankOf(g), RankOf(f))
  {
    var visible := Visible(facts, w);
    var l := ListingOf(visible);
    ListingMeaning(facts, w);
    RanksAreTotal(facts, w);
    hide ListingOf, Visible;
    assert Within(l, visible) by {
      forall i | 0 <= i < |l| ensures l[i] in visible { assert l[i] in multiset(l); }
    }
    forall g | g in visible ensures l != [] && RankLe(RankOf(g), RankOf(l[|l| - 1])) {
      assert g in multiset(l);
      LastIsGreatest(Order(), visible, l, g);
    }
  }

  // ----- The queries

  datatype Request =
    | SpotQuoteAt(isSpot: bool, symbol: int, evaluationAt: int, visibleAt: int)
    | VenueQuotesAt(symbol: int, venues: seq<int>, visibleAt: int)
    | PerpetualStateAt(instrument: int, visibleAt: int)
    | PerpetualQuoteAt(instrument: int, evaluationAt: int, visibleAt: int)
    | ProductRulesAt(instrument: int, visibleAt: int)
    | FundingWithin(instrument: int, start: int, end: int, visibleAt: int)
    | ScheduleAt(visibleAt: int)
    | TradeAt(symbol: int, visibleAt: int)
    | SnapshotAt(symbol: int, interval: int, window: int, visibleAt: int)

  /** `Invalid` stands for the raised error. */
  datatype Response =
    | Found(fact: Option<Fact>)
    | Listed(facts: seq<Fact>)
    | Snapshot(observedAt: int, quote: Fact, trade: Fact, bars: seq<Fact>)
    | Invalid

  function SpotQuotes(symbol: int, known: int): Question { Want(SpotQuote, Some(symbol), None, Anytime, known) }

  function VenueQuotes(symbol: int, venue: int, known: int): Question { Want(VenueQuote, Some(symbol), Some(venue), UpTo(known), known) }

  function Trades(symbol: int, known: int): Question { Want(Trade, Some(symbol), None, UpTo(known), known) }

  function Bars(symbol: int, interval: int, known: int): Question { Want(Bar, Some(symbol), Some(interval), Anytime, known) }

  function PerpetualStates(instrument: int, known: int): Question { Want(PerpetualState, Some(instrument), None, UpTo(known), known) }

  function PerpetualQuotes(instrument: int, at: int, known: int): Question { Want(PerpetualQuote, Some(instrument), None, UpTo(at), known) }

  function Rules(instrument: int, known: int): Question { Want(ProductRules, Some(instrument), None, Anytime, known) }

  function Settlements(instrument: int, start: int, end: int, known: int): Question {
    Want(Funding, Some(instrument), None, Between(start, end), known)
  }

  function Schedules(known: int): Question { Want(Schedule, None, None, UpTo(known), known) }

  predicate VenuesAscend(xs: seq<int>) { forall i, j :: 0 <= i < j < |xs| ==> xs[i] < xs[j] }

  /** Python's `xs[-window:]`. */
  function Tail(xs: seq<Fact>, window: int): seq<Fact>
  {
    if window > |xs| || window == 0 then xs
    else if window > 0 then xs[|xs| - window..]
    else if -window <= |xs| then xs[-window..] else []
  }

  ghost function LatestByVenue(facts: Facts, symbol: int, venues: seq<int>, known: int): seq<Fact>
  {
    if venues == [] then [] else
      var n := |venues| - 1;
      var last := LatestOf(Visible(facts, VenueQuotes(symbol, venues[n], known)));
      LatestByVenue(facts, symbol, venues[..n], known) + if last.Some? then [last.value] else []
  }

  ghost function SnapshotOf(facts: Facts, symbol: int, interval: int, window: int, known: int): Response
  {
    var quote, trade := LatestOf(Visible(facts, SpotQuotes(symbol, known))), LatestOf(Visible(facts, Trades(symbol, known)));
    var bars := Tail(ListingOf(Visible(facts, Bars(symbol, interval, known))), window);
    if quote.None? || trade.None? || |bars| < 2 then Invalid
    else
      var q, t := quote.value, trade.value;
      Snapshot(if q.observedAt <= t.observedAt then q.observedAt else t.observedAt, q, t, bars)
  }

  ghost function Respond(facts: Facts, q: Request): Response
  {
    match q
    case SpotQuoteAt(isSpot, symbol, at, known) =>
      if !isSpot || at > known then Invalid else Found(LatestOf(Visible(facts, SpotQuotes(symbol, at))))
    case VenueQuotesAt(symbol, venues, known) => if !VenuesAscend(venues) then Invalid else Listed(LatestByVenue(facts, symbol, venues, known))
    case PerpetualStateAt(instrument, known) => Found(LatestOf(Visible(facts, PerpetualStates(instrument, known))))
    case PerpetualQuoteAt(instrument, at, known) =>
      if at > known then Invalid else Found(LatestOf(Visible(facts, PerpetualQuotes(instrument, at, known))))
    case ProductRulesAt(instrument, known) => Found(LatestOf(Visible(facts, Rules(instrument, known))))
    case FundingWithin(instrument, start, end, known) =>
      if !(start < end <= known) then Invalid else Listed(ListingOf(Visible(facts, Settlements(instrument, start, end, known))))
    case ScheduleAt(known) => Found(LatestOf(Visible(facts, Schedules(known))))
    case TradeAt(symbol, known) =>
      var trade := LatestOf(Visible(facts, Trades(symbol, known))); if trade.None? then Invalid else Found(trade)
    case SnapshotAt(symbol, interval, window, known) => SnapshotOf(facts, symbol, interval, window, known)
  }

  // ----- The store

  class InMemoryMarketDataStore {
    var facts: Facts

    constructor ()
      ensures facts == map[]
    {
      facts := map[];
    }

    method Put(f: Fact) returns (answer: Result<bool, StoreError>)
      modifies this
      ensures facts == Kept(old(facts), f) && answer == PutAnswer(old(facts), f)
    {
      if KeyOf(f) in facts {
        var existing := facts[KeyOf(f)];
        if !SameMarketFact(existing, f) {
          if OnlyVolumeDiffers(existing, f) {
            return Ok(false);
          }
          return Err(FactsDisagree);
        }
        return Ok(false);
      }
      facts := facts[KeyOf(f) := f];
      answer := Ok(true);
    }

    /** Every visible fact once, in no particular order. */
    method Select(w: Question) returns (found: seq<Fact>)
      ensures multiset(found) == multiset(Visible(facts, w))
    {
      var todo := facts.Keys;
      found := [];
      ghost var seen: set<Fact> := {};
      while todo != {}
        invariant todo <= facts.Keys
        invariant seen == set k | k in facts.Keys - todo && Selects(w, facts[k]) :: facts[k]
        invariant multiset(found) == multiset(seen)
        decreases todo
      {
        var k :| k in todo;
        todo := todo - {k};
        if Selects(w, facts[k]) {
          assert facts[k] !in seen;
          found := found + [facts[k]];
          seen := seen + {facts[k]};
        }
      }
      assert seen == Visible(facts, w);
    }

    method Latest(w: Question) returns (best: Option<Fact>)
      ensures best == LatestOf(Visible(facts, w))
    {
      var visible := Select(w);
      best := None;
      for i := 0 to |visible|
        invariant best.None? <==> i == 0
        invariant best.Some? ==> best.value in visible
        invariant forall j :: 0 <= j < i ==> RankLe(RankOf(visible[j]), RankOf(best.value))
      {
        if best.None? || !RankLe(RankOf(visible[i]), RankOf(best.value)) {
          best := Some(visible[i]);
        }
      }
      GreatestIsLatest(facts, w, visible, best);
    }

    method Listing(w: Question) returns (sorted: seq<Fact>)
      ensures sorted == ListingOf(Visible(facts, w))
    {
      var visible := Select(w);
      sorted := Sort(Order(), visible);
      RanksAreTotal(facts, w);
      ghost var all := Visible(facts, w);
      SameElements(visible, Arrangement(all));
      ArrangementIsWithin(all);
      assert (set f | f in visible) == all;
      SortIgnoresOrder(Order(), visible, Arrangement(all));
    }

    method LatestSpotQuote(isSpot: bool, symbol: int, evaluationAt: int, visibleAt: int) returns (r: Response)
      ensures r == Respond(facts, SpotQuoteAt(isSpot, symbol, evaluationAt, visibleAt))
    {
      if !isSpot || evaluationAt > visibleAt {
        return Invalid;
      }
      var quote := Latest(SpotQuotes(symbol, evaluationAt));
      r := Found(quote);
    }

    method LatestCrossVenueSpotQuotes(symbol: int, venues: seq<int>, asOf: int) returns (r: Response)
      ensures r == Respond(facts, VenueQuotesAt(symbol, venues, asOf))
    {
      hide LatestOf, Visible;
      if !VenuesAscend(venues) {
        return Invalid;
      }
      var latest := [];
      for i := 0 to |venues|
        invariant latest == LatestByVenue(facts, symbol, venues[..i], asOf)
      {
        var quote := Latest(VenueQuotes(symbol, venues[i], asOf));
        if quote.Some? {
          latest := latest + [quote.value];
        }
        assert venues[..i + 1][..i] == venues[..i];
      }
      assert venues[..|venues|] == venues;
      r := Listed(latest);
    }

    method LatestPerpetualState(instrument: int, asOf: int) returns (r: Response)
      ensures r == Respond(facts, PerpetualStateAt(instrument, asOf))
    {
      var state := Latest(PerpetualStates(instrument, asOf));
      r := Found(state);
    }

    method LatestPerpetualQuote(instrument: int, evaluationAt: int, visibleAt: int) returns (r: Response)
      ensures r == Respond(facts, PerpetualQuoteAt(instrument, evaluationAt, visibleAt))
    {
      if evaluationAt > visibleAt {
        return Invalid;
      }
      var quote := Latest(PerpetualQuotes(instrument, evaluationAt, visibleAt));
      r := Found(quote);
    }

    method LatestPerpetualProductRules(instrument: int, asOf: int) returns (r: Response)
      ensures r == Respond(facts, ProductRulesAt(instrument, asOf))
    {
      var rules := Latest(Rules(instrument, asOf));
      r := Found(rules);
    }

    method FundingSettlements(instrument: int, start: int, end: int, visibleAt: int) returns (r: Response)
      ensures r == Respond(facts, FundingWithin(instrument, start, end, visibleAt))
    {
      if !(start < end <= visibleAt) {
        return Invalid;
      }
      var settlements := Listing(Settlements(instrument, start, end, visibleAt));
      r := Listed(settlements);
    }

    method LatestTradingSchedule(asOf: int) returns (r: Response)
      ensures r == Respond(facts, ScheduleAt(asOf))
    {
      hide LatestOf, Visible;
      var schedule := Latest(Schedules(asOf));
      r := Found(schedule);
    }

    method LatestTrade(symbol: int, asOf: int) returns (r: Response)
      ensures r == Respond(facts, TradeAt(symbol, asOf))
    {
      var trade := Latest(Trades(symbol, asOf));
      r := if trade.None? then Invalid else Found(trade);
    }

    method MarketSnapshot(symbol: int, interval: int, window: int, asOf: int) returns (r: Response)
      ensures r == Respond(facts, SnapshotAt(symbol, interval, window, asOf))
    {
      hide LatestOf, ListingOf, Visible, Tail;
      var quote := Latest(SpotQuotes(symbol, asOf));
      var trade := Latest(Trades(symbol, asOf));
      if quote.None? || trade.None? {
        return Invalid;
      }
      var bars := Listing(Bars(symbol, interval, asOf));
      var selected := Tail(bars, window);
      if |selected| < 2 {
        return Invalid;
      }
      var q, t := quote.value, trade.value;
      r := Snapshot(if q.observedAt <= t.observedAt then q.observedAt else t.observedAt, q, t, selected);
    }
  }

  lemma GreatestIsLatest(facts: Facts, w: Question, found: seq<Fact>, best: Option<Fact>)
    requires multiset(found) == multiset(Visible(facts, w))
    requires best.None? <==> found == []
    requires best.Some? ==> best.value in found && forall j :: 0 <= j < |found| ==> RankLe(RankOf(found[j]), RankOf(best.value))
    ensures best == LatestOf(Visible(facts, w))
  {
    var visible := Visible(facts, w);
    LatestMeaning(facts, w);
    RanksAreTotal(facts, w);
    forall f ensures f in visible <==> f in found {
      assert f in multiset(visible) <==> f in multiset(found);
    }
    var latest := LatestOf(visible);
    if latest.Some? {
      assert latest.value in found;
      var f := best.value;
      assert f in visible;
      assert Order()(f, latest.value) && Order()(latest.value, f);
    } else {
      assert |found| == |multiset(found)| == |multiset(visible)| == 0;
    }
  }

  // ----- Stability

  lemma {:induction false} FirstSeenIsKept(facts: Facts, fs: seq<Fact>, k: Key)
    requires k in facts
    ensures k in PutAll(facts, fs) && PutAll(facts, fs)[k] == facts[k]
  {
    if fs != [] { FirstSeenIsKept(facts, fs[..|fs| - 1], k); }
  }

  /** Over any run of puts the fact of a key is the first one reported under it. */
  lemma {:induction false} FirstSeenWins(fs: seq<Fact>, k: nat)
    requires k < |fs| && forall j :: 0 <= j < k ==> KeyOf(fs[j]) != KeyOf(fs[k])
    ensures KeyOf(fs[k]) in PutAll(map[], fs) && PutAll(map[], fs)[KeyOf(fs[k])] == fs[k]
  {
    var n := |fs| - 1;
    if k < n {
      FirstSeenWins(fs[..n], k);
    } else {
      OnlyReportedKeys(fs[..n], KeyOf(fs[k]));
    }
  }

  lemma {:induction false} OnlyReportedKeys(fs: seq<Fact>, k: Key)
    requires forall j :: 0 <= j < |fs| ==> KeyOf(fs[j]) != k
    ensures k !in PutAll(map[], fs)
  {
    if fs != [] { OnlyReportedKeys(fs[..|fs| - 1], k); }
  }

  lemma {:induction false} LaterFactsAreInvisible(facts: Facts, fs: seq<Fact>, w: Question, known: int)
    requires w.observedBy <= known && forall i :: 0 <= i < |fs| ==> fs[i].observedAt > known
    ensures Visible(PutAll(facts, fs), w) == Visible(facts, w)
  {
    if fs != [] {
      var n := |fs| - 1;
      LaterFactsAreInvisible(facts, fs[..n], w, known);
      var before := PutAll(facts, fs[..n]);
      OnePutIsInvisible(before, fs[n], w);
    }
  }

  lemma OnePutIsInvisible(facts: Facts, f: Fact, w: Question)
    requires f.observedAt > w.observedBy
    ensures Visible(Kept(facts, f), w) == Visible(facts, w)
  {
    var after := Kept(facts, f);
    forall g | g in Visible(facts, w) ensures g in Visible(after, w) {
      var k :| k in facts && facts[k] == g;
      assert k in after && after[k] == g;
    }
  }

  lemma {:induction false} VenuesAreStable(facts: Facts, fs: seq<Fact>, symbol: int, venues: seq<int>, known: int)
    requires forall i :: 0 <= i < |fs| ==> fs[i].observedAt > known
    ensures LatestByVenue(PutAll(facts, fs), symbol, venues, known) == LatestByVenue(facts, symbol, venues, known)
  {
    if venues != [] {
      var n := |venues| - 1;
      VenuesAreStable(facts, fs, symbol, venues[..n], known);
      LaterFactsAreInvisible(facts, fs, VenueQuotes(symbol, venues[n], known), known);
    }
  }

  /** Whatever is observed later, every question about the past keeps its answer. */
  lemma {:induction false} PastIsStable(facts: Facts, fs: seq<Fact>, q: Request)
    requires forall i :: 0 <= i < |fs| ==> fs[i].observedAt > q.visibleAt
    ensures Respond(PutAll(facts, fs), q) == Respond(facts, q)
  {
    hide LatestOf, ListingOf, Visible, PutAll, LatestByVenue;
    var known := q.visibleAt;
    match q
    case SpotQuoteAt(_, symbol, at, _) => if at <= known { LaterFactsAreInvisible(facts, fs, SpotQuotes(symbol, at), known); }
    case VenueQuotesAt(symbol, venues, _) => VenuesAreStable(facts, fs, symbol, venues, known);
    case PerpetualStateAt(instrument, _) => LaterFactsAreInvisible(facts, fs, PerpetualStates(instrument, known), known);
    case PerpetualQuoteAt(instrument, at, _) => LaterFactsAreInvisible(facts, fs, PerpetualQuotes(instrument, at, known), known);
    case ProductRulesAt(instrument, _) => LaterFactsAreInvisible(facts, fs, Rules(instrument, known), known);
    case FundingWithin(instrument, start, end, _) => LaterFactsAreInvisible(facts, fs, Settlements(instrument, start, end, known), known);
    case ScheduleAt(_) => LaterFactsAreInvisible(facts, fs, Schedules(known), known);
    case TradeAt(symbol, _) => LaterFactsAreInvisible(facts, fs, Trades(symbol, known), known);
    case SnapshotAt(symbol, interval, _, _) =>
      LaterFactsAreInvisible(facts, fs, SpotQuotes(symbol, known), known);
      LaterFactsAreInvisible(facts, fs, Trades(symbol, known), known);
      LaterFactsAreInvisible(facts, fs, Bars(symbol, interval, known), known);
  }

  /** A settlement listing is chronological and complete for its interval, as the funding check needs it. */
  lemma {:induction false} FundingIsChronological(facts: Facts, instrument: int, start: int, end: int, known: int)
    ensures
      var listed := ListingOf(Visible(facts, Settlements(instrument, start, end, known)));
      && (forall i, j :: 0 <= i < j < |listed| ==> listed[i].at <= listed[j].at)
      && (forall f :: f in listed <==> f in Visible(facts, Settlements(instrument, start, end, known)))
      && (forall i :: 0 <= i < |listed| ==> start <= listed[i].at < end)
  {
    var w := Settlements(instrument, start, end, known);
    var listed := ListingOf(Visible(facts, w));
    ListingMeaning(facts, w);
    hide ListingOf;
    forall f ensures f in listed <==> f in Visible(facts, w) {
      assert f in multiset(listed) <==> f in multiset(Visible(facts, w));
    }
    forall i | 0 <= i < |listed| ensures listed[i] in Visible(facts, w) {
      assert listed[i] in listed;
    }
    assert forall i, j :: 0 <= i < j < |listed| ==> Order()(listed[i], listed[j]);
  }

  function TimesOf(facts: seq<Fact>): seq<int> { seq(|facts|, i requires 0 <= i < |facts| => facts[i].at) }

  ghost predicate SettledWithin(visible: set<Fact>, x: int, y: int) { exists f :: f in visible && x < f.at < y }

  /** Settlement's funding check, on what the store shows: it passes exactly when no stretch longer than the gap lacks a visible settlement. */
  lemma {:induction false} FundingCheckMeaning(facts: Facts, instrument: int, start: int, end: int, known: int, gap: nat)
    requires start < end <= known
    ensures
      var visible := Visible(facts, Settlements(instrument, start, end, known));
      OutcomeBuckets.FundingIsComplete(start, end, TimesOf(ListingOf(visible)), gap) <==>
        forall x, y :: start <= x < y <= end && y - x > gap ==> SettledWithin(visible, x, y)
  {
    var visible := Visible(facts, Settlements(instrument, start, end, known));
    var listed := ListingOf(visible);
    var times := TimesOf(listed);
    FundingIsChronological(facts, instrument, start, end, known);
    hide Visible, ListingOf;
    OutcomeBuckets.FundingIsCompleteExactlyWhen(start, end, times, gap);
    forall x, y ensures OutcomeBuckets.Settles(times, x, y) <==> SettledWithin(visible, x, y) {
      if OutcomeBuckets.Settles(times, x, y) {
        var t :| t in times && x < t < y;
        var i :| 0 <= i < |times| && times[i] == t;
        assert listed[i] in visible;
      }
      if SettledWithin(visible, x, y) {
        var f :| f in visible && x < f.at < y;
        var i :| 0 <= i < |listed| && listed[i] == f;
        assert times[i] in times;
      }
    }
  }
}
