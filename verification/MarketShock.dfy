/**
 The market-shock detector (src/investment_manager/market/runtime.py, `MarketShockDetector`): a bucketed sliding
 window that summarizes the whole trade history, and an episode gate that limits how often a scope is woken.
 Times are in microseconds.
 */
module MarketShock {
  import opened Results
  import opened Sums

  const MICROS := 1_000_000

  /** `int(timestamp)` truncates toward zero. */
  function SecondOf(at: int): int { if at >= 0 then at / MICROS else -((-at) / MICROS) }

  type Price = x: real | x > 0.0 witness 1.0

  /** The relative distance of a price from a reference. */
  function Move(price: Price, reference: Price): real
  {
    AbsR(price / reference - 1.0)
  }

  // ----- The window

  datatype Sample = Sample(second: int, price: Price)

  datatype Bucket = Bucket(second: int, low: Price, high: Price)

  function MinLow(seconds: seq<Bucket>): (r: Price)
    requires seconds != []
    ensures forall b :: b in seconds ==> r <= b.low
    ensures exists b :: b in seconds && b.low == r
  {
    var n := |seconds| - 1;
    if n == 0 then
      assert seconds[0] in seconds;
      seconds[0].low
    else
      assert seconds == seconds[..n] + [seconds[n]];
      MinR(MinLow(seconds[..n]), seconds[n].low)
  }

  function MaxHigh(seconds: seq<Bucket>): (r: Price)
    requires seconds != []
    ensures forall b :: b in seconds ==> b.high <= r
    ensures exists b :: b in seconds && b.high == r
  {
    var n := |seconds| - 1;
    if n == 0 then
      assert seconds[0] in seconds;
      seconds[0].high
    else
      assert seconds == seconds[..n] + [seconds[n]];
      MaxR(MaxHigh(seconds[..n]), seconds[n].high)
  }

  ghost predicate Ordered(history: seq<Sample>)
  {
    forall i, j :: 0 <= i < j < |history| ==> history[i].second <= history[j].second
  }

  ghost predicate StrictlyIncreasing(seconds: seq<Bucket>)
  {
    forall i, j :: 0 <= i < j < |seconds| ==> seconds[i].second < seconds[j].second
  }

  ghost predicate Covered(seconds: seq<Bucket>, s: Sample)
  {
    exists b :: b in seconds && b.second == s.second && b.low <= s.price <= b.high
  }

  /** The extremes of a bucket are prices that were really seen in that second. */
  ghost predicate Witnessed(history: seq<Sample>, b: Bucket)
  {
    Sample(b.second, b.low) in history && Sample(b.second, b.high) in history && b.low <= b.high
  }

  ghost predicate Shaped(seconds: seq<Bucket>, history: seq<Sample>)
  {
    && history != [] && seconds != [] && Ordered(history) && StrictlyIncreasing(seconds)
    && seconds[|seconds| - 1].second == history[|history| - 1].second
  }

  ghost predicate Covers(seconds: seq<Bucket>, history: seq<Sample>, cutoff: int)
  {
    forall s :: s in history && s.second >= cutoff ==> Covered(seconds, s)
  }

  ghost predicate AllWitnessed(seconds: seq<Bucket>, history: seq<Sample>)
  {
    forall b :: b in seconds ==> Witnessed(history, b)
  }

  /** The buckets are an exact summary of the samples of the last `w` seconds. */
  ghost predicate Summarizes(seconds: seq<Bucket>, history: seq<Sample>, w: int)
  {
    && Shaped(seconds, history) && AllWitnessed(seconds, history)
    && seconds[0].second >= history[|history| - 1].second - w
    && Covers(seconds, history, history[|history| - 1].second - w)
  }

  lemma {:induction false} IncreasingSpan(seconds: seq<Bucket>)
    requires seconds != [] && StrictlyIncreasing(seconds)
    ensures seconds[|seconds| - 1].second - seconds[0].second >= |seconds| - 1
  {
    var n := |seconds| - 1;
    if n > 0 {
      IncreasingSpan(seconds[..n]);
      assert seconds[n - 1].second < seconds[n].second;
    }
  }

  /** However many trades arrive, the window never holds more than w + 1 buckets. */
  lemma {:induction false} WindowIsBounded(seconds: seq<Bucket>, history: seq<Sample>, w: int)
    requires Summarizes(seconds, history, w)
    ensures |seconds| <= w + 1
  {
    IncreasingSpan(seconds);
  }

  /** The largest move from any sample of the window, the newest included. */
  ghost predicate IsLargestMove(history: seq<Sample>, cutoff: int, price: Price, move: real)
  {
    && (forall s :: s in history && s.second >= cutoff ==> Move(price, s.price) <= move)
    && (exists s :: s in history && s.second >= cutoff && Move(price, s.price) == move)
  }

  /** Between two references the move never exceeds the larger of the moves at the ends. */
  lemma MoveIsLargestAtAnEnd(price: Price, low: Price, q: Price, high: Price)
    requires low <= q <= high
    ensures Move(price, q) <= MaxR(Move(price, low), Move(price, high))
  {
    QuotientFalls(price, low, q);
    QuotientFalls(price, q, high);
  }

  lemma BucketsAreRecent(seconds: seq<Bucket>, cutoff: int, b: Bucket)
    requires StrictlyIncreasing(seconds) && b in seconds && seconds[0].second >= cutoff
    ensures b.second >= cutoff
  {
    var i :| 0 <= i < |seconds| && seconds[i] == b;
    assert i == 0 || seconds[0].second < seconds[i].second;
  }

  lemma ExtremesAreSeen(seconds: seq<Bucket>, history: seq<Sample>, cutoff: int)
    requires seconds != [] && StrictlyIncreasing(seconds) && AllWitnessed(seconds, history)
    requires seconds[0].second >= cutoff
    ensures exists s :: s in history && s.second >= cutoff && s.price == MinLow(seconds)
    ensures exists s :: s in history && s.second >= cutoff && s.price == MaxHigh(seconds)
  {
    var bl :| bl in seconds && bl.low == MinLow(seconds);
    var bh :| bh in seconds && bh.high == MaxHigh(seconds);
    BucketsAreRecent(seconds, cutoff, bl);
    BucketsAreRecent(seconds, cutoff, bh);
    assert Witnessed(history, bl) && Witnessed(history, bh);
    assert Sample(bl.second, bl.low) in history && Sample(bh.second, bh.high) in history;
  }

  lemma SamplesAreWithinExtremes(seconds: seq<Bucket>, s: Sample)
    requires seconds != [] && Covered(seconds, s)
    ensures MinLow(seconds) <= s.price <= MaxHigh(seconds)
  {
  }

  lemma {:induction false} ExtremesGiveLargestMove(seconds: seq<Bucket>, history: seq<Sample>, w: int, price: Price)
    requires Summarizes(seconds, history, w)
    ensures IsLargestMove(history, history[|history| - 1].second - w, price,
                          MaxR(Move(price, MinLow(seconds)), Move(price, MaxHigh(seconds))))
  {
    hide AllWitnessed, MinLow, MaxHigh, StrictlyIncreasing, Covered;
    var low, high, cutoff := MinLow(seconds), MaxHigh(seconds), history[|history| - 1].second - w;
    ExtremesAreSeen(seconds, history, cutoff);
    var x :| x in history && x.second >= cutoff && x.price == low;
    var y :| y in history && y.second >= cutoff && y.price == high;
    hide Move;
    forall s | s in history && s.second >= cutoff
      ensures Move(price, s.price) <= MaxR(Move(price, low), Move(price, high))
    {
      SamplesAreWithinExtremes(seconds, s);
      MoveIsLargestAtAnEnd(price, low, s.price, high);
    }
    assert Move(price, x.price) == Move(price, low) && Move(price, y.price) == Move(price, high);
  }

  lemma OrderedPush(history: seq<Sample>, s: Sample)
    requires history != [] && Ordered(history) && s.second >= history[|history| - 1].second
    ensures Ordered(history + [s])
  {
    var longer := history + [s];
    forall i, j | 0 <= i < j < |longer| ensures longer[i].second <= longer[j].second {
      if j == |history| { assert i == j - 1 || history[i].second <= history[j - 1].second; }
    }
  }

  lemma IncreasingPush(seconds: seq<Bucket>, b: Bucket)
    requires StrictlyIncreasing(seconds) && (seconds != [] ==> seconds[|seconds| - 1].second < b.second)
    ensures StrictlyIncreasing(seconds + [b])
  {
    var n := |seconds|;
    forall i | 0 <= i < n ensures seconds[i].second < b.second {
      assert i == n - 1 || seconds[i].second < seconds[n - 1].second;
    }
  }

  lemma CoversPush(seconds: seq<Bucket>, history: seq<Sample>, cutoff: int, b: Bucket, s: Sample)
    requires Covers(seconds, history, cutoff) && b.second == s.second && b.low <= s.price <= b.high
    ensures Covers(seconds + [b], history + [s], cutoff)
  {
    forall x | x in history + [s] && x.second >= cutoff ensures Covered(seconds + [b], x) {
      if x == s {
        assert b in seconds + [b];
      } else {
        var c :| c in seconds && c.second == x.second && c.low <= x.price <= c.high;
        assert c in seconds + [b];
      }
    }
  }

  lemma WitnessedPush(history: seq<Sample>, s: Sample, b: Bucket)
    requires Witnessed(history, b)
    ensures Witnessed(history + [s], b)
  {
  }

  /** A sample of a later second opens a bucket of its own. */
  lemma NextSecond(seconds: seq<Bucket>, history: seq<Sample>, w: int, second: int, price: Price)
    requires Summarizes(seconds, history, w) && w >= 0 && second > history[|history| - 1].second
    ensures
      var grown, longer := seconds + [Bucket(second, price, price)], history + [Sample(second, price)];
      Shaped(grown, longer) && AllWitnessed(grown, longer) && Covers(grown, longer, second - w)
  {
    var b, s := Bucket(second, price, price), Sample(second, price);
    OrderedPush(history, s);
    IncreasingPush(seconds, b);
    CoversPush(seconds, history, second - w, b, s);
    forall c | c in seconds + [b] ensures Witnessed(history + [s], c) {
      if c in seconds { WitnessedPush(history, s, c); } else { assert s in history + [s]; }
    }
  }

  lemma RestIncreases(seconds: seq<Bucket>)
    requires seconds != [] && StrictlyIncreasing(seconds)
    ensures StrictlyIncreasing(seconds[1..])
  {
    forall i, j | 0 <= i < j < |seconds| - 1 ensures seconds[1..][i].second < seconds[1..][j].second {
      assert seconds[i + 1].second < seconds[j + 1].second;
    }
  }

  lemma CoversRest(seconds: seq<Bucket>, history: seq<Sample>, cutoff: int)
    requires seconds != [] && Covers(seconds, history, cutoff) && seconds[0].second < cutoff
    ensures Covers(seconds[1..], history, cutoff)
  {
    assert seconds == [seconds[0]] + seconds[1..];
    forall s | s in history && s.second >= cutoff ensures Covered(seconds[1..], s) {
      assert Covered(seconds, s);
      var c :| c in seconds && c.second == s.second && c.low <= s.price <= c.high;
      assert c in seconds[1..];
    }
  }

  /** A bucket that has fallen out of the window can go. */
  lemma DropFirst(seconds: seq<Bucket>, history: seq<Sample>, cutoff: int)
    requires Shaped(seconds, history) && AllWitnessed(seconds, history) && Covers(seconds, history, cutoff)
    requires seconds[0].second < cutoff <= history[|history| - 1].second
    ensures Shaped(seconds[1..], history) && AllWitnessed(seconds[1..], history) && Covers(seconds[1..], history, cutoff)
  {
    hide Ordered, StrictlyIncreasing, Witnessed, Covers;
    RestIncreases(seconds);
    CoversRest(seconds, history, cutoff);
  }

  function Widen(seconds: seq<Bucket>, price: Price): seq<Bucket>
    requires seconds != []
  {
    var n, last := |seconds| - 1, seconds[|seconds| - 1];
    seconds[..n] + [Bucket(last.second, MinR(last.low, price), MaxR(last.high, price))]
  }

  lemma WideningCovers(seconds: seq<Bucket>, price: Price, x: Sample)
    requires seconds != [] && (Covered(seconds, x) || x == Sample(seconds[|seconds| - 1].second, price))
    requires forall b :: b in seconds ==> b.low <= b.high
    ensures Covered(Widen(seconds, price), x)
  {
    var n, last := |seconds| - 1, seconds[|seconds| - 1];
    var wide := Bucket(last.second, MinR(last.low, price), MaxR(last.high, price));
    assert wide in Widen(seconds, price);
    assert seconds == seconds[..n] + [last];
    if x != Sample(last.second, price) {
      var c :| c in seconds && c.second == x.second && c.low <= x.price <= c.high;
      if c in seconds[..n] { assert c in Widen(seconds, price); }
    }
  }

  lemma WideningExtremes(seconds: seq<Bucket>, price: Price)
    requires seconds != []
    ensures MinLow(Widen(seconds, price)) == MinR(MinLow(seconds), price)
    ensures MaxHigh(Widen(seconds, price)) == MaxR(MaxHigh(seconds), price)
  {
    var n := |seconds| - 1;
    assert Widen(seconds, price)[..n] == seconds[..n];
  }

  lemma WideningIsWitnessed(seconds: seq<Bucket>, history: seq<Sample>, price: Price)
    requires seconds != [] && AllWitnessed(seconds, history)
    ensures AllWitnessed(Widen(seconds, price), history + [Sample(seconds[|seconds| - 1].second, price)])
  {
    var n, last := |seconds| - 1, seconds[|seconds| - 1];
    var s := Sample(last.second, price);
    assert Witnessed(history, last);
    forall b | b in Widen(seconds, price) ensures Witnessed(history + [s], b) {
      if b in seconds[..n] { WitnessedPush(history, s, b); } else { assert s in history + [s]; }
    }
  }

  lemma WideningKeepsShape(seconds: seq<Bucket>, history: seq<Sample>, price: Price)
    requires Shaped(seconds, history)
    ensures Shaped(Widen(seconds, price), history + [Sample(seconds[|seconds| - 1].second, price)])
    ensures Widen(seconds, price)[0].second == seconds[0].second
  {
    var n, last := |seconds| - 1, seconds[|seconds| - 1];
    OrderedPush(history, Sample(last.second, price));
    IncreasingPush(seconds[..n], Bucket(last.second, MinR(last.low, price), MaxR(last.high, price)));
  }

  lemma WideningKeepsCover(seconds: seq<Bucket>, history: seq<Sample>, cutoff: int, price: Price)
    requires seconds != [] && Covers(seconds, history, cutoff) && (forall b :: b in seconds ==> b.low <= b.high)
    ensures Covers(Widen(seconds, price), history + [Sample(seconds[|seconds| - 1].second, price)], cutoff)
  {
    var s := Sample(seconds[|seconds| - 1].second, price);
    hide Widen, Covered;
    forall x | x in history + [s] && x.second >= cutoff ensures Covered(Widen(seconds, price), x) {
      assert x == s || Covered(seconds, x);
      WideningCovers(seconds, price, x);
    }
  }

  /** A further sample of the current second only widens the last bucket. */
  lemma {:induction false} SameSecond(seconds: seq<Bucket>, history: seq<Sample>, w: int, price: Price)
    requires Summarizes(seconds, history, w)
    ensures Summarizes(Widen(seconds, price), history + [Sample(seconds[|seconds| - 1].second, price)], w)
  {
    hide Covers, Widen;
    WideningKeepsShape(seconds, history, price);
    WideningIsWitnessed(seconds, history, price);
    assert forall b :: b in seconds ==> Witnessed(history, b);
    WideningKeepsCover(seconds, history, history[|history| - 1].second - w, price);
  }

  predicate IsLate(history: seq<Sample>, s: Sample) { history != [] && s.second < history[|history| - 1].second }

  function Accepted(history: seq<Sample>, s: Sample): seq<Sample>
  {
    if IsLate(history, s) then history else history + [s]
  }

  ghost function LargestMove(history: seq<Sample>, cutoff: int, price: Price): real
  {
    if history == [] then 0.0 else
      var s, before := history[|history| - 1], LargestMove(history[..|history| - 1], cutoff, price);
      if s.second >= cutoff then MaxR(before, Move(price, s.price)) else before
  }

  /** The largest move a new sample makes against the samples still in its window; late samples are not weighed. */
  ghost function Weighed(history: seq<Sample>, s: Sample, w: int): Option<real>
  {
    if IsLate(history, s) then None else Some(LargestMove(history + [s], s.second - w, s.price))
  }

  lemma {:induction false} LargestMoveBounds(history: seq<Sample>, cutoff: int, price: Price)
    ensures
      var r := LargestMove(history, cutoff, price);
      && (forall s :: s in history && s.second >= cutoff ==> Move(price, s.price) <= r)
      && (r == 0.0 || exists s :: s in history && s.second >= cutoff && Move(price, s.price) == r)
  {
    hide Move;
    if history != [] {
      var n := |history| - 1;
      LargestMoveBounds(history[..n], cutoff, price);
      assert history == history[..n] + [history[n]];
    }
  }

  lemma LargestMoveIsUnique(history: seq<Sample>, cutoff: int, price: Price, move: real)
    requires IsLargestMove(history, cutoff, price, move)
    ensures move == LargestMove(history, cutoff, price)
  {
    LargestMoveBounds(history, cutoff, price);
  }

  lemma SameMove(before: seq<Sample>, s: Sample, w: int, move: Option<real>)
    requires move.None? <==> IsLate(before, s)
    requires move.Some? ==> IsLargestMove(Accepted(before, s), s.second - w, s.price, move.value)
    ensures move == Weighed(before, s, w)
  {
    if move.Some? { LargestMoveIsUnique(Accepted(before, s), s.second - w, s.price, move.value); }
  }

  /** The window of one symbol, kept in place. `history` is what it summarizes: every sample accepted since creation. */
  class ShockWindow {
    var seconds: seq<Bucket>
    var low: Price
    var high: Price
    const triggeredAt: Option<int>
    ghost var history: seq<Sample>

    ghost predicate Valid(w: int)
      reads this
    {
      history != [] && Summarizes(seconds, history, w) && low == MinLow(seconds) && high == MaxHigh(seconds)
    }

    constructor (at: int, price: Price, triggeredAt: Option<int>, ghost w: int)
      requires w >= 0
      ensures Valid(w) && history == [Sample(SecondOf(at), price)] && this.triggeredAt == triggeredAt
    {
      var bucket := Bucket(SecondOf(at), price, price);
      this.seconds := [bucket];
      this.low := price;
      this.high := price;
      this.triggeredAt := triggeredAt;
      this.history := [Sample(SecondOf(at), price)];
      new;
      assert bucket in seconds && Sample(SecondOf(at), price) in history;
    }

    /** A trade of an earlier second is refused; any other is weighed against every sample still in the window. */
    method Observe(at: int, price: Price, w: int) returns (move: Option<real>)
      requires Valid(w) && w >= 1
      modifies this
      ensures Valid(w) && |seconds| <= w + 1
      ensures history == Accepted(old(history), Sample(SecondOf(at), price))
      ensures move == Weighed(old(history), Sample(SecondOf(at), price), w)
      ensures move.None? ==> seconds == old(seconds)
    {
      hide Covers, AllWitnessed, Ordered, StrictlyIncreasing, IsLargestMove, Widen, MinLow, MaxHigh, SecondOf, Move;
      var second := SecondOf(at);
      var n := |seconds| - 1;
      WindowIsBounded(seconds, history, w);
      if second < seconds[n].second {
        return None;
      }
      if second > seconds[n].second {
        NextSecond(seconds, history, w, second, price);
        seconds := seconds + [Bucket(second, price, price)];
        history := history + [Sample(second, price)];
        while seconds[0].second < second - w
          invariant Shaped(seconds, history) && AllWitnessed(seconds, history) && Covers(seconds, history, second - w)
          invariant history == old(history) + [Sample(second, price)]
          decreases |seconds|
        {
          DropFirst(seconds, history, second - w);
          seconds := seconds[1..];
        }
        low := MinLow(seconds);
        high := MaxHigh(seconds);
      } else {
        SameSecond(seconds, history, w, price);
        WideningExtremes(seconds, price);
        seconds := Widen(seconds, price);
        history := history + [Sample(second, price)];
        low := MinR(low, price);
        high := MaxR(high, price);
      }
      WindowIsBounded(seconds, history, w);
      ExtremesGiveLargestMove(seconds, history, w, price);
      move := Some(MaxR(Move(price, low), Move(price, high)));
      SameMove(old(history), Sample(second, price), w, move);
    }
  }

  // ----- The episode gate

  datatype Attempt = Attempt(at: int, urgent: bool)

  datatype Episode = Episode(startedAt: int, urgentPublished: bool)

  type Group = g: seq<Attempt> | g != [] witness [Attempt(0, false)]

  ghost predicate HasUrgent(group: Group) { exists a :: a in group && a.urgent }

  /** The admitted attempts of a scope, one group per episode, read off the whole log. */
  ghost function Groups(log: seq<Attempt>, span: int): (groups: seq<Group>)
    ensures log != [] ==> groups != []
  {
    if log == [] then [] else
      var n := |log| - 1;
      var a, before := log[n], Groups(log[..n], span);
      var m := |before| - 1;
      if before == [] || a.at - before[m][0].at >= span then before + [[a]]
      else if a.urgent && !HasUrgent(before[m]) then before[..m] + [before[m] + [a]]
      else before
  }

  ghost predicate Admitted(log: seq<Attempt>, span: int)
    requires log != []
  {
    Groups(log, span) != Groups(log[..|log| - 1], span)
  }

  /** What the detector remembers of a scope is its last group. */
  ghost predicate Remembers(episode: Option<Episode>, groups: seq<Group>)
  {
    match episode
    case None => groups == []
    case Some(e) =>
      groups != [] && var last := groups[|groups| - 1]; e.startedAt == last[0].at && (e.urgentPublished <==> HasUrgent(last))
  }

  /** One event, or a calm one followed by one urgent event less than a span later. */
  ghost predicate FairGroup(g: Group, span: int)
  {
    || |g| == 1
    || (|g| == 2 && !g[0].urgent && g[1].urgent && g[1].at - g[0].at < span)
  }

  ghost predicate Within(log: seq<Attempt>, low: int, high: int)
  {
    forall a :: a in log ==> low <= a.at <= high
  }

  ghost predicate GroupsAreFair(groups: seq<Group>, span: int)
  {
    && (forall i :: 0 <= i < |groups| ==> FairGroup(groups[i], span))
    && (forall i :: 0 <= i < |groups| - 1 ==> groups[i + 1][0].at - groups[i][0].at >= span)
  }

  ghost function Total(groups: seq<Group>): nat
  {
    if groups == [] then 0 else Total(groups[..|groups| - 1]) + |groups[|groups| - 1]|
  }

  lemma {:induction false} EpisodesAreApart(log: seq<Attempt>, span: int)
    requires span > 0
    ensures GroupsAreFair(Groups(log, span), span)
  {
    if log != [] {
      var n := |log| - 1;
      EpisodesAreApart(log[..n], span);
      var before := Groups(log[..n], span);
      assert before != [] ==> FairGroup(before[|before| - 1], span);
      if before != [] && log[n].urgent && !HasUrgent(before[|before| - 1]) {
        var last := before[|before| - 1];
        assert forall i :: 0 <= i < |last| ==> last[i] in last;
      }
    }
  }

  lemma {:induction false} GroupsComeFromTheLog(log: seq<Attempt>, span: int)
    ensures forall g, a :: g in Groups(log, span) && a in g ==> a in log
  {
    if log != [] {
      var n := |log| - 1;
      GroupsComeFromTheLog(log[..n], span);
      assert log == log[..n] + [log[n]];
    }
  }

  lemma {:induction false} StartsSpread(groups: seq<Group>, span: int)
    requires groups != [] && GroupsAreFair(groups, span)
    ensures groups[|groups| - 1][0].at - groups[0][0].at >= (|groups| - 1) * span
    ensures Total(groups) <= 2 * |groups|
  {
    var n := |groups| - 1;
    assert FairGroup(groups[n], span);
    if n > 0 {
      StartsSpread(groups[..n], span);
      assert groups[n][0].at - groups[n - 1][0].at >= span;
      assert n * span == (n - 1) * span + span;
    }
  }

  /** Whatever the order of arrival, a run that spans T admits at most 2 * (T / span + 1) attempts. */
  lemma {:induction false} RateIsBounded(log: seq<Attempt>, span: int, low: int, high: int)
    requires span > 0 && low <= high && Within(log, low, high)
    ensures Total(Groups(log, span)) <= 2 * ((high - low) / span + 1)
  {
    var groups := Groups(log, span);
    if log != [] {
      EpisodesAreApart(log, span);
      GroupsComeFromTheLog(log, span);
      StartsSpread(groups, span);
      var m := |groups| - 1;
      assert FairGroup(groups[0], span) && FairGroup(groups[m], span);
      assert groups[0][0] in groups[0] && groups[m][0] in groups[m] && groups[0] in groups && groups[m] in groups;
      assert m * span <= high - low;
      QuotientBound(m, span, high - low);
    }
  }

  lemma TimesGrows(a: int, b: int, span: int)
    requires a <= b && span > 0
    ensures a * span <= b * span
  {
  }

  lemma QuotientBound(m: int, span: int, width: int)
    requires span > 0 && m * span <= width
    ensures m <= width / span
  {
    if m > width / span {
      TimesGrows(width / span + 1, m, span);
    }
  }

  // ----- The detector, over the full history

  datatype Event =
    | Book(symbol: int, observedAt: int) // a quote or a reference price
    | Bar(symbol: int, observedAt: int, openTime: int, closeTime: int, open: Price, high: Price, low: Price, close: Price)
    | Trade(symbol: int, observedAt: int, eventTime: int, price: Price)

  datatype Settings = Settings(threshold: Price, window: int, expiry: int, owner: Option<int>, symbols: Option<set<int>>)

  type Policy = s: Settings | s.window >= 1 witness Settings(1.0, 1, 1, None, None)

  datatype Trigger = Trigger(symbol: int, cause: Event, occurredAt: int, priority: int, expiresAt: int)

  datatype Track = Track(history: seq<Sample>, triggeredAt: Option<int>)

  datatype State = State(tracks: map<int, Track>, attempts: map<int, seq<Attempt>>, offered: seq<Trigger>)

  const Fresh := State(map[], map[], [])

  function Span(p: Policy): int { p.window * MICROS }

  function ScopeOf(p: Policy, e: Event): int { if p.owner.Some? then p.owner.value else e.symbol }

  function OccurredAt(e: Event): int {
    match e
    case Bar(_, observed, _, close, _, _, _, _) => if close < observed then close else observed
    case Trade(_, observed, at, _) => if at < observed then at else observed
    case Book(_, observed) => observed
  }

  function ReferenceOf(e: Event): Price
    requires !e.Book?
  {
    if e.Bar? then e.close else e.price
  }

  /** A bar restarts its window when it is observed, a trade when it occurred. */
  function ResetAt(e: Event): int { if e.Bar? then e.observedAt else OccurredAt(e) }

  function Watched(p: Policy, e: Event): bool { !e.Book? && (p.symbols.Some? ==> e.symbol in p.symbols.value) }

  function TradeSample(e: Event): Sample
    requires e.Trade?
  {
    Sample(SecondOf(OccurredAt(e)), e.price)
  }

  function BarMove(e: Event): real
    requires e.Bar?
  {
    MaxR(Move(e.high, e.open), Move(e.low, e.open))
  }

  function AlreadyTriggered(e: Event, triggeredAt: Option<int>): bool
    requires e.Bar?
  {
    triggeredAt.Some? && e.openTime <= triggeredAt.value <= e.closeTime
  }

  function PriorityOf(p: Policy, move: real): int
    requires move >= p.threshold
  {
    var scaled := (move / p.threshold * 80.0).Floor;
    var least := if scaled > 1 then scaled else 1;
    if least < 100 then least else 100
  }

  /** The move the detector weighs, told over the whole history since the window last restarted. */
  ghost function MoveOf(tracks: map<int, Track>, p: Policy, e: Event): Option<real>
    requires Watched(p, e)
  {
    if e.Bar? then
      if e.symbol in tracks && AlreadyTriggered(e, tracks[e.symbol].triggeredAt) then None else Some(BarMove(e))
    else if e.symbol !in tracks then None
    else
      var h, s := tracks[e.symbol].history, TradeSample(e);
      Weighed(h, s, p.window)
  }

  ghost function Tracked(tracks: map<int, Track>, e: Event): map<int, Track> {
    if !e.Trade? then tracks
    else if e.symbol !in tracks then tracks[e.symbol := Track([TradeSample(e)], None)]
    else tracks[e.symbol := tracks[e.symbol].(history := Accepted(tracks[e.symbol].history, TradeSample(e)))]
  }

  ghost predicate Crosses(tracks: map<int, Track>, p: Policy, e: Event)
  {
    Watched(p, e) && MoveOf(tracks, p, e).Some? && MoveOf(tracks, p, e).value >= p.threshold
  }

  function LogOf(attempts: map<int, seq<Attempt>>, scope: int): seq<Attempt> {
    if scope in attempts then attempts[scope] else []
  }

  ghost function LogAfter(s: State, p: Policy, e: Event): seq<Attempt>
    requires Crosses(s.tracks, p, e)
  {
    LogOf(s.attempts, ScopeOf(p, e)) + [Attempt(e.observedAt, PriorityOf(p, MoveOf(s.tracks, p, e).value) == 100)]
  }

  function TriggerFor(p: Policy, e: Event, move: real): Trigger
    requires move >= p.threshold
  {
    Trigger(ScopeOf(p, e), e, OccurredAt(e), PriorityOf(p, move), e.observedAt + p.expiry * MICROS)
  }

  ghost function Step(s: State, p: Policy, e: Event): State
  {
    if !Watched(p, e) then s
    else if !Crosses(s.tracks, p, e) then s.(tracks := Tracked(s.tracks, e))
    else
      var log := LogAfter(s, p, e);
      State(s.tracks[e.symbol := Track([Sample(SecondOf(ResetAt(e)), ReferenceOf(e))], Some(OccurredAt(e)))],
            s.attempts[ScopeOf(p, e) := log],
            if Admitted(log, Span(p)) then s.offered + [TriggerFor(p, e, MoveOf(s.tracks, p, e).value)] else s.offered)
  }

  ghost function Run(p: Policy, events: seq<Event>): State
  {
    if events == [] then Fresh else Step(Run(p, events[..|events| - 1]), p, events[|events| - 1])
  }

  lemma TrackedElsewhere(tracks: map<int, Track>, e: Event, track: Track)
    ensures Tracked(tracks, e)[e.symbol := track] == tracks[e.symbol := track]
  {
  }

  /** Bars leave the histories alone, and a first trade only opens one. */
  lemma UnseenMoves(tracks: map<int, Track>, p: Policy, e: Event)
    requires Watched(p, e)
    ensures e.Bar? ==> Tracked(tracks, e) == tracks
    ensures e.Bar? ==>
      MoveOf(tracks, p, e) ==
        if e.symbol in tracks && AlreadyTriggered(e, tracks[e.symbol].triggeredAt) then None else Some(BarMove(e))
    ensures e.Trade? && e.symbol !in tracks ==>
      MoveOf(tracks, p, e) == None && Tracked(tracks, e) == tracks[e.symbol := Track([TradeSample(e)], None)]
  {
  }

  lemma TradeMove(tracks: map<int, Track>, p: Policy, e: Event)
    requires Watched(p, e) && e.Trade? && e.symbol in tracks
    ensures
      var s, track := Sample(SecondOf(OccurredAt(e)), e.price), tracks[e.symbol];
      Tracked(tracks, e) == tracks[e.symbol := track.(history := Accepted(track.history, s))]
      && MoveOf(tracks, p, e) == Weighed(track.history, s, p.window)
  {
  }

  /**
   The in-place detector. Windows and episodes are what it really stores; `tracks` and `attempts` are the histories they
   stand for, and `offered` is what the trigger sink was given.
   */
  class MarketShockDetector {
    const policy: Policy
    var windows: map<int, ShockWindow>
    var episodes: map<int, Episode>
    ghost var owned: set<ShockWindow>
    ghost var tracks: map<int, Track>
    ghost var attempts: map<int, seq<Attempt>>
    ghost var offered: seq<Trigger>

    ghost predicate WindowsAreValid()
      reads this`windows, this`tracks, this`owned, owned
    {
      && windows.Keys == tracks.Keys
      && (forall s :: s in windows ==> windows[s] in owned && windows[s].Valid(policy.window))
      && (forall s :: s in windows ==> tracks[s] == Track(windows[s].history, windows[s].triggeredAt))
      && (forall s, t :: s in windows && t in windows && s != t ==> windows[s] != windows[t])
    }

    ghost predicate EpisodesAreRemembered()
      reads this`episodes, this`attempts
    {
      && episodes.Keys == attempts.Keys
      && forall s :: s in episodes ==> Remembers(Some(episodes[s]), Groups(attempts[s], Span(policy)))
    }

    ghost predicate Valid()
      reads this, owned
    {
      WindowsAreValid() && EpisodesAreRemembered()
    }

    ghost function View(): State
      reads this
    {
      State(tracks, attempts, offered)
    }

    constructor (policy: Policy)
      ensures Valid() && this.policy == policy && View() == Fresh && owned == {}
    {
      this.policy := policy;
      windows, episodes := map[], map[];
      owned, tracks, attempts, offered := {}, map[], map[], [];
    }

    method AdmitEpisode(scope: int, observedAt: int, priority: int) returns (admitted: bool)
      requires EpisodesAreRemembered()
      modifies this`episodes, this`attempts
      ensures EpisodesAreRemembered()
      ensures attempts == old(attempts)[scope := LogOf(old(attempts), scope) + [Attempt(observedAt, priority == 100)]]
      ensures admitted <==> Admitted(attempts[scope], Span(policy))
    {
      ghost var log := LogOf(attempts, scope);
      ghost var a := Attempt(observedAt, priority == 100);
      GroupsGrow(log, a, Span(policy));
      attempts := attempts[scope := log + [a]];
      if scope !in episodes || observedAt - episodes[scope].startedAt >= Span(policy) {
        episodes := episodes[scope := Episode(observedAt, priority == 100)];
        admitted := true;
      } else if priority == 100 && !episodes[scope].urgentPublished {
        episodes := episodes[scope := episodes[scope].(urgentPublished := true)];
        admitted := true;
      } else {
        admitted := false;
      }
    }

    lemma WindowsMirror(symbol: int)
      requires WindowsAreValid()
      ensures symbol in windows <==> symbol in tracks
      ensures symbol in windows ==> windows[symbol] in owned && windows[symbol].triggeredAt == tracks[symbol].triggeredAt
    {
      hide ShockWindow.Valid;
    }

    method WeighTrade(symbol: int, at: int, price: Price) returns (move: Option<real>)
      requires WindowsAreValid() && symbol in windows
      modifies windows[symbol], this`tracks
      ensures
        var s, track := Sample(SecondOf(at), price), old(tracks)[symbol];
        && WindowsAreValid()
        && tracks == old(tracks)[symbol := track.(history := Accepted(track.history, s))]
        && move == Weighed(track.history, s, policy.window)
    {
      hide ShockWindow.Valid, Weighed;
      var window := windows[symbol];
      move := window.Observe(at, price, policy.window);
      tracks := tracks[symbol := tracks[symbol].(history := window.history)];
    }

    method Weigh(e: Event) returns (move: Option<real>)
      requires WindowsAreValid() && Watched(policy, e)
      modifies this`windows, this`tracks, this`owned, owned
      ensures WindowsAreValid() && fresh(owned - old(owned))
      ensures tracks == Tracked(old(tracks), e) && move == MoveOf(old(tracks), policy, e)
    {
      hide WindowsAreValid, MoveOf, Tracked, BarMove, AlreadyTriggered, Weighed;
      UnseenMoves(tracks, policy, e);
      WindowsMirror(e.symbol);
      if e.Bar? {
        return if e.symbol in windows && AlreadyTriggered(e, windows[e.symbol].triggeredAt) then None else Some(BarMove(e));
      }
      if e.symbol !in windows {
        Restart(e.symbol, OccurredAt(e), e.price, None);
        return None;
      }
      TradeMove(tracks, policy, e);
      move := WeighTrade(e.symbol, OccurredAt(e), e.price);
    }

    method Restart(symbol: int, at: int, price: Price, triggeredAt: Option<int>)
      requires WindowsAreValid()
      modifies this`windows, this`tracks, this`owned
      ensures WindowsAreValid() && fresh(owned - old(owned))
      ensures tracks == old(tracks)[symbol := Track([Sample(SecondOf(at), price)], triggeredAt)]
    {
      hide ShockWindow.Valid;
      var window := new ShockWindow(at, price, triggeredAt, policy.window);
      windows := windows[symbol := window];
      owned := owned + {window};
      tracks := tracks[symbol := Track(window.history, triggeredAt)];
    }

    /** One market event. The in-place windows and episodes answer exactly as the full history would. */
    method Observe(e: Event, sinkInserts: bool) returns (inserted: bool)
      requires Valid()
      modifies this, owned
      ensures Valid() && View() == Step(old(View()), policy, e)
      ensures fresh(owned - old(owned))
      ensures inserted <==> sinkInserts && |offered| > |old(offered)|
    {
      hide MoveOf, Tracked, PriorityOf, Admitted, WindowsAreValid, EpisodesAreRemembered;
      ghost var before := View();
      inserted := false;
      if (policy.symbols.Some? && e.symbol !in policy.symbols.value) || e.Book? {
        return;
      }
      var move := Weigh(e);
      if move.None? || move.value < policy.threshold {
        return;
      }
      var admitted := AdmitEpisode(ScopeOf(policy, e), e.observedAt, PriorityOf(policy, move.value));
      if admitted {
        offered := offered + [TriggerFor(policy, e, move.value)];
        inserted := sinkInserts;
      }
      Restart(e.symbol, ResetAt(e), ReferenceOf(e), Some(OccurredAt(e)));
      TrackedElsewhere(before.tracks, e, tracks[e.symbol]);
    }
  }

  lemma GroupsGrow(log: seq<Attempt>, a: Attempt, span: int)
    ensures
      var before, groups := Groups(log, span), Groups(log + [a], span);
      if before == [] || a.at - before[|before| - 1][0].at >= span then groups == before + [[a]] && Admitted(log + [a], span)
      else if a.urgent && !HasUrgent(before[|before| - 1]) then
        groups == before[..|before| - 1] + [before[|before| - 1] + [a]] && Admitted(log + [a], span)
        && HasUrgent(groups[|groups| - 1])
      else groups == before && !Admitted(log + [a], span)
  {
    var before, m := Groups(log, span), |Groups(log, span)| - 1;
    assert (log + [a])[..|log|] == log;
    assert |before + [[a]]| != |before|;
    if before != [] {
      var wider := before[m] + [a];
      assert wider[|before[m]|] == a && a in wider;
      assert (before[..m] + [wider])[m] != before[m];
    }
  }

  // ----- What every run of events keeps

  ghost function CountFor(offered: seq<Trigger>, scope: int): nat
  {
    if offered == [] then 0 else
      var n := |offered| - 1;
      CountFor(offered[..n], scope) + if offered[n].symbol == scope then 1 else 0
  }

  ghost predicate Balanced(s: State, p: Policy)
  {
    forall scope :: CountFor(s.offered, scope) == Total(Groups(LogOf(s.attempts, scope), Span(p)))
  }

  lemma TotalGrows(log: seq<Attempt>, a: Attempt, span: int)
    ensures Total(Groups(log + [a], span)) == Total(Groups(log, span)) + if Admitted(log + [a], span) then 1 else 0
  {
    var before, m := Groups(log, span), |Groups(log, span)| - 1;
    GroupsGrow(log, a, span);
    assert (before + [[a]])[..|before|] == before;
    if before != [] { assert (before[..m] + [before[m] + [a]])[..m] == before[..m]; }
  }

  lemma CountGrows(offered: seq<Trigger>, t: Trigger, scope: int)
    ensures CountFor(offered + [t], scope) == CountFor(offered, scope) + if t.symbol == scope then 1 else 0
  {
    assert (offered + [t])[..|offered|] == offered;
  }

  lemma StepKeepsBalance(s: State, p: Policy, e: Event)
    requires Balanced(s, p)
    ensures Balanced(Step(s, p, e), p)
  {
    hide Groups, Admitted, Total, CountFor, MoveOf, Tracked, PriorityOf;
    var next := Step(s, p, e);
    if Crosses(s.tracks, p, e) {
      var log, move := LogAfter(s, p, e), MoveOf(s.tracks, p, e).value;
      var a := Attempt(e.observedAt, PriorityOf(p, move) == 100);
      forall scope ensures CountFor(next.offered, scope) == Total(Groups(LogOf(next.attempts, scope), Span(p))) {
        CountGrows(s.offered, TriggerFor(p, e, move), scope);
        TotalGrows(LogOf(s.attempts, scope), a, Span(p));
      }
    }
  }

  /** In every run the triggers of a scope are exactly the attempts its gate admitted. */
  lemma {:induction false} RunIsBalanced(p: Policy, events: seq<Event>)
    ensures Balanced(Run(p, events), p)
  {
    if events != [] {
      RunIsBalanced(p, events[..|events| - 1]);
      StepKeepsBalance(Run(p, events[..|events| - 1]), p, events[|events| - 1]);
    }
  }

  ghost predicate ObservedWithin(events: seq<Event>, low: int, high: int)
  {
    forall e :: e in events ==> low <= e.observedAt <= high
  }

  lemma {:induction false} AttemptsAreWithin(p: Policy, events: seq<Event>, low: int, high: int, scope: int)
    requires ObservedWithin(events, low, high)
    ensures Within(LogOf(Run(p, events).attempts, scope), low, high)
  {
    hide MoveOf, Tracked, PriorityOf, Admitted;
    if events != [] {
      var n := |events| - 1;
      assert events == events[..n] + [events[n]];
      AttemptsAreWithin(p, events[..n], low, high, scope);
    }
  }

  /** A run whose observation times span T wakes a scope at most 2 * (T / window + 1) times, in whatever order they come. */
  lemma {:induction false} TriggersAreRateLimited(p: Policy, events: seq<Event>, scope: int, low: int, high: int)
    requires low <= high && ObservedWithin(events, low, high)
    ensures CountFor(Run(p, events).offered, scope) <= 2 * ((high - low) / Span(p) + 1)
  {
    RunIsBalanced(p, events);
    AttemptsAreWithin(p, events, low, high, scope);
    RateIsBounded(LogOf(Run(p, events).attempts, scope), Span(p), low, high);
  }

  lemma ScaledRatio(move: real, threshold: Price)
    requires move >= threshold
    ensures move / threshold >= 1.0
    ensures move / threshold * 80.0 >= 100.0 <==> move >= 1.25 * threshold
  {
    var r := move / threshold;
    assert r * threshold == move;
    assert (r - 1.0) * threshold >= 0.0;
    if r >= 1.25 { assert (r - 1.25) * threshold >= 0.0; } else { assert (1.25 - r) * threshold > 0.0; }
  }

  /** Every crossing ranks at least 80, and 100 exactly from five quarters of the threshold on. */
  lemma {:induction false} PriorityMeaning(p: Policy, move: real)
    requires move >= p.threshold
    ensures 80 <= PriorityOf(p, move) <= 100
    ensures PriorityOf(p, move) == 100 <==> move >= 1.25 * p.threshold
  {
    ScaledRatio(move, p.threshold);
  }

  /** A price of the symbol that a run really reported. */
  ghost predicate Quoted(events: seq<Event>, symbol: int, q: Price)
  {
    exists e :: e in events && !e.Book? && e.symbol == symbol && ReferenceOf(e) == q
  }

  ghost predicate HistoryIsQuoted(events: seq<Event>, symbol: int, history: seq<Sample>)
  {
    forall s :: s in history ==> Quoted(events, symbol, s.price)
  }

  ghost predicate TracksAreQuoted(tracks: map<int, Track>, events: seq<Event>)
  {
    forall s :: s in tracks ==> HistoryIsQuoted(events, s, tracks[s].history)
  }

  /** A trigger stands for a watched event that moved by the threshold from a price reported in the run. */
  ghost predicate IsRealMove(t: Trigger, p: Policy, events: seq<Event>)
  {
    && t.cause in events && Watched(p, t.cause) && t.symbol == ScopeOf(p, t.cause)
    && if t.cause.Bar? then BarMove(t.cause) >= p.threshold
       else exists q :: Quoted(events, t.cause.symbol, q) && Move(t.cause.price, q) >= p.threshold
  }

  lemma {:induction false} RunIsQuoted(p: Policy, events: seq<Event>)
    ensures TracksAreQuoted(Run(p, events).tracks, events)
  {
    hide MoveOf, PriorityOf, Admitted, SecondOf;
    if events != [] {
      var n := |events| - 1;
      var e, before := events[n], Run(p, events[..n]).tracks;
      RunIsQuoted(p, events[..n]);
      assert events == events[..n] + [e];
      forall s | s in before ensures HistoryIsQuoted(events, s, before[s].history) {
        assert HistoryIsQuoted(events[..n], s, before[s].history);
        QuotedStays(events[..n], e, s, before[s].history);
      }
      if !e.Book? { assert Quoted(events, e.symbol, ReferenceOf(e)); }
    }
  }

  lemma QuotedStays(events: seq<Event>, e: Event, symbol: int, history: seq<Sample>)
    requires HistoryIsQuoted(events, symbol, history)
    ensures HistoryIsQuoted(events + [e], symbol, history)
  {
    forall s | s in history ensures Quoted(events + [e], symbol, s.price) {
      var f :| f in events && !f.Book? && f.symbol == symbol && ReferenceOf(f) == s.price;
      assert f in events + [e];
    }
  }

  lemma CrossingIsReal(tracks: map<int, Track>, p: Policy, events: seq<Event>, e: Event)
    requires TracksAreQuoted(tracks, events) && Crosses(tracks, p, e)
    ensures IsRealMove(TriggerFor(p, e, MoveOf(tracks, p, e).value), p, events + [e])
  {
    hide Move, PriorityOf, SecondOf, LargestMove;
    if e.Trade? {
      var h, s := tracks[e.symbol].history, TradeSample(e);
      LargestMoveBounds(h + [s], s.second - p.window, e.price);
      var x :| x in h + [s] && Move(e.price, x.price) >= p.threshold;
      assert e in events + [e];
      if x == s { assert Quoted(events + [e], e.symbol, x.price); } else {
        assert HistoryIsQuoted(events, e.symbol, h);
        QuotedStays(events, e, e.symbol, h);
      }
    }
  }

  lemma RealStays(t: Trigger, p: Policy, events: seq<Event>, e: Event)
    requires IsRealMove(t, p, events)
    ensures IsRealMove(t, p, events + [e])
  {
    hide Move;
    if t.cause.Trade? {
      var q :| Quoted(events, t.cause.symbol, q) && Move(t.cause.price, q) >= p.threshold;
      QuotedStays(events, e, t.cause.symbol, [Sample(0, q)]);
      assert Sample(0, q) in [Sample(0, q)];
    }
  }

  /** No run publishes a shock that no reported price backs. */
  lemma {:induction false} TriggersAreRealMoves(p: Policy, events: seq<Event>)
    ensures forall t :: t in Run(p, events).offered ==> IsRealMove(t, p, events) && 80 <= t.priority <= 100
  {
    hide IsRealMove, PriorityOf, MoveOf, Admitted, Tracked;
    if events != [] {
      var n := |events| - 1;
      var e, s := events[n], Run(p, events[..n]);
      TriggersAreRealMoves(p, events[..n]);
      RunIsQuoted(p, events[..n]);
      assert events == events[..n] + [e];
      forall t | t in s.offered ensures IsRealMove(t, p, events) { RealStays(t, p, events[..n], e); }
      if Crosses(s.tracks, p, e) {
        CrossingIsReal(s.tracks, p, events[..n], e);
        PriorityMeaning(p, MoveOf(s.tracks, p, e).value);
      }
    }
  }

  /** After any crossing, published or suppressed, a trade is weighed against the restart price alone. */
  lemma {:induction false} CrossingStartsAfresh(s: State, p: Policy, e: Event, next: Event)
    requires Crosses(s.tracks, p, e) && next.Trade? && Watched(p, next) && next.symbol == e.symbol
    ensures
      var elapsed := TradeSample(next).second - SecondOf(ResetAt(e));
      MoveOf(Step(s, p, e).tracks, p, next) ==
        if elapsed < 0 then None else if elapsed <= p.window then Some(Move(next.price, ReferenceOf(e))) else Some(0.0)
  {
    assert !e.Book?;
    hide SecondOf, PriorityOf, Admitted, Crosses;
    var first, last := Sample(SecondOf(ResetAt(e)), ReferenceOf(e)), TradeSample(next);
    var history, cutoff := [first, last], last.second - p.window;
    assert Step(s, p, e).tracks[e.symbol].history == [first] && [first] + [last] == history;
    assert history[..1] == [first] && [first][..0] == [];
    assert Move(next.price, last.price) == 0.0;
    assert LargestMove([first], cutoff, next.price) == if first.second >= cutoff then MaxR(0.0, Move(next.price, first.price)) else 0.0;
  }

  /** A move of five quarters of the threshold goes unpublished only after an urgent one of the same episode. */
  lemma {:induction false} UrgentMoveIsHeard(s: State, p: Policy, e: Event)
    requires Crosses(s.tracks, p, e) && MoveOf(s.tracks, p, e).value >= 1.25 * p.threshold
    requires Step(s, p, e).offered == s.offered
    ensures
      var groups := Groups(LogOf(s.attempts, ScopeOf(p, e)), Span(p));
      groups != [] && HasUrgent(groups[|groups| - 1]) && e.observedAt - groups[|groups| - 1][0].at < Span(p)
  {
    var move := MoveOf(s.tracks, p, e).value;
    PriorityMeaning(p, move);
    GroupsGrow(LogOf(s.attempts, ScopeOf(p, e)), Attempt(e.observedAt, true), Span(p));
    assert |s.offered + [TriggerFor(p, e, move)]| != |s.offered|;
  }
}
