/**
 Last-in-first-out matching of execution fills into round trips
 (src/investment_manager/portfolio/evaluation.py).

 `Absorb` and `Replay` are the value-level specification; `MatchFill` and `EvaluateTradingCost`
 are the in-place algorithm over mutable lots, proved equal to it.
 */
module TradingCost {
  import opened Results
  import opened Sums
  import Sorting

  datatype Side = Buy | Sell

  /** Sleeve and instrument: the owner of one stack of open lots. */
  datatype Key = Key(sleeveId: int, instrument: int)

  datatype Fill = Fill(fillId: int, cycleId: int, key: Key, side: Side, groupStartedAt: int, filledAt: int,
                       quantity: real, price: real, multiplier: real, fee: real)
  {
    /** What `ExecutionFillCase` enforces at construction. */
    predicate Valid() {
      quantity > 0.0 && price > 0.0 && multiplier > 0.0 && fee >= 0.0 && groupStartedAt <= filledAt
    }

    /** The amount with the sign of this fill: positive when it buys. */
    function Signed(amount: real): real { if side == Buy then amount else -amount }

    function Notional(): real { quantity * price * multiplier }
  }

  datatype Lot = Lot(fill: Fill, quantity: real, fee: real)

  datatype RoundTrip = RoundTrip(key: Key, entrySide: Side, entryFillId: int, exitFillId: int,
                                 entryCycleId: int, exitCycleId: int, openedAt: int, closedAt: int,
                                 quantity: real, grossTurnover: real, grossPnl: real, feeCost: real, netPnl: real)

  function Allocate(amount: real, matched: real, remaining: real): real
    requires remaining != 0.0
  {
    if matched == remaining then amount else amount * matched / remaining
  }

  // ----- One fill against one stack

  predicate Positive(lots: seq<Lot>) { forall i :: 0 <= i < |lots| ==> lots[i].quantity > 0.0 }

  /** What is left of an open lot, or of the incoming fill, after `matched` of it and its share of the fee. */
  function Rest(lot: Lot, matched: real): Lot
    requires lot.quantity > 0.0
  {
    Lot(lot.fill, lot.quantity - matched, lot.fee - Allocate(lot.fee, matched, lot.quantity))
  }

  function Matched(lot: Lot, incoming: Lot): real { MinR(lot.quantity, incoming.quantity) }

  /** The record of one match, given the fees it closes. */
  function RoundTripOf(entry: Fill, exit: Fill, matched: real, fees: real): RoundTrip
  {
    var gross := entry.Signed((exit.price - entry.price) * matched * exit.multiplier);
    RoundTrip(exit.key, entry.side, entry.fillId, exit.fillId, entry.cycleId, exit.cycleId, entry.filledAt, exit.filledAt,
              matched, matched * (entry.price + exit.price) * exit.multiplier, gross, fees, gross - fees)
  }

  function Trip(lot: Lot, incoming: Lot): RoundTrip
    requires lot.quantity > 0.0 && incoming.quantity > 0.0
  {
    var matched := Matched(lot, incoming);
    RoundTripOf(lot.fill, incoming.fill, matched,
                Allocate(lot.fee, matched, lot.quantity) + Allocate(incoming.fee, matched, incoming.quantity))
  }

  datatype Absorbed = Absorbed(lots: seq<Lot>, trips: seq<RoundTrip>) | MultiplierChanged

  /** Consumes `incoming`, the unmatched part of a fill, from the top of the stack; pushes what is left of it. */
  function Absorb(lots: seq<Lot>, incoming: Lot): (r: Absorbed)
    requires Positive(lots) && incoming.quantity >= 0.0
    ensures r.Absorbed? ==> Positive(r.lots)
    decreases |lots|, incoming.quantity > 0.0
  {
    if lots == [] || incoming.quantity == 0.0 || lots[|lots| - 1].fill.side == incoming.fill.side then
      Absorbed(if incoming.quantity > 0.0 then lots + [incoming] else lots, [])
    else if lots[|lots| - 1].fill.multiplier != incoming.fill.multiplier then
      MultiplierChanged
    else
      var lot := lots[|lots| - 1];
      var matched := Matched(lot, incoming);
      Prepend([Trip(lot, incoming)], Absorb(Below(lots, matched), Rest(incoming, matched)))
  }

  /** The stack after `matched` leaves its top lot, which is popped when nothing of it remains. */
  function Below(lots: seq<Lot>, matched: real): (r: seq<Lot>)
    requires lots != [] && Positive(lots) && matched <= lots[|lots| - 1].quantity
    ensures Positive(r)
  {
    var n := |lots| - 1;
    if lots[n].quantity == matched then lots[..n] else lots[..n] + [Rest(lots[n], matched)]
  }

  function Prepend(trips: seq<RoundTrip>, a: Absorbed): Absorbed
  {
    match a
    case Absorbed(lots, later) => Absorbed(lots, trips + later)
    case MultiplierChanged => MultiplierChanged
  }

  function Whole(fill: Fill): Lot { Lot(fill, fill.quantity, fill.fee) }

  // ----- All fills against all stacks

  /** The open stacks; `keys` lists them in the order in which they were first touched. */
  datatype Book = Book(keys: seq<Key>, stacks: map<Key, seq<Lot>>)
  {
    ghost predicate Valid() {
      && (forall i, j :: 0 <= i < j < |keys| ==> keys[i] != keys[j])
      && (forall k :: k in stacks <==> k in keys)
      && (forall k :: k in stacks ==> Positive(stacks[k]))
    }

    function Stack(k: Key): seq<Lot> { if k in stacks then stacks[k] else [] }

    function Put(k: Key, lots: seq<Lot>): Book {
      Book(if k in stacks then keys else keys + [k], stacks[k := lots])
    }

    /** Every open lot, stack by stack. */
    function Lots(): seq<Lot> { Gather(keys, stacks) }
  }

  function Gather(keys: seq<Key>, stacks: map<Key, seq<Lot>>): seq<Lot>
  {
    if keys == [] then []
    else
      var k := keys[|keys| - 1];
      Gather(keys[..|keys| - 1], stacks) + (if k in stacks then stacks[k] else [])
  }

  datatype Progress = Running(book: Book, trips: seq<RoundTrip>) | Failed

  predicate AllValid(fills: seq<Fill>) { forall i :: 0 <= i < |fills| ==> fills[i].Valid() }

  /** The ledger after the fills, processed first to last. */
  function Replay(fills: seq<Fill>): (r: Progress)
    requires AllValid(fills)
    ensures r.Running? ==> r.book.Valid()
  {
    if fills == [] then Running(Book([], map[]), [])
    else
      var fill := fills[|fills| - 1];
      match Replay(fills[..|fills| - 1])
      case Failed => Failed
      case Running(book, trips) =>
        match Absorb(book.Stack(fill.key), Whole(fill))
        case MultiplierChanged => Failed
        case Absorbed(lots, more) => Running(book.Put(fill.key, lots), trips + more)
  }

  // ----- Conservation

  function TripFee(t: RoundTrip): real { t.feeCost }
  function TripTurnover(t: RoundTrip): real { t.grossTurnover }
  function TripGross(t: RoundTrip): real { t.grossPnl }
  function LotFee(l: Lot): real { l.fee }
  function LotTurnover(l: Lot): real { l.quantity * l.fill.price * l.fill.multiplier }
  function LotSignedCost(l: Lot): real { l.fill.Signed(LotTurnover(l)) }
  function FillFee(f: Fill): real { f.fee }
  function FillNotional(f: Fill): real { f.Notional() }
  function FillSignedNotional(f: Fill): real { f.Signed(f.Notional()) }

  /**
   An additive measure of lots (f) and trips (g): a single match moves it from the lot and the incoming
   fill into the trip and the two rests, losing nothing.
   */
  ghost predicate Conserved(f: Lot -> real, g: RoundTrip -> real)
  {
    && (forall lot: Lot, incoming: Lot {:trigger Trip(lot, incoming)} ::
          lot.quantity > 0.0 && incoming.quantity > 0.0 && lot.fill.side != incoming.fill.side
          && lot.fill.multiplier == incoming.fill.multiplier ==>
            var matched := Matched(lot, incoming);
            g(Trip(lot, incoming)) + f(Rest(lot, matched)) + f(Rest(incoming, matched)) == f(lot) + f(incoming))
    && (forall lot: Lot {:trigger f(lot)} :: lot.quantity == 0.0 && lot.fee == 0.0 ==> f(lot) == 0.0)
  }

  /** Absorbing a fill conserves every additive measure. */
  lemma {:induction false} AbsorbConserves(lots: seq<Lot>, incoming: Lot, f: Lot -> real, g: RoundTrip -> real)
    requires Conserved(f, g)
    requires Positive(lots) && incoming.quantity >= 0.0 && (incoming.quantity == 0.0 ==> incoming.fee == 0.0)
    requires Absorb(lots, incoming).Absorbed?
    ensures
      var r := Absorb(lots, incoming);
      SumBy(r.trips, g) + SumBy(r.lots, f) == SumBy(lots, f) + f(incoming)
    decreases |lots|, incoming.quantity > 0.0
  {
    if lots == [] || incoming.quantity == 0.0 || lots[|lots| - 1].fill.side == incoming.fill.side {
      SumPush(lots, incoming, f);
    } else {
      var lot := lots[|lots| - 1];
      var matched := Matched(lot, incoming);
      AbsorbConserves(Below(lots, matched), Rest(incoming, matched), f, g);
      SumPush(lots[..|lots| - 1], Rest(lot, matched), f);
      SumHead([Trip(lot, incoming)] + Absorb(Below(lots, matched), Rest(incoming, matched)).trips, g);
    }
  }

  lemma {:induction false} GatherUntouched(keys: seq<Key>, stacks: map<Key, seq<Lot>>, k: Key, lots: seq<Lot>)
    requires k !in keys
    ensures Gather(keys, stacks[k := lots]) == Gather(keys, stacks)
  {
    if keys != [] { GatherUntouched(keys[..|keys| - 1], stacks, k, lots); }
  }

  /** Replacing one stack changes a total over all lots by exactly that stack's change. */
  lemma {:induction false} GatherPut(keys: seq<Key>, stacks: map<Key, seq<Lot>>, k: Key, lots: seq<Lot>, f: Lot -> real)
    requires forall i, j :: 0 <= i < j < |keys| ==> keys[i] != keys[j]
    requires k in keys && k in stacks
    ensures SumBy(Gather(keys, stacks[k := lots]), f) == SumBy(Gather(keys, stacks), f) - SumBy(stacks[k], f) + SumBy(lots, f)
  {
    var n := |keys| - 1;
    var last := keys[n];
    var before := Gather(keys[..n], stacks);
    if last == k {
      GatherUntouched(keys[..n], stacks, k, lots);
      SumAppend(before, stacks[k], f);
      SumAppend(before, lots, f);
    } else {
      GatherPut(keys[..n], stacks, k, lots, f);
      var same := if last in stacks then stacks[last] else [];
      SumAppend(before, same, f);
      SumAppend(Gather(keys[..n], stacks[k := lots]), same, f);
    }
  }

  lemma PutTotal(book: Book, k: Key, lots: seq<Lot>, f: Lot -> real)
    requires book.Valid()
    ensures SumBy(book.Put(k, lots).Lots(), f) == SumBy(book.Lots(), f) - SumBy(book.Stack(k), f) + SumBy(lots, f)
  {
    if k in book.stacks {
      GatherPut(book.keys, book.stacks, k, lots, f);
    } else {
      GatherUntouched(book.keys, book.stacks, k, lots);
      assert (book.keys + [k])[..|book.keys|] == book.keys;
      SumAppend(Gather(book.keys, book.stacks), lots, f);
    }
  }

  lemma {:induction false} ReplayConserves(fills: seq<Fill>, f: Lot -> real, g: RoundTrip -> real, total: Fill -> real)
    requires AllValid(fills) && Replay(fills).Running?
    requires Conserved(f, g) && forall fill: Fill :: total(fill) == f(Whole(fill))
    ensures
      var r := Replay(fills);
      SumBy(r.trips, g) + SumBy(r.book.Lots(), f) == SumBy(fills, total)
  {
    if fills != [] {
      var n := |fills| - 1;
      var fill := fills[n];
      ReplayConserves(fills[..n], f, g, total);
      var Running(book, trips) := Replay(fills[..n]);
      var a := Absorb(book.Stack(fill.key), Whole(fill));
      AbsorbConserves(book.Stack(fill.key), Whole(fill), f, g);
      PutTotal(book, fill.key, a.lots, f);
      SumAppend(trips, a.trips, g);
    }
  }

  /** Charged fees are never lost: closed plus open fees are the fees of the fills. */
  lemma {:induction false} FeesAreConserved(fills: seq<Fill>)
    requires AllValid(fills) && Replay(fills).Running?
    ensures
      var r := Replay(fills);
      SumBy(r.trips, TripFee) + SumBy(r.book.Lots(), LotFee) == SumBy(fills, FillFee)
  {
    ReplayConserves(fills, LotFee, TripFee, FillFee);
  }

  /** Round-trip plus open turnover is the notional traded. */
  lemma {:induction false} TurnoverIsConserved(fills: seq<Fill>)
    requires AllValid(fills) && Replay(fills).Running?
    ensures
      var r := Replay(fills);
      SumBy(r.trips, TripTurnover) + SumBy(r.book.Lots(), LotTurnover) == SumBy(fills, FillNotional)
  {
    ReplayConserves(fills, LotTurnover, TripTurnover, FillNotional);
  }

  function LotCredit(l: Lot): real { -LotSignedCost(l) }
  function FillCredit(f: Fill): real { -FillSignedNotional(f) }

  lemma CreditMoves(lot: Lot, incoming: Lot)
    requires lot.quantity > 0.0 && incoming.quantity > 0.0
    requires lot.fill.side != incoming.fill.side && lot.fill.multiplier == incoming.fill.multiplier
    ensures
      var matched := Matched(lot, incoming);
      TripGross(Trip(lot, incoming)) + LotCredit(Rest(lot, matched)) + LotCredit(Rest(incoming, matched))
      == LotCredit(lot) + LotCredit(incoming)
  {
    var matched := Matched(lot, incoming);
    var entry, exit, mult := lot.fill.price, incoming.fill.price, incoming.fill.multiplier;
    assert TripGross(Trip(lot, incoming)) == lot.fill.Signed(exit * matched * mult - entry * matched * mult);
    assert LotTurnover(Rest(lot, matched)) == LotTurnover(lot) - entry * matched * mult;
    assert LotTurnover(Rest(incoming, matched)) == LotTurnover(incoming) - exit * matched * mult;
  }

  lemma CreditIsConserved()
    ensures Conserved(LotCredit, TripGross)
  {
    forall lot: Lot, incoming: Lot | lot.quantity > 0.0 && incoming.quantity > 0.0
                                     && lot.fill.side != incoming.fill.side && lot.fill.multiplier == incoming.fill.multiplier
      ensures TripGross(Trip(lot, incoming)) + LotCredit(Rest(lot, Matched(lot, incoming)))
              + LotCredit(Rest(incoming, Matched(lot, incoming))) == LotCredit(lot) + LotCredit(incoming)
    {
      CreditMoves(lot, incoming);
    }
  }

  /** Realized profit is the signed cost of what is still open minus the signed notional paid. */
  lemma {:induction false} ProfitIsConserved(fills: seq<Fill>)
    requires AllValid(fills) && Replay(fills).Running?
    ensures
      var r := Replay(fills);
      SumBy(r.trips, TripGross) == SumBy(r.book.Lots(), LotSignedCost) - SumBy(fills, FillSignedNotional)
  {
    CreditIsConserved();
    ReplayConserves(fills, LotCredit, TripGross, FillCredit);
    SumNegate(Replay(fills).book.Lots(), LotCredit, LotSignedCost);
    SumNegate(fills, FillCredit, FillSignedNotional);
  }

  // ----- What the open stacks look like

  function LotSigned(l: Lot): real { l.fill.Signed(l.quantity) }
  function LotQuantity(l: Lot): real { l.quantity }
  function NoTrip(t: RoundTrip): real { 0.0 }

  ghost predicate OneSided(lots: seq<Lot>)
  {
    forall i, j :: 0 <= i < j < |lots| ==> lots[i].fill.side == lots[j].fill.side
  }

  /** The lot still carries exactly its share, by quantity, of the fee its fill was charged. */
  ghost predicate ProRata(l: Lot)
  {
    && l.fill.Valid()
    && l.quantity <= l.fill.quantity
    && l.fee == FeeShare(l.fill, l.quantity)
  }

  /** The share of a fill's fee that belongs to `quantity` of it. */
  function FeeShare(fill: Fill, quantity: real): real
    requires fill.quantity > 0.0
  {
    fill.fee * (quantity / fill.quantity)
  }

  /** The round trip between two fills that depends on nothing but the fills and the matched quantity. */
  function FairTrip(entry: Fill, exit: Fill, matched: real): RoundTrip
    requires entry.Valid() && exit.Valid()
  {
    RoundTripOf(entry, exit, matched, FeeShare(entry, matched) + FeeShare(exit, matched))
  }

  lemma ShareOf(fee: real, whole: real, quantity: real, matched: real)
    requires whole > 0.0 && quantity > 0.0
    ensures Allocate(fee * (quantity / whole), matched, quantity) == fee * (matched / whole)
  {
    if matched != quantity {
      var x := fee * (quantity / whole) * matched / quantity;
      assert x * quantity == fee * (quantity / whole) * matched;
      assert (quantity / whole) * whole == quantity && (matched / whole) * whole == matched;
      assert x * quantity * whole == fee * matched * quantity;
      assert x * whole == fee * matched;
    }
  }

  lemma ShareLeft(fee: real, whole: real, quantity: real, matched: real)
    requires whole > 0.0
    ensures fee * (quantity / whole) - fee * (matched / whole) == fee * ((quantity - matched) / whole)
  {
    assert quantity / whole - matched / whole == (quantity - matched) / whole;
  }

  lemma RestIsProRata(lot: Lot, matched: real)
    requires ProRata(lot) && 0.0 <= matched <= lot.quantity && lot.quantity > 0.0
    ensures ProRata(Rest(lot, matched))
  {
    ShareOf(lot.fill.fee, lot.fill.quantity, lot.quantity, matched);
    ShareLeft(lot.fill.fee, lot.fill.quantity, lot.quantity, matched);
  }

  lemma FeeShareIsFair(lot: Lot, matched: real)
    requires ProRata(lot) && lot.quantity > 0.0
    ensures Allocate(lot.fee, matched, lot.quantity) == FeeShare(lot.fill, matched)
  {
    ShareOf(lot.fill.fee, lot.fill.quantity, lot.quantity, matched);
  }

  lemma TripIsFair(lot: Lot, incoming: Lot)
    requires ProRata(lot) && ProRata(incoming) && lot.quantity > 0.0 && incoming.quantity > 0.0
    ensures Trip(lot, incoming) == FairTrip(lot.fill, incoming.fill, Matched(lot, incoming))
  {
    FeeShareIsFair(lot, Matched(lot, incoming));
    FeeShareIsFair(incoming, Matched(lot, incoming));
  }

  lemma WholeIsProRata(fill: Fill)
    requires fill.Valid()
    ensures ProRata(Whole(fill))
  {
    assert fill.quantity / fill.quantity == 1.0;
  }

  ghost predicate Sound(lots: seq<Lot>)
  {
    Positive(lots) && OneSided(lots) && forall i :: 0 <= i < |lots| ==> ProRata(lots[i])
  }

  /** The fill each open lot stems from is known. */
  ghost predicate From(lots: seq<Lot>, fills: set<Fill>)
  {
    forall i :: 0 <= i < |lots| ==> lots[i].fill in fills
  }

  ghost predicate FairExits(trips: seq<RoundTrip>, entries: set<Fill>, exit: Fill)
  {
    forall i :: 0 <= i < |trips| ==> FairExit(trips[i], entries, exit)
  }

  ghost predicate FairExit(t: RoundTrip, entries: set<Fill>, exit: Fill)
  {
    exists entry :: entry in entries && entry.Valid() && exit.Valid() && entry.side != exit.side
                    && t.quantity > 0.0 && t == FairTrip(entry, exit, t.quantity)
  }

  /** One fill opens at most one lot or round trip more than it closes, and keeps the stack on one side. */
  lemma {:induction false} AbsorbKeepsSides(lots: seq<Lot>, incoming: Lot, fills: set<Fill>)
    requires Positive(lots) && OneSided(lots) && incoming.quantity >= 0.0 && From(lots, fills)
    requires Absorb(lots, incoming).Absorbed?
    ensures
      var r := Absorb(lots, incoming);
      && OneSided(r.lots) && From(r.lots, fills + {incoming.fill})
      && |r.trips| + |r.lots| <= |lots| + (if incoming.quantity > 0.0 then 1 else 0)
    decreases |lots|, incoming.quantity > 0.0
  {
    if !(lots == [] || incoming.quantity == 0.0 || lots[|lots| - 1].fill.side == incoming.fill.side) {
      var matched := Matched(lots[|lots| - 1], incoming);
      AbsorbKeepsSides(Below(lots, matched), Rest(incoming, matched), fills);
    }
  }

  /** Partial fills never disturb the pro-rata fees, so every round trip is the fair one. */
  lemma {:induction false} AbsorbIsFair(lots: seq<Lot>, incoming: Lot, fills: set<Fill>)
    requires Positive(lots) && (forall i :: 0 <= i < |lots| ==> ProRata(lots[i]))
    requires ProRata(incoming) && incoming.quantity >= 0.0 && From(lots, fills)
    requires Absorb(lots, incoming).Absorbed?
    ensures forall i :: 0 <= i < |Absorb(lots, incoming).lots| ==> ProRata(Absorb(lots, incoming).lots[i])
    ensures FairExits(Absorb(lots, incoming).trips, fills, incoming.fill)
    decreases |lots|, incoming.quantity > 0.0
  {
    if !(lots == [] || incoming.quantity == 0.0 || lots[|lots| - 1].fill.side == incoming.fill.side) {
      var lot := lots[|lots| - 1];
      var matched := Matched(lot, incoming);
      RestIsProRata(lot, matched);
      RestIsProRata(incoming, matched);
      AbsorbIsFair(Below(lots, matched), Rest(incoming, matched), fills);
      assert FairExit(Trip(lot, incoming), fills, incoming.fill) by { TripIsFair(lot, incoming); }
    }
  }

  /** A sound stack nets to zero only when it is empty. */
  lemma {:induction false} SignedSum(lots: seq<Lot>)
    requires OneSided(lots) && Positive(lots)
    ensures lots != [] ==> lots[0].fill.Signed(SumBy(lots, LotSigned)) > 0.0
    ensures lots == [] <==> SumBy(lots, LotSigned) == 0.0
  {
    if |lots| == 1 {
      assert lots[..0] == [];
    } else if |lots| > 1 {
      SignedSum(lots[..|lots| - 1]);
    }
  }

  /** The signed quantity traded under one key. */
  function Position(fills: seq<Fill>, k: Key): real { SumBy(fills, Contribution(k)) }

  function Contribution(k: Key): Fill -> real
  {
    (fill: Fill) => if fill.key == k then fill.Signed(fill.quantity) else 0.0
  }

  ghost function Traded(fills: seq<Fill>, k: Key): set<Fill> { set fill | fill in fills && fill.key == k }

  /** One more fill: the step that the induction over fills takes. */
  lemma {:induction false} LastFill(fills: seq<Fill>)
    requires fills != [] && AllValid(fills) && Replay(fills).Running?
    ensures
      var n := |fills| - 1;
      var before := Replay(fills[..n]);
      && before.Running?
      && before.book.Valid()
      && Absorb(before.book.Stack(fills[n].key), Whole(fills[n])).Absorbed?
      && Replay(fills) == Running(
           before.book.Put(fills[n].key, Absorb(before.book.Stack(fills[n].key), Whole(fills[n])).lots),
           before.trips + Absorb(before.book.Stack(fills[n].key), Whole(fills[n])).trips)
  {
  }

  lemma {:induction false} StacksAreSound(fills: seq<Fill>, k: Key)
    requires AllValid(fills) && Replay(fills).Running?
    ensures Sound(Replay(fills).book.Stack(k)) && From(Replay(fills).book.Stack(k), Traded(fills, k))
  {
    if fills != [] {
      var n := |fills| - 1;
      StacksAreSound(fills[..n], k);
      LastFill(fills);
      var stack := Replay(fills[..n]).book.Stack(k);
      assert Traded(fills[..n], k) <= Traded(fills, k);
      if fills[n].key == k {
        assert fills[n] in Traded(fills, k);
        WholeIsProRata(fills[n]);
        AbsorbKeepsSides(stack, Whole(fills[n]), Traded(fills[..n], k));
        AbsorbIsFair(stack, Whole(fills[n]), Traded(fills[..n], k));
      }
    }
  }

  lemma SignedIsConserved()
    ensures Conserved(LotSigned, NoTrip)
  {
  }

  lemma AbsorbNets(lots: seq<Lot>, incoming: Lot)
    requires Positive(lots) && incoming.quantity > 0.0 && Absorb(lots, incoming).Absorbed?
    ensures SumBy(Absorb(lots, incoming).lots, LotSigned) == SumBy(lots, LotSigned) + LotSigned(incoming)
  {
    SignedIsConserved();
    AbsorbConserves(lots, incoming, LotSigned, NoTrip);
    SumZero(Absorb(lots, incoming).trips);
  }

  lemma {:induction false} StacksNetToPositions(fills: seq<Fill>, k: Key)
    requires AllValid(fills) && Replay(fills).Running?
    ensures SumBy(Replay(fills).book.Stack(k), LotSigned) == Position(fills, k)
  {
    if fills != [] {
      var n := |fills| - 1;
      StacksNetToPositions(fills[..n], k);
      LastFill(fills);
      if fills[n].key == k {
        var stack := Replay(fills[..n]).book.Stack(k);
        AbsorbNets(stack, Whole(fills[n]));
      }
    }
  }

  /**
   Every stack, after any fills: its lots are positive, on one side and stem from that key's fills; they carry
   the fills' fees pro rata; and they net to the signed position, so the stack is empty iff the position is flat.
   */
  lemma {:induction false} StacksMirrorPositions(fills: seq<Fill>, k: Key)
    requires AllValid(fills) && Replay(fills).Running?
    ensures
      var lots := Replay(fills).book.Stack(k);
      && Sound(lots) && From(lots, Traded(fills, k))
      && SumBy(lots, LotSigned) == Position(fills, k)
      && (lots == [] <==> Position(fills, k) == 0.0)
  {
    StacksAreSound(fills, k);
    StacksNetToPositions(fills, k);
    SignedSum(Replay(fills).book.Stack(k));
  }

  lemma {:induction false} SumZero(trips: seq<RoundTrip>)
    ensures SumBy(trips, NoTrip) == 0.0
  {
    if trips != [] { SumZero(trips[..|trips| - 1]); }
  }

  /** Matching never creates more round trips and open lots than there were fills. */
  lemma {:induction false} CountsAreBounded(fills: seq<Fill>)
    requires AllValid(fills) && Replay(fills).Running?
    ensures |Replay(fills).trips| + |Replay(fills).book.Lots()| <= |fills|
  {
    if fills != [] {
      var n := |fills| - 1;
      var k := fills[n].key;
      CountsAreBounded(fills[..n]);
      LastFill(fills);
      StacksAreSound(fills[..n], k);
      var book := Replay(fills[..n]).book;
      var a := Absorb(book.Stack(k), Whole(fills[n]));
      AbsorbKeepsSides(book.Stack(k), Whole(fills[n]), Traded(fills[..n], k));
      PutCount(book, k, a.lots);
    }
  }

  lemma PutCount(book: Book, k: Key, lots: seq<Lot>)
    requires book.Valid()
    ensures |book.Put(k, lots).Lots()| == |book.Lots()| - |book.Stack(k)| + |lots|
  {
    PutTotal(book, k, lots, One);
    CountIsSum(book.Lots());
    CountIsSum(book.Stack(k));
    CountIsSum(lots);
    CountIsSum(book.Put(k, lots).Lots());
  }

  function One(l: Lot): real { 1.0 }

  lemma {:induction false} CountIsSum(lots: seq<Lot>)
    ensures SumBy(lots, One) == |lots| as real
  {
    if lots != [] { CountIsSum(lots[..|lots| - 1]); }
  }

  /** Every round trip joins an earlier fill to a later opposite fill of the same key, on terms set by the two alone. */
  lemma {:induction false} RoundTripsAreFair(fills: seq<Fill>, t: RoundTrip) returns (i: nat, j: nat)
    requires AllValid(fills) && Replay(fills).Running? && t in Replay(fills).trips
    ensures i < j < |fills| && fills[i].key == fills[j].key && fills[i].side != fills[j].side
    ensures t.quantity > 0.0 && t == FairTrip(fills[i], fills[j], t.quantity)
  {
    var n := |fills| - 1;
    var fill := fills[n];
    LastFill(fills);
    var before := Replay(fills[..n]);
    if t in before.trips {
      i, j := RoundTripsAreFair(fills[..n], t);
    } else {
      var stack := before.book.Stack(fill.key);
      StacksAreSound(fills[..n], fill.key);
      WholeIsProRata(fill);
      AbsorbIsFair(stack, Whole(fill), Traded(fills[..n], fill.key));
      var entry := EntryOf(Absorb(stack, Whole(fill)).trips, Traded(fills[..n], fill.key), fill, t);
      i, j :| 0 <= i < n && fills[i] == entry && j == n;
    }
  }

  lemma EntryOf(trips: seq<RoundTrip>, entries: set<Fill>, exit: Fill, t: RoundTrip) returns (entry: Fill)
    requires FairExits(trips, entries, exit) && t in trips
    ensures entry in entries && entry.Valid() && exit.Valid() && entry.side != exit.side
    ensures t.quantity > 0.0 && t == FairTrip(entry, exit, t.quantity)
  {
    entry :| entry in entries && entry.Valid() && exit.Valid() && entry.side != exit.side
             && t.quantity > 0.0 && t == FairTrip(entry, exit, t.quantity);
  }

  // ----- Last in, first out

  /** The oldest `keep` units of a stack, with their share of the fees. */
  function Oldest(lots: seq<Lot>, keep: real): seq<Lot>
  {
    if lots == [] || keep <= 0.0 then []
    else if lots[0].quantity <= keep then [lots[0]] + Oldest(lots[1..], keep - lots[0].quantity)
    else [Rest(lots[0], lots[0].quantity - keep)]
  }

  lemma {:induction false} OldestWhole(lots: seq<Lot>, keep: real)
    requires Positive(lots) && keep >= SumBy(lots, LotQuantity)
    ensures Oldest(lots, keep) == lots
  {
    if lots != [] {
      SumHead(lots, LotQuantity);
      SumNonNegative(lots[1..], LotQuantity);
      OldestWhole(lots[1..], keep - lots[0].quantity);
    }
  }

  /** How `Oldest` treats the top lot: kept whole, cut, or gone. */
  lemma {:induction false} OldestOfPushed(lots: seq<Lot>, top: Lot, keep: real)
    requires Positive(lots + [top])
    ensures
      var depth := SumBy(lots, LotQuantity);
      Oldest(lots + [top], keep) == if keep <= depth then Oldest(lots, keep)
                                    else if top.quantity <= keep - depth then lots + [top]
                                    else lots + [Rest(top, top.quantity - (keep - depth))]
  {
    if lots == [] {
      assert [top][1..] == [];
      assert lots + [top] == [top];
    } else {
      assert Positive(lots) by { assert forall i :: 0 <= i < |lots| ==> lots[i] == (lots + [top])[i]; }
      assert Positive(lots[1..] + [top]) by { assert (lots + [top])[1..] == lots[1..] + [top]; }
      SumHead(lots, LotQuantity);
      SumNonNegative(lots[1..], LotQuantity);
      assert (lots + [top])[1..] == lots[1..] + [top];
      if keep > 0.0 && lots[0].quantity <= keep {
        OldestOfPushed(lots[1..], top, keep - lots[0].quantity);
        assert [lots[0]] + (lots[1..] + [top]) == lots + [top];
        if keep > SumBy(lots, LotQuantity) && top.quantity > keep - SumBy(lots, LotQuantity) {
          var cut := Rest(top, top.quantity - (keep - SumBy(lots, LotQuantity)));
          assert [lots[0]] + (lots[1..] + [cut]) == lots + [cut];
        }
      }
    }
  }

  lemma OldestIgnoresTop(lots: seq<Lot>, keep: real)
    requires lots != [] && Positive(lots) && keep <= SumBy(lots[..|lots| - 1], LotQuantity)
    ensures Oldest(lots, keep) == Oldest(lots[..|lots| - 1], keep)
  {
    var n := |lots| - 1;
    assert lots == lots[..n] + [lots[n]];
    OldestOfPushed(lots[..n], lots[n], keep);
  }

  lemma TopIsCut(lots: seq<Lot>, matched: real)
    requires lots != [] && Positive(lots) && 0.0 < matched <= lots[|lots| - 1].quantity
    ensures Below(lots, matched) == Oldest(lots, SumBy(lots, LotQuantity) - matched)
  {
    var n := |lots| - 1;
    var depth := SumBy(lots[..n], LotQuantity);
    assert lots == lots[..n] + [lots[n]];
    OldestOfPushed(lots[..n], lots[n], depth + lots[n].quantity - matched);
    OldestWhole(lots[..n], depth);
    assert lots[n].quantity - (depth + lots[n].quantity - matched - depth) == matched;
  }

  /** The top lot is used up before the fill is. */
  lemma TopIsPopped(lots: seq<Lot>, incoming: Lot)
    requires lots != [] && Positive(lots) && lots[|lots| - 1].quantity < incoming.quantity
    requires lots[|lots| - 1].fill.side != incoming.fill.side && Absorb(lots, incoming).Absorbed?
    ensures
      var n := |lots| - 1;
      var rest := Rest(incoming, lots[n].quantity);
      && rest.fill == incoming.fill && rest.quantity == incoming.quantity - lots[n].quantity
      && Absorb(lots[..n], rest).Absorbed?
      && Absorb(lots, incoming).lots == Absorb(lots[..n], rest).lots
  {
  }

  /** Last in, first out: an opposite fill takes the newest units and leaves exactly the oldest ones. */
  lemma {:induction false} NewestLeaveFirst(lots: seq<Lot>, incoming: Lot)
    requires Positive(lots) && 0.0 < incoming.quantity <= SumBy(lots, LotQuantity)
    requires forall i :: 0 <= i < |lots| ==> lots[i].fill.side != incoming.fill.side
    requires Absorb(lots, incoming).Absorbed?
    ensures Absorb(lots, incoming).lots == Oldest(lots, SumBy(lots, LotQuantity) - incoming.quantity)
    decreases |lots|
  {
    var n := |lots| - 1;
    if incoming.quantity > lots[n].quantity {
      TopIsPopped(lots, incoming);
      NewestLeaveFirst(lots[..n], Rest(incoming, lots[n].quantity));
      OldestIgnoresTop(lots, SumBy(lots, LotQuantity) - incoming.quantity);
    } else {
      assert Absorb(lots, incoming).lots == Below(lots, incoming.quantity);
      TopIsCut(lots, incoming.quantity);
    }
  }

  /** A fill larger than the opposite stack empties it and opens its own remainder on the other side. */
  lemma {:induction false} LargerFillTurnsTheStack(lots: seq<Lot>, incoming: Lot)
    requires Positive(lots) && incoming.quantity > SumBy(lots, LotQuantity)
    requires forall i :: 0 <= i < |lots| ==> lots[i].fill.side != incoming.fill.side
    requires incoming.quantity > 0.0 && Absorb(lots, incoming).Absorbed?
    ensures |Absorb(lots, incoming).lots| == 1
    ensures Absorb(lots, incoming).lots[0].fill == incoming.fill
    ensures Absorb(lots, incoming).lots[0].quantity == incoming.quantity - SumBy(lots, LotQuantity)
    decreases |lots|
  {
    if lots != [] {
      var n := |lots| - 1;
      SumNonNegative(lots[..n], LotQuantity);
      TopIsPopped(lots, incoming);
      LargerFillTurnsTheStack(lots[..n], Rest(incoming, lots[n].quantity));
    }
  }

  // ----- The evidence does not depend on the order of processing

  lemma {:induction false} EmptyStacksHoldNothing(keys: seq<Key>, stacks: map<Key, seq<Lot>>)
    requires forall k :: k in stacks ==> stacks[k] == []
    ensures Gather(keys, stacks) == []
  {
    if keys != [] { EmptyStacksHoldNothing(keys[..|keys| - 1], stacks); }
  }

  /** Every key was bought as much as it was sold. */
  ghost predicate Flat(fills: seq<Fill>) { forall k :: Position(fills, k) == 0.0 }

  lemma FlatTotals(fills: seq<Fill>)
    requires AllValid(fills) && Replay(fills).Running?
    requires Flat(fills)
    ensures Replay(fills).book.Lots() == []
    ensures SumBy(Replay(fills).trips, TripGross) == -SumBy(fills, FillSignedNotional)
    ensures SumBy(Replay(fills).trips, TripFee) == SumBy(fills, FillFee)
  {
    var book := Replay(fills).book;
    forall k | k in book.stacks ensures book.stacks[k] == [] { StacksMirrorPositions(fills, k); }
    EmptyStacksHoldNothing(book.keys, book.stacks);
    FeesAreConserved(fills);
    ProfitIsConserved(fills);
  }

  /** When everything is closed, profit and fees are those of the fills, however the fills were ordered. */
  lemma {:induction false} FlatResultIgnoresOrder(xs: seq<Fill>, ys: seq<Fill>)
    requires AllValid(xs) && AllValid(ys) && multiset(xs) == multiset(ys)
    requires Replay(xs).Running? && Replay(ys).Running?
    requires Flat(xs)
    ensures Replay(xs).book.Lots() == Replay(ys).book.Lots() == []
    ensures SumBy(Replay(xs).trips, TripGross) == SumBy(Replay(ys).trips, TripGross)
    ensures SumBy(Replay(xs).trips, TripFee) == SumBy(Replay(ys).trips, TripFee)
  {
    forall k ensures Position(ys, k) == 0.0 {
      assert Position(xs, k) == 0.0;
      SumPermutation(xs, ys, Contribution(k));
    }
    FlatTotals(xs);
    FlatTotals(ys);
    SumPermutation(xs, ys, FillFee);
    SumPermutation(xs, ys, FillSignedNotional);
  }

  // ----- The evidence

  datatype Evidence = Evidence(fillCount: nat, roundTripCount: nat, openLotCount: nat, grossTurnover: real,
                               realizedGrossPnl: real, closedFeeCost: real, openFeeCost: real, realizedNetPnl: real,
                               positiveGrossPnl: real, reconciled: Option<bool>, roundTrips: seq<RoundTrip>)

  datatype EvaluationError = HalfExpectation | DuplicateFillId | MultiplierConflict

  /** What the account ledger says profit and fees were. */
  datatype Expectation = Expectation(pricePnl: Option<real>, feeCost: Option<real>)

  /** The processing order: group start, fill time, fill id. */
  predicate NotAfter(a: Fill, b: Fill)
  {
    || a.groupStartedAt < b.groupStartedAt
    || (a.groupStartedAt == b.groupStartedAt
        && (a.filledAt < b.filledAt || (a.filledAt == b.filledAt && a.fillId <= b.fillId)))
  }

  predicate DistinctIds(fills: seq<Fill>)
  {
    forall i, j :: 0 <= i < j < |fills| ==> fills[i].fillId != fills[j].fillId
  }

  function TripGain(t: RoundTrip): real { MaxR(t.grossPnl, 0.0) }

  function Summarize(fills: seq<Fill>, book: Book, trips: seq<RoundTrip>, expected: Expectation): Evidence
  {
    var gross, closedFees := SumBy(trips, TripGross), SumBy(trips, TripFee);
    Evidence(|fills|, |trips|, |book.Lots()|, SumBy(fills, FillNotional), gross, closedFees, SumBy(book.Lots(), LotFee),
             gross - closedFees, SumBy(trips, TripGain),
             if expected.pricePnl.None? || expected.feeCost.None? || (exists k :: k in book.stacks && book.stacks[k] != []) then None
             else Some(gross == expected.pricePnl.value && closedFees == expected.feeCost.value),
             trips)
  }

  lemma SortedStaysValid(fills: seq<Fill>)
    requires AllValid(fills)
    ensures AllValid(Sorting.Sort(NotAfter, fills))
  {
    var ordered := Sorting.Sort(NotAfter, fills);
    forall i | 0 <= i < |ordered| ensures ordered[i].Valid() { Sorting.SortKeeps(NotAfter, fills, ordered[i]); }
  }

  function Evaluate(fills: seq<Fill>, expected: Expectation): Result<Evidence, EvaluationError>
    requires AllValid(fills)
  {
    SortedStaysValid(fills);
    var ordered := Sorting.Sort(NotAfter, fills);
    if expected.pricePnl.None? != expected.feeCost.None? then Err(HalfExpectation)
    else if !DistinctIds(fills) then Err(DuplicateFillId)
    else match Replay(ordered)
      case Failed => Err(MultiplierConflict)
      case Running(book, trips) => Ok(Summarize(ordered, book, trips, expected))
  }

  lemma {:induction false} OpenLotIsListed(keys: seq<Key>, stacks: map<Key, seq<Lot>>, k: Key)
    requires k in keys && k in stacks && stacks[k] != []
    ensures Gather(keys, stacks) != []
  {
    var n := |keys| - 1;
    if keys[n] != k { OpenLotIsListed(keys[..n], stacks, k); }
  }

  lemma OpenIffNotFlat(fills: seq<Fill>)
    requires AllValid(fills) && Replay(fills).Running?
    ensures
      var book := Replay(fills).book;
      (exists k :: k in book.stacks && book.stacks[k] != []) <==> !Flat(fills)
  {
    var book := Replay(fills).book;
    if k :| Position(fills, k) != 0.0 {
      StacksMirrorPositions(fills, k);
      assert k in book.stacks && book.stacks[k] != [];
    }
    if k :| k in book.stacks && book.stacks[k] != [] {
      StacksMirrorPositions(fills, k);
      assert Position(fills, k) != 0.0;
    }
  }

  /** What the evidence totals, in terms of the fills alone. */
  lemma {:induction false} EvidenceConserves(fills: seq<Fill>, expected: Expectation)
    requires AllValid(fills) && Evaluate(fills, expected).Ok?
    ensures
      var e := Evaluate(fills, expected).value;
      && e.fillCount == |fills| && e.roundTripCount + e.openLotCount <= |fills|
      && e.grossTurnover == SumBy(fills, FillNotional)
      && e.closedFeeCost + e.openFeeCost == SumBy(fills, FillFee)
  {
    SortedStaysValid(fills);
    var ordered := Sorting.Sort(NotAfter, fills);
    CountsAreBounded(ordered);
    FeesAreConserved(ordered);
    SumPermutation(ordered, fills, FillNotional);
    SumPermutation(ordered, fills, FillFee);
  }

  /**
   The account is declared reconciled exactly when an expectation was given, every position is flat, and the
   expectation equals the money the fills moved.
   */
  lemma {:induction false} ReconciledExactlyWhen(fills: seq<Fill>, expected: Expectation)
    requires AllValid(fills) && Evaluate(fills, expected).Ok?
    ensures Evaluate(fills, expected).value.reconciled
            == (if expected.pricePnl.None? || !Flat(fills) then None
                else Some(expected.pricePnl.value == -SumBy(fills, FillSignedNotional)
                          && expected.feeCost.value == SumBy(fills, FillFee)))
  {
    hide Replay, Flat, SumBy, Sorting.Sort;
    SortedStaysValid(fills);
    var ordered := Sorting.Sort(NotAfter, fills);
    OpenIffNotFlat(ordered);
    FlatIgnoresOrder(ordered, fills);
    if Flat(ordered) { FlatMoney(ordered, fills); }
  }

  lemma FlatMoney(ordered: seq<Fill>, fills: seq<Fill>)
    requires AllValid(ordered) && Replay(ordered).Running? && multiset(ordered) == multiset(fills) && Flat(ordered)
    ensures SumBy(Replay(ordered).trips, TripGross) == -SumBy(fills, FillSignedNotional)
    ensures SumBy(Replay(ordered).trips, TripFee) == SumBy(fills, FillFee)
  {
    FlatTotals(ordered);
    SumPermutation(ordered, fills, FillFee);
    SumPermutation(ordered, fills, FillSignedNotional);
  }

  lemma FlatIgnoresOrder(xs: seq<Fill>, ys: seq<Fill>)
    requires multiset(xs) == multiset(ys)
    ensures Flat(xs) <==> Flat(ys)
  {
    forall k ensures Position(xs, k) == Position(ys, k) { SumPermutation(xs, ys, Contribution(k)); }
    if Flat(xs) {
      forall k ensures Position(ys, k) == 0.0 { assert Position(xs, k) == 0.0; }
    }
    if Flat(ys) {
      forall k ensures Position(xs, k) == 0.0 { assert Position(ys, k) == 0.0; }
    }
  }

  function FillKey(fill: Fill): int { fill.fillId }

  lemma OrderIsTotal(fills: seq<Fill>)
    requires DistinctIds(fills)
    ensures Sorting.TotalOn(NotAfter, set fill | fill in fills)
  {
    forall a, b | a in fills && b in fills && NotAfter(a, b) && NotAfter(b, a) ensures a == b {
      var i :| 0 <= i < |fills| && fills[i] == a;
      var j :| 0 <= j < |fills| && fills[j] == b;
    }
  }

  /** The evidence is a function of the set of fills: the order in which they are supplied is irrelevant. */
  lemma {:induction false} EvidenceIgnoresInputOrder(xs: seq<Fill>, ys: seq<Fill>, expected: Expectation)
    requires AllValid(xs) && AllValid(ys) && multiset(xs) == multiset(ys)
    ensures Evaluate(xs, expected) == Evaluate(ys, expected)
  {
    if DistinctIds(xs) {
      Sorting.DistinctIgnoresOrder(FillKey, xs, ys);
      OrderIsTotal(xs);
      Sorting.SortIgnoresOrder(NotAfter, xs, ys);
    } else if DistinctIds(ys) {
      Sorting.DistinctIgnoresOrder(FillKey, ys, xs);
    }
  }

  // ----- The algorithm

  /** An open lot, consumed in place. */
  class OpenExecutionLot {
    const fill: Fill
    var remainingQuantity: real
    var remainingFee: real

    constructor (fill: Fill, quantity: real, fee: real)
      ensures this.fill == fill && remainingQuantity == quantity && remainingFee == fee
    {
      this.fill, remainingQuantity, remainingFee := fill, quantity, fee;
    }

    function View(): Lot
      reads this
    {
      Lot(fill, remainingQuantity, remainingFee)
    }
  }

  function Views(lots: seq<OpenExecutionLot>): (r: seq<Lot>)
    reads lots
    ensures |r| == |lots| && forall i :: 0 <= i < |lots| ==> r[i] == lots[i].View()
  {
    if lots == [] then [] else Views(lots[..|lots| - 1]) + [lots[|lots| - 1].View()]
  }

  predicate Separate(lots: seq<OpenExecutionLot>)
  {
    forall i, j :: 0 <= i < j < |lots| ==> lots[i] != lots[j]
  }

  /** Matches the incoming fill against the top lot, which leaves the stack when it is used up. */
  method MatchTop(lots: seq<OpenExecutionLot>, incoming: Lot)
    returns (left: seq<OpenExecutionLot>, rest: Lot, trip: RoundTrip)
    requires lots != [] && Separate(lots) && Positive(Views(lots)) && incoming.quantity > 0.0
    modifies lots[|lots| - 1]
    ensures left <= lots && Views(left) == old(Below(Views(lots), Matched(lots[|lots| - 1].View(), incoming)))
    ensures rest == old(Rest(incoming, Matched(lots[|lots| - 1].View(), incoming)))
    ensures trip == old(Trip(lots[|lots| - 1].View(), incoming))
  {
    var n := |lots| - 1;
    var lot := lots[n];
    var matched := MinR(lot.remainingQuantity, incoming.quantity);
    var entryFee := Allocate(lot.remainingFee, matched, lot.remainingQuantity);
    var exitFee := Allocate(incoming.fee, matched, incoming.quantity);
    trip := RoundTripOf(lot.fill, incoming.fill, matched, entryFee + exitFee);
    lot.remainingQuantity, lot.remainingFee := lot.remainingQuantity - matched, lot.remainingFee - entryFee;
    rest := Lot(incoming.fill, incoming.quantity - matched, incoming.fee - exitFee);
    left := if lot.remainingQuantity == 0.0 then lots[..n] else lots;
    ViewsUnchanged(lots[..n]);
  }

  twostate lemma ViewsUnchanged(lots: seq<OpenExecutionLot>)
    requires forall i :: 0 <= i < |lots| ==> unchanged(lots[i])
    ensures Views(lots) == old(Views(lots))
  {
  }

  lemma OneMatch(trips: seq<RoundTrip>, lots: seq<Lot>, incoming: Lot)
    requires lots != [] && Positive(lots) && incoming.quantity > 0.0
    requires lots[|lots| - 1].fill.side != incoming.fill.side
    requires lots[|lots| - 1].fill.multiplier == incoming.fill.multiplier
    ensures
      var lot := lots[|lots| - 1];
      var matched := Matched(lot, incoming);
      Prepend(trips + [Trip(lot, incoming)], Absorb(Below(lots, matched), Rest(incoming, matched)))
      == Prepend(trips, Absorb(lots, incoming))
  {
    var lot := lots[|lots| - 1];
    var matched := Matched(lot, incoming);
    var later := Absorb(Below(lots, matched), Rest(incoming, matched));
    if later.Absorbed? {
      assert trips + [Trip(lot, incoming)] + later.trips == trips + ([Trip(lot, incoming)] + later.trips);
    }
  }

  /** Matches a fill against the opposite lots on top of a stack; `rest` is what found no match. */
  method MatchOpposite(lots: seq<OpenExecutionLot>, fill: Fill)
    returns (left: seq<OpenExecutionLot>, trips: seq<RoundTrip>, rest: Lot, ok: bool)
    requires fill.Valid() && Separate(lots) && Positive(Views(lots))
    modifies lots
    ensures left <= lots && Positive(Views(left)) && rest.fill == fill && rest.quantity >= 0.0
    ensures Prepend(trips, Absorb(Views(left), rest)) == old(Absorb(Views(lots), Whole(fill)))
    ensures ok ==> left == [] || rest.quantity == 0.0 || left[|left| - 1].fill.side == fill.side
    ensures !ok ==> Absorb(Views(left), rest).MultiplierChanged?
  {
    rest := Whole(fill);
    left, trips, ok := lots, [], true;
    ghost var goal := Absorb(Views(lots), rest);
    assert Prepend([], goal) == goal;
    while left != [] && rest.quantity > 0.0
      invariant ok && rest.fill == fill && rest.quantity >= 0.0 && left <= lots && Positive(Views(left))
      invariant Prepend(trips, Absorb(Views(left), rest)) == goal
      decreases |left|, rest.quantity > 0.0
    {
      var lot := left[|left| - 1];
      if lot.fill.side == fill.side { break; }
      if lot.fill.multiplier != fill.multiplier {
        ok := false;
        return;
      }
      OneMatch(trips, Views(left), rest);
      var trip;
      left, rest, trip := MatchTop(left, rest);
      trips := trips + [trip];
    }
  }

  /** Absorbs one fill into one stack, in place. */
  method MatchFill(lots: seq<OpenExecutionLot>, fill: Fill)
    returns (left: seq<OpenExecutionLot>, trips: seq<RoundTrip>, ok: bool)
    requires fill.Valid() && Separate(lots) && Positive(Views(lots))
    modifies lots
    ensures ok == old(Absorb(Views(lots), Whole(fill))).Absorbed?
    ensures ok ==> old(Absorb(Views(lots), Whole(fill))) == Absorbed(Views(left), trips)
    ensures left <= lots || (left[..|left| - 1] <= lots && fresh(left[|left| - 1]))
  {
    var rest;
    left, trips, rest, ok := MatchOpposite(lots, fill);
    if ok && rest.quantity > 0.0 {
      ghost var before := left;
      ghost var views := Views(left);
      var pushed := new OpenExecutionLot(fill, rest.quantity, rest.fee);
      left := left + [pushed];
      assert Views(left) == views + [rest];
    }
  }

  type Stacks = map<Key, seq<OpenExecutionLot>>

  /** Where a lot object lives: the inverse of the stacks, so that no object sits in two places. */
  type Places = map<OpenExecutionLot, (Key, nat)>

  ghost predicate Placed(stacks: Stacks, places: Places)
  {
    forall k, i :: k in stacks && 0 <= i < |stacks[k]| ==>
      stacks[k][i] in places && places[stacks[k][i]] == (k, i)
  }

  ghost predicate Mirrors(stacks: Stacks, book: Book, places: Places)
    requires Placed(stacks, places)
    reads places.Keys
  {
    && stacks.Keys == book.stacks.Keys
    && forall k :: k in stacks ==> Views(stacks[k]) == book.stacks[k]
  }

  lemma {:induction false} FailureSticks(fills: seq<Fill>, i: nat)
    requires AllValid(fills) && i <= |fills| && Replay(fills[..i]).Failed?
    ensures Replay(fills).Failed?
  {
    if i == |fills| {
      assert fills[..i] == fills;
    } else {
      var n := |fills| - 1;
      assert fills[..n][..i] == fills[..i];
      FailureSticks(fills[..n], i);
    }
  }

  ghost function Place(places: Places, k: Key, left: seq<OpenExecutionLot>): Places
  {
    if left == [] then places else places[left[|left| - 1] := (k, |left| - 1)]
  }

  lemma PlacedPut(stacks: Stacks, places: Places, k: Key, stack: seq<OpenExecutionLot>, left: seq<OpenExecutionLot>)
    requires Placed(stacks, places) && stack == if k in stacks then stacks[k] else []
    requires left <= stack || (left[..|left| - 1] <= stack && left[|left| - 1] !in places)
    ensures Placed(stacks[k := left], Place(places, k, left))
  {
    var after, moved := stacks[k := left], Place(places, k, left);
    forall l, i | l in after && 0 <= i < |after[l]| ensures after[l][i] in moved && moved[after[l][i]] == (l, i) {
      if l != k {
        assert stacks[l][i] in places && places[stacks[l][i]] == (l, i);
      } else if i < |stack| {
        assert stacks[k][i] in places && places[stacks[k][i]] == (k, i);
      }
    }
  }

  /** Routes one fill to the stack of its key. */
  method ProcessFill(stacks: Stacks, fill: Fill, ghost book: Book, ghost places: Places)
    returns (after: Stacks, trips: seq<RoundTrip>, ok: bool, ghost placesAfter: Places)
    requires fill.Valid() && book.Valid() && Placed(stacks, places) && Mirrors(stacks, book, places)
    modifies places.Keys
    ensures ok == Absorb(book.Stack(fill.key), Whole(fill)).Absorbed?
    ensures fresh(placesAfter.Keys - places.Keys) && Placed(after, placesAfter)
    ensures ok ==> trips == Absorb(book.Stack(fill.key), Whole(fill)).trips
    ensures ok ==> Mirrors(after, book.Put(fill.key, Absorb(book.Stack(fill.key), Whole(fill)).lots), placesAfter)
  {
    hide Absorb, Views;
    var stack := if fill.key in stacks then stacks[fill.key] else [];
    assert Separate(stack) by {
      assert forall i :: 0 <= i < |stack| ==> places[stack[i]] == (fill.key, i);
    }
    var left;
    left, trips, ok := MatchFill(stack, fill);
    after := stacks[fill.key := left];
    placesAfter := Place(places, fill.key, left);
    PlacedPut(stacks, places, fill.key, stack, left);
    forall l | l in stacks && l != fill.key ensures Views(stacks[l]) == book.stacks[l] {
      forall i | 0 <= i < |stacks[l]| ensures stacks[l][i] !in stack {
        assert places[stacks[l][i]] == (l, i);
      }
      ViewsUnchanged(stacks[l]);
    }
  }

  lemma ReplayOneMore(fills: seq<Fill>, i: nat)
    requires AllValid(fills) && i < |fills| && Replay(fills[..i]).Running?
    ensures
      var Running(book, trips) := Replay(fills[..i]);
      var a := Absorb(book.Stack(fills[i].key), Whole(fills[i]));
      if a.MultiplierChanged? then Replay(fills).Failed?
      else Replay(fills[..i + 1]) == Running(book.Put(fills[i].key, a.lots), trips + a.trips)
  {
    assert fills[..i + 1][..i] == fills[..i];
    if Replay(fills[..i + 1]).Failed? { FailureSticks(fills, i + 1); }
  }

  method Freeze(lots: Stacks, ghost book: Book, ghost places: Places) returns (stacks: map<Key, seq<Lot>>)
    requires Placed(lots, places) && Mirrors(lots, book, places)
    ensures stacks == book.stacks
  {
    stacks := map k | k in lots :: Views(lots[k]);
  }

  /** Processes the fills first to last over mutable stacks. */
  method ReplayInPlace(fills: seq<Fill>) returns (keys: seq<Key>, stacks: map<Key, seq<Lot>>, trips: seq<RoundTrip>, ok: bool)
    requires AllValid(fills)
    ensures Replay(fills) == if ok then Running(Book(keys, stacks), trips) else Failed
  {
    assert Replay(fills[..0]) == Running(Book([], map[]), []);
    hide Absorb, Replay, Views;
    var lots: Stacks := map[];
    keys, stacks, trips, ok := [], map[], [], true;
    ghost var book, places: Places := Book([], map[]), map[];
    for i := 0 to |fills|
      invariant ok && Replay(fills[..i]) == Running(book, trips) && keys == book.keys
      invariant fresh(places.Keys) && Placed(lots, places) && Mirrors(lots, book, places)
    {
      ReplayOneMore(fills, i);
      keys := if fills[i].key in lots then keys else keys + [fills[i].key];
      var more;
      lots, more, ok, places := ProcessFill(lots, fills[i], book, places);
      if !ok { return; }
      trips := trips + more;
      book := book.Put(fills[i].key, Absorb(book.Stack(fills[i].key), Whole(fills[i])).lots);
    }
    assert fills[..|fills|] == fills;
    stacks := Freeze(lots, book, places);
  }

  /** Reconstructs the round trips of all fills and summarizes them. */
  method EvaluateTradingCost(fills: seq<Fill>, expected: Expectation) returns (r: Result<Evidence, EvaluationError>)
    requires AllValid(fills)
    ensures r == Evaluate(fills, expected)
  {
    if expected.pricePnl.None? != expected.feeCost.None? { return Err(HalfExpectation); }
    if !DistinctIds(fills) { return Err(DuplicateFillId); }
    SortedStaysValid(fills);
    var ordered := Sorting.Sort(NotAfter, fills);
    var keys, stacks, trips, ok := ReplayInPlace(ordered);
    r := if ok then Ok(Summarize(ordered, Book(keys, stacks), trips, expected)) else Err(MultiplierConflict);
  }
}
