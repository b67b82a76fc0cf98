/** One position row over every interleaving of fills with the monitor's reads, checks and write-backs. */
module PositionHistory {
  import opened Domain
  import opened Positions

  datatype RowEvent =
    | Fill(trade: Trade, stopPercent: Option<real>, targetPercent: Option<real>)
    | Read                                                         // the monitor reads the open positions
    | CheckCopy(price: real, trailing: Option<real>, landed: bool) // and checks the copy it has

  datatype RowState = RowState(row: Option<Position>, copy: Option<Position>)

  predicate Checks(s: RowState, e: RowEvent) {
    e.CheckCopy? && s.row.Some? && s.copy.Some?
  }

  function RowStep(s: RowState, e: RowEvent): RowState {
    match e
    case Fill(trade, stopPercent, targetPercent) =>
      var r := Upserted(s.row, trade, stopPercent, targetPercent);
      if r.None? then s else s.(row := r)
    case Read => s.(copy := if s.row.Some? && s.row.value.quantity > 0.0 then s.row else None)
    case CheckCopy(price, trailing, landed) =>
      if Checks(s, e) then RowState(Some(Polled(s.row.value, s.copy.value, price, trailing, landed)), None) else s
  }

  function After(events: seq<RowEvent>): RowState {
    if events == [] then RowState(None, None)
    else RowStep(After(events[..|events| - 1]), events[|events| - 1])
  }

  /** Prices, quantities and percentages are positive. */
  predicate ValidEvent(e: RowEvent) {
    match e
    case Fill(trade, stopPercent, targetPercent) =>
      && trade.quantity > 0.0 && trade.price > 0.0
      && (stopPercent.Some? ==> stopPercent.value > 0.0) && (targetPercent.Some? ==> targetPercent.value > 0.0)
    case Read => true
    case CheckCopy(price, trailing, _) => price > 0.0 && (trailing.Some? ==> trailing.value > 0.0)
  }

  predicate Valid(events: seq<RowEvent>) {
    forall i :: 0 <= i < |events| ==> ValidEvent(events[i])
  }

  // ================================================================ the marks never cross

  /** Longs: stop < high-water mark < target; shorts the reverse. */
  predicate Banded(p: Position) {
    && p.highWater > 0.0
    && (p.stopLoss.Some? ==> Tighter(p.side, p.highWater, p.stopLoss.value))
    && (p.takeProfit.Some? ==> Tighter(p.side, p.takeProfit.value, p.highWater))
  }

  lemma MovedIsStrict(price: real, percent: real)
    requires price > 0.0 && percent > 0.0
    ensures Moved(price, percent, true) > price > Moved(price, percent, false)
  {
    assert price * (percent / 100.0) > 0.0;
  }

  lemma InsertedIsBanded(t: Trade, stopPercent: Option<real>, targetPercent: Option<real>)
    requires ValidEvent(Fill(t, stopPercent, targetPercent))
    ensures Banded(Inserted(t, stopPercent, targetPercent))
  {
    if stopPercent.Some? { MovedIsStrict(t.price, stopPercent.value); }
    if targetPercent.Some? { MovedIsStrict(t.price, targetPercent.value); }
  }

  /** On a banded copy stop-loss and take-profit are never both hit, and a copy that holds stays banded. */
  lemma CheckOfBanded(p: Position, price: real, trailing: Option<real>)
    requires Banded(p) && price > 0.0 && (trailing.Some? ==> trailing.value > 0.0)
    ensures var c := Checked(p, price, trailing);
            !(StopHit(c, price) && TargetHit(c, price)) && (VerdictOn(c, price).Hold? ==> Banded(c))
  {
    if trailing.Some? { MovedIsStrict(price, trailing.value); }
  }

  lemma {:induction false} RowsAreBanded(events: seq<RowEvent>)
    requires Valid(events)
    ensures var s := After(events);
            && (s.row.Some? ==> Banded(s.row.value))
            && (s.copy.Some? ==> Banded(s.copy.value) && s.row.Some? && s.row.value.side == s.copy.value.side)
  {
    if events != [] {
      var before, e := events[..|events| - 1], events[|events| - 1];
      RowsAreBanded(before);
      match e
      case Fill(trade, stopPercent, targetPercent) => InsertedIsBanded(trade, stopPercent, targetPercent);
      case Read =>
      case CheckCopy(price, trailing, landed) =>
        if Checks(After(before), e) { CheckOfBanded(After(before).copy.value, price, trailing); }
    }
  }

  /** So the order in which a check looks at the two limits makes no difference, in any history. */
  lemma StopAndTargetNeverBothHit(events: seq<RowEvent>, price: real, trailing: Option<real>)
    requires Valid(events) && After(events).copy.Some?
    requires price > 0.0 && (trailing.Some? ==> trailing.value > 0.0)
    ensures var c := Checked(After(events).copy.value, price, trailing); !(StopHit(c, price) && TargetHit(c, price))
  {
    RowsAreBanded(events);
    CheckOfBanded(After(events).copy.value, price, trailing);
  }

  // ================================================================ the stop only tightens

  /** Fills leave the marks alone, so the monitor's copy never holds stale ones. */
  lemma {:induction false} CopyHasTheMarks(events: seq<RowEvent>)
    ensures var s := After(events); s.copy.Some? ==> s.row.Some? && SameMarks(s.copy.value, s.row.value)
  {
    if events != [] { CopyHasTheMarks(events[..|events| - 1]); }
  }

  /**
   Whatever comes in between (fills, changes of the trailing percentage, closes and fills that reopen): once a row has
   a stop it keeps one, on the same side, and no event moves it against the position.
   */
  lemma {:induction false} StopOnlyTightens(events: seq<RowEvent>, n: nat)
    requires n <= |events| && After(events[..n]).row.Some? && After(events[..n]).row.value.stopLoss.Some?
    ensures var before, after := After(events[..n]).row.value, After(events).row;
            && after.Some? && after.value.side == before.side && after.value.stopLoss.Some?
            && !Tighter(before.side, before.stopLoss.value, after.value.stopLoss.value)
    decreases |events| - n
  {
    if n == |events| {
      assert events[..n] == events;
    } else {
      assert events[..n + 1][..n] == events[..n];
      CopyHasTheMarks(events[..n]);
      StopOnlyTightens(events, n + 1);
    }
  }

  // ================================================================ quantity and average against the fills

  /** Fills have a positive quantity; prices and percentages may be anything. */
  predicate FillsHaveSize(events: seq<RowEvent>) {
    forall i :: 0 <= i < |events| && events[i].Fill? ==> events[i].trade.quantity > 0.0
  }

  function Quantity(trades: seq<Trade>): real {
    if trades == [] then 0.0 else Quantity(trades[..|trades| - 1]) + trades[|trades| - 1].quantity
  }

  function Value(trades: seq<Trade>): real {
    if trades == [] then 0.0
    else Value(trades[..|trades| - 1]) + trades[|trades| - 1].quantity * trades[|trades| - 1].price
  }

  /** The check closes the position and zeroes the row. */
  predicate Zeroes(s: RowState, e: RowEvent) {
    Checks(s, e) && e.landed && VerdictOn(Checked(s.copy.value, e.price, e.trailing), e.price) != Hold
  }

  /** The fills since the row was last zeroed. */
  function SinceZeroed(events: seq<RowEvent>): seq<Trade> {
    if events == [] then []
    else
      var before, e := events[..|events| - 1], events[|events| - 1];
      if e.Fill? then SinceZeroed(before) + [e.trade]
      else if Zeroes(After(before), e) then []
      else SinceZeroed(before)
  }

  predicate Within(trades: seq<Trade>, lo: real, hi: real) {
    forall i :: 0 <= i < |trades| ==> lo <= trades[i].price <= hi
  }

  lemma NotNegative(x: real, f: real)
    requires f >= 0.0 && (f > 0.0 ==> x >= 0.0)
    ensures x * f >= 0.0
  {
    if f > 0.0 {
      Scaled(0.0, x, f);
    } else {
      assert x * 0.0 == 0.0;
    }
  }

  lemma SumAbove(q: real, a: real, r: real, p: real, lo: real)
    requires q >= 0.0 && r > 0.0 && (q > 0.0 ==> lo <= a) && lo <= p
    ensures lo * (q + r) <= a * q + p * r
  {
    NotNegative(a - lo, q);
    NotNegative(p - lo, r);
  }

  lemma SumBelow(q: real, a: real, r: real, p: real, hi: real)
    requires q >= 0.0 && r > 0.0 && (q > 0.0 ==> a <= hi) && p <= hi
    ensures a * q + p * r <= hi * (q + r)
  {
    NotNegative(hi - a, q);
    NotNegative(hi - p, r);
  }

  lemma QuotientBounds(sum: real, total: real, lo: real, hi: real)
    requires total > 0.0 && lo * total <= sum <= hi * total
    ensures lo <= sum / total <= hi
  {
    assert (sum - lo * total) / total == sum / total - lo;
    assert (hi * total - sum) / total == hi - sum / total;
  }

  lemma TimesQuotient(sum: real, total: real)
    requires total != 0.0
    ensures total * (sum / total) == sum
  {
  }

  /** A weighted mean weighs as much as its parts and lies between them. */
  lemma MeanIsBetween(q: real, a: real, r: real, p: real, lo: real, hi: real)
    requires q >= 0.0 && r > 0.0
    ensures (q + r) * Mean(q, a, r, p) == q * a + r * p
    ensures (q > 0.0 ==> lo <= a <= hi) && lo <= p <= hi ==> lo <= Mean(q, a, r, p) <= hi
  {
    TimesQuotient(a * q + p * r, q + r);
    if (q > 0.0 ==> lo <= a <= hi) && lo <= p <= hi {
      SumAbove(q, a, r, p, lo);
      SumBelow(q, a, r, p, hi);
      QuotientBounds(a * q + p * r, q + r, lo, hi);
    }
  }

  /** Quantity and average are those of the trades; the average lies within any bounds on their prices. */
  predicate MatchesTrades(quantity: real, average: real, trades: seq<Trade>, lo: real, hi: real) {
    && quantity == Quantity(trades) >= 0.0
    && quantity * average == Value(trades)
    && (trades != [] ==> quantity > 0.0)
    && (trades != [] && Within(trades, lo, hi) ==> lo <= average <= hi)
  }

  lemma OneMoreTrade(trades: seq<Trade>, t: Trade, lo: real, hi: real)
    ensures var trades' := trades + [t];
            && Quantity(trades') == Quantity(trades) + t.quantity
            && Value(trades') == Value(trades) + t.quantity * t.price
            && (Within(trades', lo, hi) <==> Within(trades, lo, hi) && lo <= t.price <= hi)
  {
    var trades' := trades + [t];
    assert trades'[..|trades'| - 1] == trades && trades'[|trades|] == t;
    assert forall i :: 0 <= i < |trades| ==> trades'[i] == trades[i];
  }

  lemma OneMoreMatches(q: real, a: real, trades: seq<Trade>, t: Trade, mean: real, lo: real, hi: real)
    requires MatchesTrades(q, a, trades, lo, hi) && t.quantity > 0.0
    requires (q + t.quantity) * mean == q * a + t.quantity * t.price
    requires (q > 0.0 ==> lo <= a <= hi) && lo <= t.price <= hi ==> lo <= mean <= hi
    ensures MatchesTrades(q + t.quantity, mean, trades + [t], lo, hi)
  {
    OneMoreTrade(trades, t, lo, hi);
    assert trades == [] ==> q == 0.0;
  }

  lemma AveragedMatches(p: Position, trades: seq<Trade>, t: Trade, lo: real, hi: real)
    requires MatchesTrades(p.quantity, p.average, trades, lo, hi) && t.quantity > 0.0
    ensures var q := Averaged(p, t); MatchesTrades(q.quantity, q.average, trades + [t], lo, hi)
  {
    MeanIsBetween(p.quantity, p.average, t.quantity, t.price, lo, hi);
    OneMoreMatches(p.quantity, p.average, trades, t, Mean(p.quantity, p.average, t.quantity, t.price), lo, hi);
  }

  lemma InsertedMatches(t: Trade, stopPercent: Option<real>, targetPercent: Option<real>, lo: real, hi: real)
    requires t.quantity > 0.0
    ensures var q := Inserted(t, stopPercent, targetPercent); MatchesTrades(q.quantity, q.average, [t], lo, hi)
  {
    OneMoreTrade([], t, lo, hi);
    assert [] + [t] == [t];
  }

  lemma PollKeepsOrZeroes(s: RowState, e: RowEvent)
    requires Checks(s, e)
    ensures var r, r' := s.row.value, RowStep(s, e).row.value;
            r'.average == r.average && r'.quantity == if Zeroes(s, e) then 0.0 else r.quantity
  {
  }

  /**
   Whatever the monitor writes in between, the row's quantity is the sum of the fills since it was last zeroed, its
   average is their quantity-weighted mean price, and the average lies between their lowest and highest price.
   */
  lemma {:induction false} RowMatchesFills(events: seq<RowEvent>, lo: real, hi: real)
    requires FillsHaveSize(events)
    ensures var s, trades := After(events), SinceZeroed(events);
            if s.row.None? then trades == []
            else MatchesTrades(s.row.value.quantity, s.row.value.average, trades, lo, hi)
  {
    if events != [] {
      var before, e := events[..|events| - 1], events[|events| - 1];
      var s := After(before);
      RowMatchesFills(before, lo, hi);
      match e
      case Fill(trade, stopPercent, targetPercent) =>
        assert e.trade.quantity > 0.0;
        if s.row.Some? {
          AveragedMatches(s.row.value, SinceZeroed(before), trade, lo, hi);
        } else {
          InsertedMatches(trade, stopPercent, targetPercent, lo, hi);
          assert [] + [trade] == [trade];
        }
      case Read =>
      case CheckCopy(price, trailing, landed) =>
        if Checks(s, e) { PollKeepsOrZeroes(s, e); }
    }
  }

  // ================================================================ what a close discards

  /** The fills since the monitor's last read. */
  function SinceRead(events: seq<RowEvent>): seq<Trade> {
    if events == [] || events[|events| - 1].Read? then []
    else
      var before, e := events[..|events| - 1], events[|events| - 1];
      if e.Fill? then SinceRead(before) + [e.trade] else SinceRead(before)
  }

  /** While the monitor holds a copy, the row is ahead of it by exactly the fills since it was read. */
  lemma {:induction false} CopyLagsByFillsSinceRead(events: seq<RowEvent>)
    requires FillsHaveSize(events) && After(events).copy.Some?
    ensures After(events).row.Some?
    ensures After(events).row.value.quantity == After(events).copy.value.quantity + Quantity(SinceRead(events))
  {
    var before, e := events[..|events| - 1], events[|events| - 1];
    if !e.Read? {
      CopyLagsByFillsSinceRead(before);
      if e.Fill? {
        OneMoreTrade(SinceRead(before), e.trade, 0.0, 0.0);
        RowMatchesFills(before, 0.0, 0.0);
      }
    }
  }

  /** What `close_position` sells: the quantity of the copy it was given. */
  function Sold(s: RowState): real
    requires s.copy.Some?
  {
    s.copy.value.quantity
  }

  /**
   A check that closes sells the quantity of its copy and leaves a row of quantity zero: what the row held beyond what
   was sold, and lost, is exactly the quantity of the fills since the copy was read.
   */
  lemma CloseDropsFillsSinceRead(events: seq<RowEvent>, e: RowEvent)
    requires FillsHaveSize(events) && Zeroes(After(events), e)
    ensures var s, s' := After(events), After(events + [e]);
            && s'.row.Some? && s'.row.value.quantity == 0.0
            && s.row.value.quantity - Sold(s) == Quantity(SinceRead(events))
  {
    CopyLagsByFillsSinceRead(events);
    PollKeepsOrZeroes(After(events), e);
    assert (events + [e])[..|events|] == events;
  }

  lemma FillLeavesCopy(s: RowState, e: RowEvent)
    requires e.Fill? && s.row.Some?
    ensures RowStep(s, e).copy == s.copy && RowStep(s, e).row.Some?
  {
  }

  lemma StopAt90IsHit(row: Position)
    requires row == Inserted(Trade(Buy, 1.0, 100.0), Some(10.0), None)
    ensures VerdictOn(Checked(row, 80.0, None), 80.0) == CloseAtStop
  {
    assert row.stopLoss == Some(90.0);
  }

  /** It happens: two fills, the monitor's read between them, and a close at the stop of the first drop the second. */
  lemma CloseCanDropAFill() returns (events: seq<RowEvent>, e: RowEvent)
    ensures Valid(events) && ValidEvent(e) && Zeroes(After(events), e) && Quantity(SinceRead(events)) == 2.0
  {
    var first, second := Fill(Trade(Buy, 1.0, 100.0), Some(10.0), None), Fill(Trade(Buy, 2.0, 100.0), None, None);
    events, e := [first, Read, second], CheckCopy(80.0, None, true);
    var row := Inserted(first.trade, Some(10.0), None);
    var read := RowState(Some(row), Some(row));
    assert events[..2] == [first, Read] && events[..2][..1] == [first] && [first][..0] == [];
    assert After(events[..2]) == read by {
      assert After([first]) == RowState(Some(row), None);
    }
    FillLeavesCopy(read, second);
    assert After(events) == RowStep(read, second);
    StopAt90IsHit(row);
    assert SinceRead(events) == [] + [second.trade];
    OneMoreTrade([], second.trade, 0.0, 0.0);
  }

  // ================================================================ the side of later fills

  /** The fills added up with the row's side counting up and the other side counting down. */
  function Exposure(trades: seq<Trade>, side: Side): real {
    if trades == [] then 0.0
    else
      var last := trades[|trades| - 1];
      Exposure(trades[..|trades| - 1], side) + if last.side == side then last.quantity else -last.quantity
  }

  predicate OneSided(trades: seq<Trade>, side: Side) {
    forall i :: 0 <= i < |trades| ==> trades[i].side == side
  }

  lemma {:induction false} ExposureIsAtMostQuantity(trades: seq<Trade>, side: Side)
    requires forall i :: 0 <= i < |trades| ==> trades[i].quantity > 0.0
    ensures Exposure(trades, side) <= Quantity(trades)
    ensures Exposure(trades, side) == Quantity(trades) <==> OneSided(trades, side)
  {
    if trades != [] {
      var before, last := trades[..|trades| - 1], trades[|trades| - 1];
      ExposureIsAtMostQuantity(before, side);
      assert OneSided(trades, side) <==> OneSided(before, side) && last.side == side;
    }
  }

  lemma {:induction false} SinceZeroedHaveSize(events: seq<RowEvent>)
    requires FillsHaveSize(events)
    ensures forall i :: 0 <= i < |SinceZeroed(events)| ==> SinceZeroed(events)[i].quantity > 0.0
  {
    if events != [] { SinceZeroedHaveSize(events[..|events| - 1]); }
  }

  /**
   A fill adds its quantity whatever its side, also after a close, when the row keeps its old side: the row's quantity
   is the exposure that its fills built up exactly if they all have the row's side.
   */
  lemma QuantityIsExposureIff(events: seq<RowEvent>)
    requires FillsHaveSize(events) && After(events).row.Some?
    ensures var row, trades := After(events).row.value, SinceZeroed(events);
            row.quantity == Exposure(trades, row.side) <==> OneSided(trades, row.side)
  {
    RowMatchesFills(events, 0.0, 0.0);
    SinceZeroedHaveSize(events);
    ExposureIsAtMostQuantity(SinceZeroed(events), After(events).row.value.side);
  }

  /** Buying one and selling one leaves a row of quantity two. */
  lemma OppositeFillsAddUp() returns (events: seq<RowEvent>)
    ensures Valid(events) && After(events).row.Some?
    ensures var row := After(events).row.value; row.quantity == 2.0 && Exposure(SinceZeroed(events), row.side) == 0.0
  {
    var buy, sell := Fill(Trade(Buy, 1.0, 100.0), None, None), Fill(Trade(Sell, 1.0, 100.0), None, None);
    events := [buy, sell];
    assert events[..1] == [buy] && [buy][..0] == [];
    assert After([buy]) == RowState(Some(Inserted(buy.trade, None, None)), None);
    assert SinceZeroed([buy]) == [buy.trade] && SinceZeroed(events) == [buy.trade, sell.trade];
    assert [buy.trade, sell.trade][..1] == [buy.trade] && [buy.trade][..0] == [];
    assert Exposure([buy.trade], Buy) == 1.0;
  }
}
