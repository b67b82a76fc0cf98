/** The incremental trailing stop against a rule that looks at the whole price history. */
module TrailingStop {
  import opened Domain
  import opened Positions

  /** The best price of a non-empty history: the highest for longs, the lowest for shorts. */
  function Best(side: Side, prices: seq<real>): (b: real)
    requires prices != []
    ensures b in prices
    ensures forall p :: p in prices ==> if side.Buy? then p <= b else p >= b
  {
    var last := prices[|prices| - 1];
    if |prices| == 1 then last
    else
      var rest := Best(side, prices[..|prices| - 1]);
      assert forall p :: p in prices <==> p in prices[..|prices| - 1] || p == last;
      if Tighter(side, last, rest) then last else rest
  }

  function Better(side: Side, a: real, b: real): real {
    if Tighter(side, a, b) then a else b
  }

  /** The stop that the history calls for: the trailed best price, once the mark is beaten and if it is tighter. */
  function HistoricStop(p: Position, trailing: Option<real>, prices: seq<real>): Option<real> {
    if trailing.None? || prices == [] || !Beats(p, Best(p.side, prices)) then p.stopLoss
    else
      var trailed := TrailedStop(p.side, Best(p.side, prices), trailing.value);
      Some(if p.stopLoss.None? then trailed else Better(p.side, trailed, p.stopLoss.value))
  }

  function HistoricMark(p: Position, trailing: Option<real>, prices: seq<real>): real {
    if trailing.None? || prices == [] || !Beats(p, Best(p.side, prices)) then p.highWater else Best(p.side, prices)
  }

  /**
   The last price of the history calls for the stop: it has fallen to the stop of the position, or by so many per cent
   from the best price, once that has beaten the mark. For a short it has risen; a mark of zero counts as beaten.
   */
  predicate StopIsDue(p: Position, trailing: Option<real>, prices: seq<real>)
    requires prices != []
  {
    var last, best := prices[|prices| - 1], Best(p.side, prices);
    match p.side
    case Buy =>
      || (p.stopLoss.Some? && last <= p.stopLoss.value)
      || (trailing.Some? && best > p.highWater && 100.0 * last <= (100.0 - trailing.value) * best)
    case Sell =>
      || (p.stopLoss.Some? && last >= p.stopLoss.value)
      || (trailing.Some? && (p.highWater == 0.0 || best < p.highWater)
          && 100.0 * last >= (100.0 + trailing.value) * best)
  }

  /** The price has reached the target. */
  predicate TargetIsDue(p: Position, price: real) {
    p.takeProfit.Some? &&
    match p.side
    case Buy => price >= p.takeProfit.value
    case Sell => price <= p.takeProfit.value
  }

  predicate HistoryCloses(p: Position, trailing: Option<real>, prices: seq<real>)
    requires prices != []
  {
    StopIsDue(p, trailing, prices) || TargetIsDue(p, prices[|prices| - 1])
  }

  /** The trailing factor is not negative: at most 100 percent for longs, any percentage above -100 for shorts. */
  predicate ValidTrailing(side: Side, trailing: Option<real>) {
    trailing.Some? ==> if side.Buy? then trailing.value <= 100.0 else trailing.value >= -100.0
  }

  /** For shorts a mark of zero counts as none, so no price may be zero. */
  predicate ValidPrice(side: Side, price: real) {
    side.Sell? ==> price != 0.0
  }

  predicate ValidPrices(side: Side, prices: seq<real>) {
    forall i :: 0 <= i < |prices| ==> ValidPrice(side, prices[i])
  }

  /** Trailing is monotone in the price, so the best price gives the best stop. */
  lemma TrailedIsMonotone(side: Side, a: real, b: real, percent: real)
    requires ValidTrailing(side, Some(percent)) && !Tighter(side, b, a)
    ensures !Tighter(side, TrailedStop(side, b, percent), TrailedStop(side, a, percent))
  {
    var factor := if side.Buy? then 1.0 - percent / 100.0 else 1.0 + percent / 100.0;
    assert factor >= 0.0;
    if side.Buy? { Scaled(b, a, factor); } else { Scaled(a, b, factor); }
  }

  /** The historic stop is the tighter one of the first stop and the best price moved back by so many per cent. */
  lemma HistoricStopTrails(p: Position, percent: real, prices: seq<real>)
    requires prices != [] && NewBest(p, Best(p.side, prices))
    ensures Trails(p.stopLoss, HistoricStop(p, Some(percent), prices), p.side, Best(p.side, prices), percent)
  {
    MovedIs(Best(p.side, prices), percent, p.side.Sell?);
  }

  /** The last price hits the historic stop exactly if the history calls for it. */
  lemma StopHitIffDue(p: Position, trailing: Option<real>, prices: seq<real>)
    requires prices != []
    ensures StopHit(p.(stopLoss := HistoricStop(p, trailing, prices)), prices[|prices| - 1])
        <==> StopIsDue(p, trailing, prices)
  {
    if trailing.Some? { MovedIs(Best(p.side, prices), trailing.value, p.side.Sell?); }
  }

  /** One more price: the historic mark and stop move exactly as the monitor's ratchet moves them. */
  lemma HistoryStep(p: Position, trailing: Option<real>, prices: seq<real>, price: real)
    requires ValidTrailing(p.side, trailing) && ValidPrices(p.side, prices) && ValidPrice(p.side, price)
    ensures var q := p.(highWater := HistoricMark(p, trailing, prices), stopLoss := HistoricStop(p, trailing, prices));
            var r := if Ratchets(q, price, trailing) then Ratcheted(q, price, trailing.value) else q;
            && HistoricMark(p, trailing, prices + [price]) == r.highWater
            && HistoricStop(p, trailing, prices + [price]) == r.stopLoss
            && (trailing.Some? && NewBest(p, Best(p.side, prices + [price])) ==>
                  Trails(p.stopLoss, r.stopLoss, p.side, Best(p.side, prices + [price]), trailing.value))
  {
    var all := prices + [price];
    assert all[..|all| - 1] == prices && all[|all| - 1] == price;
    if trailing.Some? && NewBest(p, Best(p.side, all)) { HistoricStopTrails(p, trailing.value, all); }
    if prices != [] && trailing.Some? {
      var best := Best(p.side, prices);
      assert best in prices;
      if Tighter(p.side, price, best) {
        TrailedIsMonotone(p.side, price, best, trailing.value);
      }
    }
  }

  /** The monitor's stop never moves against the position. */
  lemma StopNeverLoosens(p: Position, trailing: Option<real>, prices: seq<real>, price: real)
    requires ValidTrailing(p.side, trailing) && ValidPrices(p.side, prices) && ValidPrice(p.side, price)
    requires HistoricStop(p, trailing, prices).Some?
    ensures var before, after := HistoricStop(p, trailing, prices), HistoricStop(p, trailing, prices + [price]);
            after.Some? && !Tighter(p.side, before.value, after.value)
  {
    HistoryStep(p, trailing, prices, price);
  }

  /** The row after a history on which the monitor held, up to what fills change. */
  function AfterHolding(p: Position, trailing: Option<real>, prices: seq<real>): Position {
    p.(highWater := HistoricMark(p, trailing, prices), stopLoss := HistoricStop(p, trailing, prices))
  }

  /**
   The monitor's verdict on the next price is the history's, on any copy with the row's marks. A poll whose writes land
   and that holds adds the price to the history; one whose writes fail leaves the row alone, so its price is forgotten.
   */
  lemma VerdictMatchesHistory(
      p: Position, row: Position, copy: Position, trailing: Option<real>, prices: seq<real>, price: real, landed: bool)
    requires ValidTrailing(p.side, trailing) && ValidPrices(p.side, prices) && ValidPrice(p.side, price)
    requires SameMarks(copy, row) && SameMarks(row, AfterHolding(p, trailing, prices))
    ensures var verdict := VerdictOn(Checked(copy, price, trailing), price);
            var after := Polled(row, copy, price, trailing, landed);
            && (verdict == CloseAtStop <==> StopIsDue(p, trailing, prices + [price]))
            && (verdict != Hold <==> HistoryCloses(p, trailing, prices + [price]))
            && (!landed ==> after == row)
            && (landed && verdict == Hold ==> SameMarks(after, AfterHolding(p, trailing, prices + [price])))
            && (landed && verdict != Hold ==> after.quantity == 0.0 && SameMarks(after, row))
  {
    HistoryStep(p, trailing, prices, price);
    StopHitIffDue(p, trailing, prices + [price]);
  }

  /** The prices before index `i` whose polls could write. */
  function Kept(prices: seq<real>, landed: seq<bool>, i: nat): seq<real>
    requires i <= |prices| == |landed|
  {
    if i == 0 then [] else Kept(prices, landed, i - 1) + if landed[i - 1] then [prices[i - 1]] else []
  }

  lemma {:induction false} KeptAreValid(side: Side, prices: seq<real>, landed: seq<bool>, i: nat)
    requires i <= |prices| == |landed| && ValidPrices(side, prices)
    ensures ValidPrices(side, Kept(prices, landed, i))
  {
    if i > 0 { KeptAreValid(side, prices, landed, i - 1); }
  }

  /** At price `i` the history-based rule closes the position, and the close lands. */
  predicate ClosesAt(p: Position, trailing: Option<real>, prices: seq<real>, landed: seq<bool>, i: nat)
    requires |prices| == |landed|
  {
    i < |prices| && landed[i] && HistoryCloses(p, trailing, Kept(prices, landed, i) + [prices[i]])
  }

  /** The row is as the history of the first `i` prices has it, up to what fills change. */
  predicate Follows(row: Position, p: Position, trailing: Option<real>, prices: seq<real>, landed: seq<bool>, i: nat)
    requires i <= |prices| == |landed|
  {
    SameMarks(row, AfterHolding(p, trailing, Kept(prices, landed, i)))
  }

  lemma OnePollMore(
      p: Position, row: Position, copy: Position, trailing: Option<real>, prices: seq<real>, landed: seq<bool>, i: nat)
    requires i < |prices| == |landed| && ValidTrailing(p.side, trailing) && ValidPrices(p.side, prices)
    requires SameMarks(copy, row) && Follows(row, p, trailing, prices, landed, i)
    ensures var closes := VerdictOn(Checked(copy, prices[i], trailing), prices[i]) != Hold && landed[i];
            && (closes <==> ClosesAt(p, trailing, prices, landed, i))
            && (!closes ==>
                  Follows(Polled(row, copy, prices[i], trailing, landed[i]), p, trailing, prices, landed, i + 1))
  {
    var kept := Kept(prices, landed, i);
    KeptAreValid(p.side, prices, landed, i);
    VerdictMatchesHistory(p, row, copy, trailing, kept, prices[i], landed[i]);
    assert Kept(prices, landed, i + 1) == if landed[i] then kept + [prices[i]] else kept;
  }

  /**
   The monitor polled with one price after another, with fills landing between its reads and its checks and with
   writes that may fail: it closes the position at exactly the first price at which the history-based rule says so and
   the close lands, the history being the prices whose polls could write.
   */
  method WatchPrices(
      p: Position, trailing: Option<real>, prices: seq<real>, landed: seq<bool>, fills: seq<Option<Trade>>)
    returns (closedAt: nat)
    requires ValidTrailing(p.side, trailing) && ValidPrices(p.side, prices) && |landed| == |fills| == |prices|
    ensures closedAt <= |prices|
    ensures forall i :: 0 <= i < closedAt ==> !ClosesAt(p, trailing, prices, landed, i)
    ensures closedAt < |prices| ==> ClosesAt(p, trailing, prices, landed, closedAt)
  {
    var table := new PositionRow();
    table.row := Some(p);
    closedAt := 0;
    while closedAt < |prices|
      invariant closedAt <= |prices| && table.row.Some?
      invariant Follows(table.row.value, p, trailing, prices, landed, closedAt)
      invariant forall i :: 0 <= i < closedAt ==> !ClosesAt(p, trailing, prices, landed, i)
    {
      var copy, price := table.row.value, prices[closedAt];
      if fills[closedAt].Some? {
        var ok := table.UpsertOnFill(fills[closedAt].value, None, None);
      }
      OnePollMore(p, table.row.value, copy, trailing, prices, landed, closedAt);
      var verdict := table.Poll(copy, price, trailing, landed[closedAt]);
      if verdict != Hold && landed[closedAt] { return; }
      closedAt := closedAt + 1;
    }
  }
}
