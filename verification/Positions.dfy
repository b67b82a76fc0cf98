/** The position row: what a fill writes, what the risk monitor computes and writes back. */
module Positions {
  import opened Domain

  datatype Position = Position(
    side: Side,
    quantity: real,
    average: real,
    highWater: real, // for shorts the lowest price seen
    stopLoss: Option<real>,
    takeProfit: Option<real>,
    unrealized: real)

  datatype Trade = Trade(side: Side, quantity: real, price: real)

  /** A factor that is not negative keeps the order. */
  lemma Scaled(a: real, b: real, c: real)
    requires a <= b && c >= 0.0
    ensures a * c <= b * c
  {
    assert (b - a) * c >= 0.0;
  }

  // ---------------------------------------------------------------- fills

  /** `price` moved by `percent` in the given direction. */
  function Moved(price: real, percent: real, up: bool): real {
    if up then price * (1.0 + percent / 100.0) else price * (1.0 - percent / 100.0)
  }

  function Inserted(t: Trade, stopPercent: Option<real>, targetPercent: Option<real>): Position {
    Position(t.side, t.quantity, t.price, t.price,
             if stopPercent.Some? then Some(Moved(t.price, stopPercent.value, t.side.Sell?)) else None,
             if targetPercent.Some? then Some(Moved(t.price, targetPercent.value, t.side.Buy?)) else None,
             0.0)
  }

  /** The mean of `a` and `p`, weighted by `q` and `r`. */
  function Mean(q: real, a: real, r: real, p: real): real
    requires q + r != 0.0
  {
    (a * q + p * r) / (q + r)
  }

  /** On conflict only quantity and average change; the side and the marks stay. */
  function Averaged(p: Position, t: Trade): Position
    requires p.quantity + t.quantity != 0.0
  {
    p.(quantity := p.quantity + t.quantity, average := Mean(p.quantity, p.average, t.quantity, t.price))
  }

  /** `upsert_position_on_fill`; None is the statement failing on a division by zero. */
  function Upserted(row: Option<Position>, t: Trade, stopPercent: Option<real>, targetPercent: Option<real>)
    : Option<Position>
  {
    if row.None? then Some(Inserted(t, stopPercent, targetPercent))
    else if row.value.quantity + t.quantity == 0.0 then None
    else Some(Averaged(row.value, t))
  }

  /** `x` is `price` moved by so many per cent. */
  predicate IsMoved(x: real, price: real, percent: real, up: bool) {
    100.0 * x == (if up then 100.0 + percent else 100.0 - percent) * price
  }

  lemma MovedIs(price: real, percent: real, up: bool)
    ensures IsMoved(Moved(price, percent, up), price, percent, up)
  {
  }

  /** The row that a first fill opens: a long has its stop below the price and its target above, a short the reverse. */
  predicate Opens(p: Position, t: Trade, stopPercent: Option<real>, targetPercent: Option<real>) {
    && p.side == t.side && p.quantity == t.quantity && p.average == t.price && p.highWater == t.price
    && p.unrealized == 0.0
    && (p.stopLoss.Some? <==> stopPercent.Some?) && (p.takeProfit.Some? <==> targetPercent.Some?)
    && (stopPercent.Some? ==> IsMoved(p.stopLoss.value, t.price, stopPercent.value, t.side == Sell))
    && (targetPercent.Some? ==> IsMoved(p.takeProfit.value, t.price, targetPercent.value, t.side == Buy))
  }

  /** Quantity and cost of a later fill are added to those of the row; all else stays. */
  predicate AddsUp(p: Position, q: Position, t: Trade) {
    && q == p.(quantity := q.quantity, average := q.average)
    && q.quantity == p.quantity + t.quantity
    && q.quantity * q.average == p.quantity * p.average + t.quantity * t.price
  }

  lemma AveragedAddsUp(p: Position, t: Trade)
    requires p.quantity + t.quantity != 0.0
    ensures AddsUp(p, Averaged(p, t), t)
  {
    var sum, total := p.average * p.quantity + t.price * t.quantity, p.quantity + t.quantity;
    assert total * (sum / total) == sum;
  }

  /** What a fill leaves in a row. */
  predicate ShowsFill(
      before: Option<Position>, after: Option<Position>, t: Trade, stopPercent: Option<real>,
      targetPercent: Option<real>)
  {
    && after.Some?
    && (before.None? ==> Opens(after.value, t, stopPercent, targetPercent))
    && (before.Some? ==> AddsUp(before.value, after.value, t))
  }

  /** The upsert fails exactly on quantities that cancel out. */
  lemma UpsertShowsFill(row: Option<Position>, t: Trade, stopPercent: Option<real>, targetPercent: Option<real>)
    ensures var r := Upserted(row, t, stopPercent, targetPercent);
            && (r.None? <==> row.Some? && row.value.quantity + t.quantity == 0.0)
            && (r.Some? ==> ShowsFill(row, r, t, stopPercent, targetPercent))
  {
    if row.None? {
      if stopPercent.Some? { MovedIs(t.price, stopPercent.value, t.side.Sell?); }
      if targetPercent.Some? { MovedIs(t.price, targetPercent.value, t.side.Buy?); }
    } else if row.value.quantity + t.quantity != 0.0 {
      AveragedAddsUp(row.value, t);
    }
  }

  // ---------------------------------------------------------------- one check of the monitor

  datatype Verdict = Hold | CloseAtStop | CloseAtTarget

  function Pnl(p: Position, price: real): real {
    if p.side.Buy? then (price - p.average) * p.quantity else (p.average - price) * p.quantity
  }

  /** The price sets a new high-water mark (for shorts a new low; a mark of zero counts as none). */
  predicate Beats(p: Position, price: real) {
    if p.side.Buy? then price > p.highWater else p.highWater == 0.0 || price < p.highWater
  }

  function TrailedStop(side: Side, price: real, percent: real): real {
    Moved(price, percent, side.Sell?)
  }

  /** `a` protects the position better than `b`. */
  predicate Tighter(side: Side, a: real, b: real) {
    if side.Buy? then a > b else a < b
  }

  function Ratcheted(p: Position, price: real, percent: real): Position {
    var stop := TrailedStop(p.side, price, percent);
    p.(highWater := price,
       stopLoss := if p.stopLoss.None? || Tighter(p.side, stop, p.stopLoss.value) then Some(stop) else p.stopLoss)
  }

  predicate Ratchets(p: Position, price: real, trailing: Option<real>) {
    trailing.Some? && Beats(p, price)
  }

  function Checked(p: Position, price: real, trailing: Option<real>): Position {
    var q := p.(unrealized := Pnl(p, price));
    if Ratchets(p, price, trailing) then Ratcheted(q, price, trailing.value) else q
  }

  predicate StopHit(p: Position, price: real) {
    p.stopLoss.Some? && if p.side.Buy? then price <= p.stopLoss.value else price >= p.stopLoss.value
  }

  predicate TargetHit(p: Position, price: real) {
    p.takeProfit.Some? && if p.side.Buy? then price >= p.takeProfit.value else price <= p.takeProfit.value
  }

  function VerdictOn(p: Position, price: real): Verdict {
    if StopHit(p, price) then CloseAtStop else if TargetHit(p, price) then CloseAtTarget else Hold
  }

  /** The price goes beyond the best one so far: above it for a long, below it for a short; a mark of zero is none. */
  predicate NewBest(p: Position, price: real) {
    match p.side
    case Buy => price > p.highWater
    case Sell => price < p.highWater || p.highWater == 0.0
  }

  /** The stop is the tighter one of the old stop and the price moved back by so many per cent. */
  predicate Trails(before: Option<real>, after: Option<real>, side: Side, price: real, percent: real) {
    && after.Some?
    && (after == before || IsMoved(after.value, price, percent, side == Sell))
    && (match side
        case Buy => 100.0 * after.value >= (100.0 - percent) * price && (before.Some? ==> after.value >= before.value)
        case Sell => 100.0 * after.value <= (100.0 + percent) * price && (before.Some? ==> after.value <= before.value))
  }

  /** What a check makes of the position and decides. */
  predicate ChecksOut(p: Position, q: Position, price: real, trailing: Option<real>, verdict: Verdict) {
    && q == p.(highWater := q.highWater, stopLoss := q.stopLoss, unrealized := q.unrealized)
    && q.unrealized == (match p.side case Buy => p.quantity * price - p.quantity * p.average
                                     case Sell => p.quantity * p.average - p.quantity * price)
    && (if trailing.Some? && NewBest(p, price)
        then q.highWater == price && Trails(p.stopLoss, q.stopLoss, p.side, price, trailing.value)
        else q.highWater == p.highWater && q.stopLoss == p.stopLoss)
    && (verdict == CloseAtStop <==>
          q.stopLoss.Some? && match p.side case Buy => price <= q.stopLoss.value case Sell => price >= q.stopLoss.value)
    && (verdict == CloseAtTarget <==>
          verdict != CloseAtStop && p.takeProfit.Some?
          && match p.side case Buy => price >= p.takeProfit.value case Sell => price <= p.takeProfit.value)
  }

  lemma RatchetedTrails(p: Position, price: real, percent: real)
    ensures Trails(p.stopLoss, Ratcheted(p, price, percent).stopLoss, p.side, price, percent)
  {
    MovedIs(price, percent, p.side.Sell?);
  }

  lemma CheckChecksOut(p: Position, price: real, trailing: Option<real>)
    ensures var q := Checked(p, price, trailing); ChecksOut(p, q, price, trailing, VerdictOn(q, price))
  {
    if Ratchets(p, price, trailing) { RatchetedTrails(p.(unrealized := Pnl(p, price)), price, trailing.value); }
  }

  /** `update_position` writes the marks and the pnl, never quantity or average. */
  function WrittenBack(row: Position, p: Position): Position {
    row.(highWater := p.highWater, stopLoss := p.stopLoss, takeProfit := p.takeProfit, unrealized := p.unrealized)
  }

  /** The columns that fills never touch. */
  predicate SameMarks(p: Position, q: Position) {
    p.side == q.side && p.highWater == q.highWater && p.stopLoss == q.stopLoss && p.takeProfit == q.takeProfit
  }

  function Zeroed(row: Position): Position {
    row.(quantity := 0.0, unrealized := 0.0)
  }

  /** What one poll of the monitor leaves in the row, given the copy it read. */
  function Polled(row: Position, copy: Position, price: real, trailing: Option<real>, landed: bool): Position {
    var p := Checked(copy, price, trailing);
    if !landed then row
    else if VerdictOn(p, price).Hold? then (if Ratchets(copy, price, trailing) then WrittenBack(row, p) else row)
    else Zeroed(row)
  }

  /** What a poll leaves in the row: nothing new, the marks and the pnl of the checked copy, or a closed position. */
  predicate Leaves(before: Position, after: Position, checked: Position, verdict: Verdict, best: bool, landed: bool) {
    if verdict != Hold && landed then after == before.(quantity := 0.0, unrealized := 0.0)
    else if verdict == Hold && best && landed then
      after == checked.(side := before.side, quantity := before.quantity, average := before.average)
    else after == before
  }

  ghost predicate PollsAs(
      before: Position, after: Position, copy: Position, price: real, trailing: Option<real>, landed: bool,
      verdict: Verdict)
  {
    exists checked ::
      && ChecksOut(copy, checked, price, trailing, verdict)
      && Leaves(before, after, checked, verdict, trailing.Some? && NewBest(copy, price), landed)
  }

  // ---------------------------------------------------------------- the same, in place

  /** The monitor's own copy of a position, which a check updates in place. */
  class MonitoredPosition {
    const side: Side
    const quantity: real
    const average: real
    var highWater: real
    var stopLoss: Option<real>
    var takeProfit: Option<real>
    var unrealized: real

    function View(): Position
      reads this
    {
      Position(side, quantity, average, highWater, stopLoss, takeProfit, unrealized)
    }

    constructor (p: Position)
      ensures View() == p
    {
      side, quantity, average := p.side, p.quantity, p.average;
      highWater, stopLoss, takeProfit, unrealized := p.highWater, p.stopLoss, p.takeProfit, p.unrealized;
    }

    /** `check_position` up to its writes. */
    method Check(price: real, trailing: Option<real>) returns (verdict: Verdict, shouldUpdate: bool)
      modifies this
      ensures View() == Checked(old(View()), price, trailing)
      ensures verdict == VerdictOn(View(), price)
      ensures shouldUpdate == (trailing.Some? && NewBest(old(View()), price))
      ensures ChecksOut(old(View()), View(), price, trailing, verdict)
    {
      CheckChecksOut(View(), price, trailing);
      unrealized := Pnl(View(), price);
      shouldUpdate := false;
      if trailing.Some? {
        if side.Buy? {
          if price > highWater {
            highWater := price;
            var stop := TrailedStop(side, price, trailing.value);
            if stopLoss.None? || stop > stopLoss.value {
              stopLoss := Some(stop);
            }
            shouldUpdate := true;
          }
        } else {
          if highWater == 0.0 || price < highWater {
            highWater := price;
            var stop := TrailedStop(side, price, trailing.value);
            if stopLoss.None? || stop < stopLoss.value {
              stopLoss := Some(stop);
            }
            shouldUpdate := true;
          }
        }
      }
      verdict := Hold;
      if stopLoss.Some? {
        if (side.Buy? && price <= stopLoss.value) || (side.Sell? && price >= stopLoss.value) {
          verdict := CloseAtStop;
        }
      }
      if verdict.Hold? && takeProfit.Some? {
        if (side.Buy? && price >= takeProfit.value) || (side.Sell? && price <= takeProfit.value) {
          verdict := CloseAtTarget;
        }
      }
    }
  }

  /** The stored row of one bot and symbol. */
  class PositionRow {
    var row: Option<Position>

    constructor ()
      ensures row == None
    {
      row := None;
    }

    method UpsertOnFill(t: Trade, stopPercent: Option<real>, targetPercent: Option<real>) returns (ok: bool)
      modifies this
      ensures ok == Upserted(old(row), t, stopPercent, targetPercent).Some?
      ensures row == if ok then Upserted(old(row), t, stopPercent, targetPercent) else old(row)
      ensures old(row).Some? ==> row.Some? && SameMarks(old(row).value, row.value)
      ensures !ok <==> old(row).Some? && old(row).value.quantity + t.quantity == 0.0
      ensures ok ==> ShowsFill(old(row), row, t, stopPercent, targetPercent)
    {
      UpsertShowsFill(row, t, stopPercent, targetPercent);
      match row {
        case None =>
          row := Some(Inserted(t, stopPercent, targetPercent));
          ok := true;
        case Some(p) =>
          var total := p.quantity + t.quantity;
          if total == 0.0 { return false; }
          var average := (p.average * p.quantity + t.price * t.quantity) / total;
          assert Averaged(p, t) == p.(quantity := total, average := average);
          row := Some(p.(quantity := total, average := average));
          ok := true;
      }
    }

    /** One poll: the copy was read earlier, fills may have landed since; `landed` tells whether the write does. */
    method Poll(copy: Position, price: real, trailing: Option<real>, landed: bool) returns (verdict: Verdict)
      requires row.Some?
      modifies this
      ensures row == Some(Polled(old(row).value, copy, price, trailing, landed))
      ensures verdict == VerdictOn(Checked(copy, price, trailing), price)
      ensures PollsAs(old(row).value, row.value, copy, price, trailing, landed, verdict)
    {
      var pos := new MonitoredPosition(copy);
      var shouldUpdate;
      verdict, shouldUpdate := pos.Check(price, trailing);
      if verdict != Hold {
        if landed { row := Some(Zeroed(row.value)); }
      } else if shouldUpdate && landed {
        row := Some(WrittenBack(row.value, pos.View()));
      }
    }
  }
}
