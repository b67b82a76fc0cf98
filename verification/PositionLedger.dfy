/** From order rows to position rows: what a position holds are orders that reconciliation moved to filled. */
module PositionLedger {
  import opened Domain
  import opened Protocol
  import opened ProtocolInvariant
  import opened ProtocolFills
  import opened Positions
  import opened PositionHistory

  /** What `update_position_for_order` hands to the position table. */
  function TradeOf(o: Order): Trade {
    Trade(o.side, o.quantity, if o.price.Some? then o.price.value else 0.0)
  }

  predicate Concerns(o: Order, bot: BotId, symbol: string) {
    o.bot == bot && o.symbol == symbol
  }

  /** The orders added to the position of `bot` and `symbol`, in order. */
  function OrdersFor(fills: seq<Order>, bot: BotId, symbol: string): seq<Order> {
    if fills == [] then []
    else OrdersFor(fills[..|fills| - 1], bot, symbol)
         + if Concerns(fills[|fills| - 1], bot, symbol) then [fills[|fills| - 1]] else []
  }

  function TradesOf(orders: seq<Order>): (trades: seq<Trade>)
    ensures |trades| == |orders| && forall i :: 0 <= i < |orders| ==> trades[i] == TradeOf(orders[i])
  {
    seq(|orders|, i requires 0 <= i < |orders| => TradeOf(orders[i]))
  }

  /** The fills of a row's history, in order. */
  function FillsIn(events: seq<RowEvent>): seq<Trade> {
    if events == [] then []
    else FillsIn(events[..|events| - 1]) + if events[|events| - 1].Fill? then [events[|events| - 1].trade] else []
  }

  lemma {:induction false} SinceZeroedIsLast(events: seq<RowEvent>)
    ensures |SinceZeroed(events)| <= |FillsIn(events)|
    ensures SinceZeroed(events) == FillsIn(events)[|FillsIn(events)| - |SinceZeroed(events)|..]
  {
    if events != [] { SinceZeroedIsLast(events[..|events| - 1]); }
  }

  lemma {:induction false} OrdersForAreFills(fills: seq<Order>, bot: BotId, symbol: string)
    ensures forall o :: o in OrdersFor(fills, bot, symbol) ==> o in fills && Concerns(o, bot, symbol)
    ensures forall k: IntentId :: Intents(OrdersFor(fills, bot, symbol))[k] <= Intents(fills)[k]
  {
    if fills != [] {
      var before, last := fills[..|fills| - 1], fills[|fills| - 1];
      OrdersForAreFills(before, bot, symbol);
      assert fills == before + [last];
      var mine := OrdersFor(before, bot, symbol);
      if Concerns(last, bot, symbol) {
        assert OrdersFor(fills, bot, symbol) == mine + [last] && (mine + [last])[..|mine|] == mine;
      } else {
        assert OrdersFor(fills, bot, symbol) == mine;
      }
    }
  }

  lemma {:induction false} Occurs(orders: seq<Order>, i: nat)
    requires i < |orders|
    ensures Intents(orders)[orders[i].intent] >= 1
  {
    if i < |orders| - 1 { Occurs(orders[..|orders| - 1], i); }
  }

  lemma OccursTwice(orders: seq<Order>, i: nat, j: nat)
    requires i < j < |orders| && orders[i].intent == orders[j].intent
    ensures Intents(orders)[orders[i].intent] >= 2
  {
    if j == |orders| - 1 {
      Occurs(orders[..j], i);
    } else {
      OccursTwice(orders[..|orders| - 1], i, j);
    }
  }

  /** The order was moved to filled once, and is the order row of that bot and symbol, up to the status. */
  ghost predicate WasMoved(o: Order, run: seq<State>, acts: seq<Action>, n: nat, bot: BotId, symbol: string)
    requires n < |run| == |acts| + 1
  {
    && Concerns(o, bot, symbol) && Moves(run, acts, n, o.intent) == 1
    && RowOf(o, run[n].db.orders, run[n].hist.settledAs)
  }

  /** Orders of distinct intents, each moved to filled. */
  ghost predicate AllMoved(orders: seq<Order>, run: seq<State>, acts: seq<Action>, n: nat, bot: BotId, symbol: string)
    requires n < |run| == |acts| + 1
  {
    && (forall i :: 0 <= i < |orders| ==> WasMoved(orders[i], run, acts, n, bot, symbol))
    && (forall i, j :: 0 <= i < j < |orders| ==> orders[i].intent != orders[j].intent)
  }

  /** Each order added to the position is an order row that was moved to filled once, and is added once. */
  lemma AddedOrdersWereMoved(run: seq<State>, acts: seq<Action>, n: nat, bot: BotId, symbol: string)
    requires IsRun(run, acts) && n < |run| && !run[n].recon.Adding?
    requires forall t :: 0 <= t < n ==> Lands(run[t], acts[t])
    ensures AllMoved(OrdersFor(run[n].hist.fills, bot, symbol), run, acts, n, bot, symbol)
  {
    var fills := run[n].hist.fills;
    var mine := OrdersFor(fills, bot, symbol);
    OrdersForAreFills(fills, bot, symbol);
    FillsAreTheOrders(run, acts, n);
    forall i | 0 <= i < |mine| ensures WasMoved(mine[i], run, acts, n, bot, symbol) {
      AddedExactlyOnce(run, acts, n, mine[i].intent);
      Occurs(mine, i);
    }
    forall i, j | 0 <= i < j < |mine| ensures mine[i].intent != mine[j].intent {
      AddedExactlyOnce(run, acts, n, mine[i].intent);
      if mine[i].intent == mine[j].intent { OccursTwice(mine, i, j); }
    }
  }

  predicate Has(orders: seq<Order>, k: IntentId) {
    exists i :: 0 <= i < |orders| && orders[i].intent == k
  }

  lemma {:induction false} CountedIsThere(orders: seq<Order>, k: IntentId)
    requires Intents(orders)[k] > 0
    ensures Has(orders, k)
  {
    var before, last := orders[..|orders| - 1], orders[|orders| - 1];
    if last.intent != k {
      CountedIsThere(before, k);
      var i :| 0 <= i < |before| && before[i].intent == k;
      assert orders[i].intent == k;
    }
  }

  lemma {:induction false} ConcernedIsKept(fills: seq<Order>, i: nat, bot: BotId, symbol: string)
    requires i < |fills| && Concerns(fills[i], bot, symbol)
    ensures fills[i] in OrdersFor(fills, bot, symbol)
  {
    if i < |fills| - 1 { ConcernedIsKept(fills[..|fills| - 1], i, bot, symbol); }
  }

  /** The order row of `k` is of this bot and symbol, and reconciliation moved it to filled. */
  ghost predicate MovedFor(run: seq<State>, acts: seq<Action>, n: nat, bot: BotId, symbol: string, k: IntentId)
    requires n < |run| == |acts| + 1
  {
    k in run[n].db.orders && Concerns(run[n].db.orders[k], bot, symbol) && Moves(run, acts, n, k) == 1
  }

  /** When the writes land, the orders added to a position are exactly those moved to filled for it. */
  lemma AddedIffMoved(run: seq<State>, acts: seq<Action>, n: nat, bot: BotId, symbol: string, k: IntentId)
    requires IsRun(run, acts) && n < |run| && !run[n].recon.Adding?
    requires forall t :: 0 <= t < n ==> Lands(run[t], acts[t])
    ensures Has(OrdersFor(run[n].hist.fills, bot, symbol), k) <==> MovedFor(run, acts, n, bot, symbol, k)
  {
    var fills := run[n].hist.fills;
    if Has(OrdersFor(fills, bot, symbol), k) {
      AddedOrdersWereMoved(run, acts, n, bot, symbol);
    }
    if MovedFor(run, acts, n, bot, symbol, k) {
      AddedExactlyOnce(run, acts, n, k);
      CountedIsThere(fills, k);
      FillsAreTheOrders(run, acts, n);
      var i :| 0 <= i < |fills| && fills[i].intent == k;
      assert RowOf(fills[i], run[n].db.orders, run[n].hist.settledAs);
      ConcernedIsKept(fills, i, bot, symbol);
    }
  }

  /** The orders are those moved to filled for the position, no more and no less. */
  ghost predicate ExactlyMoved(
      orders: seq<Order>, run: seq<State>, acts: seq<Action>, n: nat, bot: BotId, symbol: string)
    requires n < |run| == |acts| + 1
  {
    forall k :: Has(orders, k) <==> MovedFor(run, acts, n, bot, symbol, k)
  }

  lemma AddedAreTheMoved(run: seq<State>, acts: seq<Action>, n: nat, bot: BotId, symbol: string)
    requires IsRun(run, acts) && n < |run| && !run[n].recon.Adding?
    requires forall t :: 0 <= t < n ==> Lands(run[t], acts[t])
    ensures ExactlyMoved(OrdersFor(run[n].hist.fills, bot, symbol), run, acts, n, bot, symbol)
  {
    forall k ensures Has(OrdersFor(run[n].hist.fills, bot, symbol), k) <==> MovedFor(run, acts, n, bot, symbol, k) {
      AddedIffMoved(run, acts, n, bot, symbol, k);
    }
  }

  // ================================================================ what orders add up to

  /** The price at which a fill of the order counts: its own, or zero if it has none. */
  function OwnPrice(o: Order): real {
    match o.price
    case Some(price) => price
    case None => 0.0
  }

  function OrderQuantity(orders: seq<Order>): real {
    if orders == [] then 0.0 else OrderQuantity(orders[..|orders| - 1]) + orders[|orders| - 1].quantity
  }

  function OrderCost(orders: seq<Order>): real {
    if orders == [] then 0.0
    else
      var last := orders[|orders| - 1];
      OrderCost(orders[..|orders| - 1]) + last.quantity * OwnPrice(last)
  }

  predicate PricesWithin(orders: seq<Order>, lo: real, hi: real) {
    forall i :: 0 <= i < |orders| ==> lo <= OwnPrice(orders[i]) <= hi
  }

  /** Quantity and average are those of the orders; the average lies within any bounds on their prices. */
  predicate MatchesOrders(quantity: real, average: real, orders: seq<Order>, lo: real, hi: real) {
    && quantity == OrderQuantity(orders) >= 0.0
    && quantity * average == OrderCost(orders)
    && (orders != [] ==> quantity > 0.0)
    && (orders != [] && PricesWithin(orders, lo, hi) ==> lo <= average <= hi)
  }

  lemma {:induction false} TradesAddUpAsOrders(orders: seq<Order>)
    ensures Quantity(TradesOf(orders)) == OrderQuantity(orders) && Value(TradesOf(orders)) == OrderCost(orders)
  {
    if orders != [] {
      var before := orders[..|orders| - 1];
      TradesAddUpAsOrders(before);
      assert TradesOf(orders)[..|orders| - 1] == TradesOf(before);
    }
  }

  lemma TradesMatchOrders(quantity: real, average: real, orders: seq<Order>, lo: real, hi: real)
    requires MatchesTrades(quantity, average, TradesOf(orders), lo, hi)
    ensures MatchesOrders(quantity, average, orders, lo, hi)
  {
    TradesAddUpAsOrders(orders);
  }

  /** A row exists once there was a fill, and has the side of the first one. */
  lemma {:induction false} FirstFillSetsSide(events: seq<RowEvent>)
    ensures var row, fills := After(events).row, FillsIn(events);
            (row.None? <==> fills == []) && (row.Some? ==> row.value.side == fills[0].side)
  {
    if events != [] { FirstFillSetsSide(events[..|events| - 1]); }
  }

  /** What a row holds of all the orders ever added to it: the latest ones, on the side of the first. */
  ghost predicate Holds(row: Option<Position>, held: seq<Order>, all: seq<Order>, lo: real, hi: real) {
    && |held| <= |all| && held == all[|all| - |held|..]
    && (row.None? <==> all == [])
    && (row.Some? ==>
          row.value.side == all[0].side && MatchesOrders(row.value.quantity, row.value.average, held, lo, hi))
  }

  lemma HeldOrders(events: seq<RowEvent>, all: seq<Order>, lo: real, hi: real) returns (held: seq<Order>)
    requires FillsHaveSize(events) && FillsIn(events) == TradesOf(all)
    ensures Holds(After(events).row, held, all, lo, hi)
  {
    SinceZeroedIsLast(events);
    FirstFillSetsSide(events);
    RowMatchesFills(events, lo, hi);
    held := all[|all| - |SinceZeroed(events)|..];
    assert TradesOf(held) == SinceZeroed(events);
    if After(events).row.Some? {
      TradesMatchOrders(After(events).row.value.quantity, After(events).row.value.average, held, lo, hi);
    }
  }

  /** What holds of all the orders holds of the latest ones. */
  lemma LatestWereMoved(
      all: seq<Order>, held: seq<Order>, run: seq<State>, acts: seq<Action>, n: nat, bot: BotId, symbol: string)
    requires n < |run| == |acts| + 1 && AllMoved(all, run, acts, n, bot, symbol)
    requires |held| <= |all| && held == all[|all| - |held|..]
    ensures AllMoved(held, run, acts, n, bot, symbol)
  {
    var k := |all| - |held|;
    assert forall i :: 0 <= i < |held| ==> held[i] == all[k + i];
  }

  /**
   When the writes land, the orders ever added to a position are exactly those of its bot and symbol that reconciliation
   moved to filled, and it holds the latest of them: those since the position was last zeroed, each once. Their
   quantities add up to the row's quantity, the average is their quantity-weighted mean price and lies between any
   bounds on their prices; the side is that of the first order ever added.
   */
  lemma PositionHoldsMovedOrders(
      run: seq<State>, acts: seq<Action>, n: nat, events: seq<RowEvent>, bot: BotId, symbol: string, lo: real, hi: real)
    returns (held: seq<Order>)
    requires IsRun(run, acts) && n < |run| && !run[n].recon.Adding?
    requires forall t :: 0 <= t < n ==> Lands(run[t], acts[t])
    requires FillsHaveSize(events) && FillsIn(events) == TradesOf(OrdersFor(run[n].hist.fills, bot, symbol))
    ensures Holds(After(events).row, held, OrdersFor(run[n].hist.fills, bot, symbol), lo, hi)
    ensures AllMoved(held, run, acts, n, bot, symbol)
    ensures ExactlyMoved(OrdersFor(run[n].hist.fills, bot, symbol), run, acts, n, bot, symbol)
  {
    var all := OrdersFor(run[n].hist.fills, bot, symbol);
    AddedAreTheMoved(run, acts, n, bot, symbol);
    held := HeldOrders(events, all, lo, hi);
    assert AllMoved(held, run, acts, n, bot, symbol) by {
      AddedOrdersWereMoved(run, acts, n, bot, symbol);
      LatestWereMoved(all, held, run, acts, n, bot, symbol);
    }
  }
}
