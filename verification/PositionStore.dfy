/** The positions table: a row per bot and symbol, written by fills and by the risk monitor. */
module PositionStore {
  import opened Domain
  import opened RiskGate
  import opened Protocol
  import opened ProtocolFills
  import opened Positions
  import opened PositionHistory
  import opened PositionLedger

  /** The unique key of the table. */
  datatype Key = Key(bot: BotId, symbol: string)

  function KeyOf(o: Order): Key {
    Key(o.bot, o.symbol)
  }

  /** The risk monitor reads the row under `key`, or checks the copy that it has. */
  datatype Look = Look(key: Key, event: RowEvent)

  function FillOf(o: Order, settings: RiskSettings): RowEvent {
    Fill(TradeOf(o), settings.stopLossPercent, settings.takeProfitPercent)
  }

  /** The row shows a fill of the order: its side, quantity and price, and the stops of these settings if it is new. */
  predicate ShowsOrder(before: Option<Position>, after: Option<Position>, o: Order, settings: RiskSettings) {
    ShowsFill(
      before, after, Trade(o.side, o.quantity, OwnPrice(o)), settings.stopLossPercent, settings.takeProfitPercent)
  }

  type States = map<Key, RowState>
  type Histories = map<Key, seq<RowEvent>>

  function StateAt(states: States, key: Key): RowState {
    if key in states then states[key] else RowState(None, None)
  }

  function HistoryAt(histories: Histories, key: Key): seq<RowEvent> {
    if key in histories then histories[key] else []
  }

  function OneMore(histories: Histories, key: Key, e: RowEvent): Histories {
    histories[key := HistoryAt(histories, key) + [e]]
  }

  lemma OneMoreEvent(histories: Histories, key: Key, e: RowEvent)
    ensures var events, events' := HistoryAt(histories, key), HistoryAt(OneMore(histories, key, e), key);
            && After(events') == RowStep(After(events), e)
            && FillsIn(events') == FillsIn(events) + if e.Fill? then [e.trade] else []
  {
    var events := HistoryAt(histories, key);
    assert (events + [e])[..|events|] == events;
  }

  /** Every row is what its history makes of it. */
  ghost predicate Replays(states: States, histories: Histories) {
    forall key :: StateAt(states, key) == After(HistoryAt(histories, key))
  }

  lemma EventIsReplayed(states: States, histories: Histories, key: Key, e: RowEvent)
    requires Replays(states, histories)
    ensures Replays(states[key := RowStep(StateAt(states, key), e)], OneMore(histories, key, e))
  {
    var states', histories' := states[key := RowStep(StateAt(states, key), e)], OneMore(histories, key, e);
    forall k ensures StateAt(states', k) == After(HistoryAt(histories', k)) {
      assert StateAt(states, k) == After(HistoryAt(histories, k));
      OneMoreEvent(histories, key, e);
    }
  }

  /** The fills of each row are those of the orders added to its position, in order. */
  ghost predicate Records(histories: Histories, fills: seq<Order>) {
    forall key: Key :: FillsIn(HistoryAt(histories, key)) == TradesOf(OrdersFor(fills, key.bot, key.symbol))
  }

  lemma OneMoreOrder(fills: seq<Order>, o: Order, key: Key)
    ensures TradesOf(OrdersFor(fills + [o], key.bot, key.symbol))
         == TradesOf(OrdersFor(fills, key.bot, key.symbol)) + if key == KeyOf(o) then [TradeOf(o)] else []
  {
    assert (fills + [o])[..|fills|] == fills;
    var before := OrdersFor(fills, key.bot, key.symbol);
    assert TradesOf(before + [o]) == TradesOf(before) + [TradeOf(o)];
  }

  lemma FillIsRecordedAt(histories: Histories, fills: seq<Order>, o: Order, e: RowEvent, key: Key)
    requires FillsIn(HistoryAt(histories, key)) == TradesOf(OrdersFor(fills, key.bot, key.symbol))
    requires e.Fill? && e.trade == TradeOf(o)
    ensures FillsIn(HistoryAt(OneMore(histories, KeyOf(o), e), key))
         == TradesOf(OrdersFor(fills + [o], key.bot, key.symbol))
  {
    OneMoreOrder(fills, o, key);
    if key == KeyOf(o) { OneMoreEvent(histories, key, e); }
  }

  lemma FillIsRecorded(histories: Histories, fills: seq<Order>, o: Order, e: RowEvent)
    requires Records(histories, fills) && e.Fill? && e.trade == TradeOf(o)
    ensures Records(OneMore(histories, KeyOf(o), e), fills + [o])
  {
    forall key: Key
      ensures FillsIn(HistoryAt(OneMore(histories, KeyOf(o), e), key))
           == TradesOf(OrdersFor(fills + [o], key.bot, key.symbol))
    {
      FillIsRecordedAt(histories, fills, o, e, key);
    }
  }

  lemma LookIsNoFill(histories: Histories, fills: seq<Order>, look: Look)
    requires Records(histories, fills) && !look.event.Fill?
    ensures Records(OneMore(histories, look.key, look.event), fills)
  {
    OneMoreEvent(histories, look.key, look.event);
  }

  // ================================================================ the statement does not fail

  /** Every order has a positive quantity. */
  predicate Sized(orders: seq<Order>) {
    forall i :: 0 <= i < |orders| ==> orders[i].quantity > 0.0
  }

  lemma {:induction false} SizedTrades(events: seq<RowEvent>)
    requires forall t :: t in FillsIn(events) ==> t.quantity > 0.0
    ensures FillsHaveSize(events)
  {
    if events != [] {
      var before, e := events[..|events| - 1], events[|events| - 1];
      assert forall t :: t in FillsIn(before) ==> t in FillsIn(events);
      SizedTrades(before);
      assert e.Fill? ==> e.trade in FillsIn(events);
    }
  }

  lemma SizedFills(events: seq<RowEvent>, fills: seq<Order>, key: Key)
    requires FillsIn(events) == TradesOf(OrdersFor(fills, key.bot, key.symbol)) && Sized(fills)
    ensures FillsHaveSize(events)
  {
    OrdersForAreFills(fills, key.bot, key.symbol);
    var orders := OrdersFor(fills, key.bot, key.symbol);
    forall t | t in FillsIn(events) ensures t.quantity > 0.0 {
      var i :| 0 <= i < |orders| && TradesOf(orders)[i] == t;
      assert orders[i] in orders;
    }
    SizedTrades(events);
  }

  /** The division in the upsert is by zero for no order with a positive quantity, if earlier orders had one too. */
  lemma UpsertGoesThrough(events: seq<RowEvent>, fills: seq<Order>, o: Order, settings: RiskSettings)
    requires FillsIn(events) == TradesOf(OrdersFor(fills, o.bot, o.symbol)) && Sized(fills) && o.quantity > 0.0
    ensures After(events).row.Some? ==> After(events).row.value.quantity + o.quantity != 0.0
  {
    SizedFills(events, fills, KeyOf(o));
    RowMatchesFills(events, 0.0, 0.0);
  }

  /**
   When the writes land, each row of a table that records the fills added so far holds the latest orders of its bot and
   symbol that reconciliation moved to filled, those since it was last zeroed: quantity and average are theirs.
   */
  lemma RowsHoldMovedOrders(
      run: seq<State>, acts: seq<Action>, n: nat, states: States, histories: Histories, key: Key, lo: real, hi: real)
    returns (held: seq<Order>)
    requires IsRun(run, acts) && n < |run| && !run[n].recon.Adding?
    requires forall t :: 0 <= t < n ==> Lands(run[t], acts[t])
    requires Replays(states, histories) && Records(histories, run[n].hist.fills) && Sized(run[n].hist.fills)
    ensures Holds(StateAt(states, key).row, held, OrdersFor(run[n].hist.fills, key.bot, key.symbol), lo, hi)
    ensures AllMoved(held, run, acts, n, key.bot, key.symbol)
    ensures ExactlyMoved(OrdersFor(run[n].hist.fills, key.bot, key.symbol), run, acts, n, key.bot, key.symbol)
  {
    var events := HistoryAt(histories, key);
    assert FillsHaveSize(events) by { SizedFills(events, run[n].hist.fills, key); }
    held := PositionHoldsMovedOrders(run, acts, n, events, key.bot, key.symbol, lo, hi);
  }

  // ================================================================ the table, in place

  class PositionTable {
    var states: States // the rows, and the monitor's copies of them
    ghost var histories: Histories

    ghost predicate Valid()
      reads this
    {
      Replays(states, histories)
    }

    constructor ()
      ensures Valid() && Records(histories, [])
    {
      states, histories := map[], map[];
    }

    /** `upsert_position_on_fill` for an order, with the percentages of the bot's settings. */
    method UpsertOnFill(o: Order, settings: RiskSettings) returns (ok: bool)
      requires Valid()
      modifies this
      ensures Valid()
      ensures var row := old(StateAt(states, KeyOf(o))).row;
              && (!ok <==> row.Some? && row.value.quantity + o.quantity == 0.0)
              && (ok ==> ShowsOrder(row, StateAt(states, KeyOf(o)).row, o, settings))
      ensures histories == if ok then OneMore(old(histories), KeyOf(o), FillOf(o, settings)) else old(histories)
    {
      var key, fill := KeyOf(o), FillOf(o, settings);
      var row := new PositionRow();
      row.row := StateAt(states, key).row;
      ok := row.UpsertOnFill(fill.trade, fill.stopPercent, fill.targetPercent);
      if ok {
        EventIsReplayed(states, histories, key, fill);
        states := states[key := StateAt(states, key).(row := row.row)];
        histories := OneMore(histories, key, fill);
      }
    }

    /** The risk monitor at work: whatever it does, it adds no fills. */
    method Watch(looks: seq<Look>, ghost fills: seq<Order>)
      requires Valid() && Records(histories, fills)
      modifies this
      ensures Valid() && Records(histories, fills)
    {
      for i := 0 to |looks|
        invariant Valid() && Records(histories, fills)
      {
        var look := looks[i];
        if !look.event.Fill? {
          EventIsReplayed(states, histories, look.key, look.event);
          LookIsNoFill(histories, fills, look);
          states := states[look.key := RowStep(StateAt(states, look.key), look.event)];
          histories := OneMore(histories, look.key, look.event);
        }
      }
    }
  }
}
