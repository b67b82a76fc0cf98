/** The executor's tables, changed in place, and transactions that buffer their writes until they commit. */
module Database {
  import opened Domain
  import opened RiskGate
  import opened Protocol

  /** A statement of an open transaction. */
  datatype Write =
    | SaveIntent(id: IntentId, status: IntentStatus)
    | InsertOrder(row: Order)
    | UpdateOrder(row: Order)
    | InsertExecution(execution: Execution)
    | InsertEvent(event: Event)

  function Written(db: Db, w: Write): Db {
    match w
    case SaveIntent(k, status) => db.(intents := db.intents[k := status])
    case InsertOrder(row) => db.(orders := db.orders[row.intent := row])
    case UpdateOrder(row) => db.(orders := UpdateReserved(db.orders, row))
    case InsertExecution(execution) => db.(executions := db.executions + [execution])
    case InsertEvent(event) => db.(outbox := db.outbox + multiset{event})
  }

  function AllWritten(db: Db, writes: seq<Write>): Db {
    if writes == [] then db else Written(AllWritten(db, writes[..|writes| - 1]), writes[|writes| - 1])
  }

  lemma OneMoreWritten(db: Db, writes: seq<Write>, w: Write)
    ensures AllWritten(db, writes + [w]) == Written(AllWritten(db, writes), w)
  {
    assert (writes + [w])[..|writes|] == writes;
  }

  // ---------------------------------------------------------------- the three transactions of `process_intent`

  function RefusalWrites(k: IntentId): seq<Write> {
    [SaveIntent(k, Refused), InsertEvent(Event(RiskCheckFailed, k))]
  }

  function ReservationWrites(order: Order): seq<Write> {
    var k := order.intent;
    [SaveIntent(k, Validated), InsertEvent(Event(RiskCheckPassed, k)),
     InsertOrder(order), InsertEvent(Event(OrderSubmitted, k))]
  }

  function OutcomeWrites(order: Order): seq<Write> {
    var k, execution := order.intent, BuildExecution(order);
    [UpdateOrder(order), InsertEvent(Event(OrderEvent(order.status), k))]
    + if execution.None? then []
      else [InsertExecution(execution.value), InsertEvent(Event(ExecutionEvent(execution.value.status), k))]
  }

  /** Statement by statement, each transaction amounts to the commit step of the protocol. */
  lemma CommitsAreTheirStatements(db: Db, k: IntentId, order: Order)
    ensures AllWritten(db, RefusalWrites(k)) == RejectionCommitted(db, k)
    ensures AllWritten(db, ReservationWrites(order)) == ReservationCommitted(db, order)
    ensures AllWritten(db, OutcomeWrites(order)) == OutcomeCommitted(db, order)
  {
    RefusalIsItsStatements(db, k);
    ReservationIsItsStatements(db, order);
    OutcomeIsItsStatements(db, order);
  }

  lemma RefusalIsItsStatements(db: Db, k: IntentId)
    ensures AllWritten(db, RefusalWrites(k)) == RejectionCommitted(db, k)
  {
    var ws := RefusalWrites(k);
    assert ws == [ws[0]] + [ws[1]];
    OneMoreWritten(db, [ws[0]], ws[1]);
    OneMoreWritten(db, [], ws[0]);
    assert [] + [ws[0]] == [ws[0]];
  }

  lemma ReservationIsItsStatements(db: Db, order: Order)
    ensures AllWritten(db, ReservationWrites(order)) == ReservationCommitted(db, order)
  {
    var ws := ReservationWrites(order);
    OneMoreWritten(db, [], ws[0]);
    OneMoreWritten(db, [ws[0]], ws[1]);
    OneMoreWritten(db, [ws[0], ws[1]], ws[2]);
    OneMoreWritten(db, [ws[0], ws[1], ws[2]], ws[3]);
    assert [] + [ws[0]] == [ws[0]];
    assert [ws[0]] + [ws[1]] == [ws[0], ws[1]];
    assert [ws[0], ws[1]] + [ws[2]] == [ws[0], ws[1], ws[2]];
    assert [ws[0], ws[1], ws[2]] + [ws[3]] == ws;
  }

  lemma OutcomeIsItsStatements(db: Db, order: Order)
    ensures AllWritten(db, OutcomeWrites(order)) == OutcomeCommitted(db, order)
  {
    var ws := OutcomeWrites(order);
    OneMoreWritten(db, [], ws[0]);
    OneMoreWritten(db, [ws[0]], ws[1]);
    assert [] + [ws[0]] == [ws[0]];
    assert [ws[0]] + [ws[1]] == [ws[0], ws[1]];
    if BuildExecution(order).Some? {
      OneMoreWritten(db, [ws[0], ws[1]], ws[2]);
      OneMoreWritten(db, [ws[0], ws[1], ws[2]], ws[3]);
      assert [ws[0], ws[1]] + [ws[2]] == [ws[0], ws[1], ws[2]];
      assert [ws[0], ws[1], ws[2]] + [ws[3]] == ws;
    } else {
      assert ws == [ws[0], ws[1]];
    }
  }

  // ---------------------------------------------------------------- tables

  class Tables {
    var bots: map<BotId, BotRow>
    var settings: map<BotId, RiskSettings>
    var sources: map<RowId, OrderIntent>
    var intents: map<IntentId, IntentStatus>
    var orders: map<IntentId, Order>
    var executions: seq<Execution>
    var outbox: multiset<Event>
    var inbox: map<InboxId, nat>
    var calls: seq<Call> // no table: the calls of `execute` so far, by every worker

    ghost function View(): Db
      reads this
    {
      Db(bots, settings, sources, intents, orders, executions, outbox, inbox)
    }

    /** What others commit becomes visible, and what they called has been called. */
    method Become(db: Db, calls: seq<Call>)
      modifies this
      ensures View() == db && this.calls == calls
    {
      this.calls := calls;
      bots, settings, sources := db.bots, db.settings, db.sources;
      intents, orders, executions, outbox, inbox := db.intents, db.orders, db.executions, db.outbox, db.inbox;
    }

    method Perform(w: Write)
      modifies this
      ensures View() == Written(old(View()), w) && calls == old(calls)
    {
      match w
      case SaveIntent(k, status) => intents := intents[k := status];
      case InsertOrder(row) => orders := orders[row.intent := row];
      case UpdateOrder(row) => orders := UpdateReserved(orders, row);
      case InsertExecution(execution) => executions := executions + [execution];
      case InsertEvent(event) => outbox := outbox + multiset{event};
    }

    method IsProcessed(id: InboxId) returns (known: bool)
      ensures known <==> id in inbox
    {
      known := id in inbox;
    }

    /** Insert, or bump the delivery attempts on conflict. */
    method SaveInboxEvent(id: InboxId)
      modifies this
      ensures View() == Acknowledged(old(View()), id) && calls == old(calls)
      ensures View() == old(View()).(inbox := inbox)
      ensures inbox == old(inbox)[id := if id in old(inbox) then old(inbox)[id] + 1 else 1]
    {
      if id in inbox { inbox := inbox[id := inbox[id] + 1]; } else { inbox := inbox[id := 1]; }
    }

    method UpdateEmergencyStop(bot: BotId)
      modifies this
      ensures View() == FlagRaised(old(View()), bot) && calls == old(calls)
      ensures View() == old(View()).(settings := settings) && settings.Keys == old(settings).Keys
      ensures forall b :: b in settings ==>
                settings[b] == if b == bot then old(settings)[b].(emergencyStop := true) else old(settings)[b]
    {
      if bot in settings { settings := settings[bot := settings[bot].(emergencyStop := true)]; }
    }

    method UpdateBotStatus(bot: BotId)
      modifies this
      ensures View() == BotPaused(old(View()), bot) && calls == old(calls)
      ensures View() == old(View()).(bots := bots) && bots.Keys == old(bots).Keys
      ensures forall b :: b in bots ==> bots[b] == if b == bot then old(bots)[b].(paused := true) else old(bots)[b]
    {
      if bot in bots { bots := bots[bot := bots[bot].(paused := true)]; }
    }

    method GetOrderByIdempotencyKey(k: IntentId) returns (order: Option<Order>)
      ensures order == if k in orders then Some(orders[k]) else None
    {
      order := if k in orders then Some(orders[k]) else None;
    }

    /** The open orders, in whatever order the database returns them. */
    method GetOpenOrders() returns (rows: seq<Order>)
      requires forall k :: k in orders ==> orders[k].intent == k
      ensures IsListingOf(rows, orders)
      ensures forall k :: k in orders ==>
                (orders[k] in rows <==> orders[k].status in {Pending, Submitted, Accepted, PartiallyFilled})
    {
      rows := [];
      var todo := orders.Keys;
      while todo != {}
        invariant todo <= orders.Keys
        invariant forall i :: 0 <= i < |rows| ==>
                    && rows[i].intent in orders && rows[i].intent !in todo
                    && orders[rows[i].intent] == rows[i] && rows[i].status.Open()
        invariant forall i, j :: 0 <= i < j < |rows| ==> rows[i].intent != rows[j].intent
        invariant forall k :: k in orders && k !in todo && orders[k].status.Open() ==> orders[k] in rows
      {
        var k :| k in todo;
        todo := todo - {k};
        if orders[k].status.Open() { rows := rows + [orders[k]]; }
      }
    }

    method UpdateOrderStatus(id: OrderId, status: OrderStatus)
      modifies this
      ensures View() == old(View()).(orders := UpdateStatus(old(orders), id, status)) && calls == old(calls)
      ensures orders.Keys == old(orders).Keys
      ensures forall k :: k in orders ==>
                orders[k] == if old(orders)[k].id == id then old(orders)[k].(status := status) else old(orders)[k]
    {
      orders := UpdateStatus(orders, id, status);
    }
  }

  /** An order that a worker has in hand; `execute` changes its status and exchange id. */
  class OrderInHand {
    const row: Order
    var status: OrderStatus
    var exchangeId: Option<string>

    function View(): Order
      reads this
    {
      row.(status := status, exchangeId := exchangeId)
    }

    constructor (row: Order)
      ensures View() == this.row == row
    {
      this.row, status, exchangeId := row, row.status, row.exchangeId;
    }
  }

  class Transaction {
    const tables: Tables
    var writes: seq<Write>

    constructor (tables: Tables)
      ensures this.tables == tables && writes == []
    {
      this.tables, writes := tables, [];
    }

    method SaveOrderIntent(k: IntentId, status: IntentStatus)
      modifies this
      ensures writes == old(writes) + [SaveIntent(k, status)]
    {
      writes := writes + [SaveIntent(k, status)];
    }

    /** `ON CONFLICT (idempotency_key) DO NOTHING`; tells whether a row was inserted. */
    method ReserveOrder(order: Order) returns (inserted: bool)
      modifies this
      ensures inserted <==> order.intent !in tables.orders
      ensures writes == old(writes) + if inserted then [InsertOrder(order)] else []
    {
      inserted := order.intent !in tables.orders;
      if inserted { writes := writes + [InsertOrder(order)]; }
    }

    method UpdateReservedOrder(order: Order)
      modifies this
      ensures writes == old(writes) + [UpdateOrder(order)]
    {
      writes := writes + [UpdateOrder(order)];
    }

    method SaveExecution(execution: Execution)
      modifies this
      ensures writes == old(writes) + [InsertExecution(execution)]
    {
      writes := writes + [InsertExecution(execution)];
    }

    method SaveOutbox(kind: EventKind, k: IntentId)
      modifies this
      ensures writes == old(writes) + [InsertEvent(Event(kind, k))]
    {
      writes := writes + [InsertEvent(Event(kind, k))];
    }

    /** Until here the tables are as they were; now all the writes take effect, in order. */
    method Commit()
      modifies tables
      ensures tables.View() == AllWritten(old(tables.View()), writes) && tables.calls == old(tables.calls)
    {
      ghost var before := tables.View();
      var i := 0;
      while i < |writes|
        invariant i <= |writes| && tables.View() == AllWritten(before, writes[..i]) && tables.calls == old(tables.calls)
      {
        OneMoreWritten(before, writes[..i], writes[i]);
        assert writes[..i + 1] == writes[..i] + [writes[i]];
        tables.Perform(writes[i]);
        i := i + 1;
      }
      assert writes[..i] == writes;
    }
  }
}
