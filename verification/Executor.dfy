/**
 `process_intent` as code over mutable tables. Before each of its statements the rest of the system may do anything it
 can: other workers, the reconciler, the scanner, the queue and the control plane take steps of the protocol. Every
 method is proved to take steps of the protocol too and to leave the tables as the protocol has them.
 */
module Executor {
  import opened Domain
  import opened RiskGate
  import opened Protocol
  import opened ProtocolTheorems
  import opened ProtocolOrders
  import opened Database
  import opened Paths

  // ================================================================ executors

  /** `execute` is called for the order that was reserved for the call's intent. */
  predicate IsFor(call: Call, row: Order) {
    Carries(row, call.intent, call.ticket.bot)
  }

  /** `PaperExecutor::execute`: called once, and the order is filled at once. */
  method ExecuteOnPaper(tables: Tables, order: OrderInHand, call: Call, paperId: string)
    requires IsFor(call, order.row)
    modifies tables`calls, order
    ensures tables.calls == old(tables.calls) + [call]
    ensures order.View() == old(order.View()).(status := Filled, exchangeId := Some(paperId))
  {
    tables.calls := tables.calls + [call];
    order.status, order.exchangeId := Filled, Some(paperId);
  }

  /** `LiveExecutor::execute`: called once; the order is touched only if the exchange took it. */
  method ExecuteLive(tables: Tables, order: OrderInHand, call: Call, answer: ExchangeAnswer) returns (ok: bool)
    requires IsFor(call, order.row)
    modifies tables`calls, order
    ensures tables.calls == old(tables.calls) + [call]
    ensures ok == answer.Placed?
    ensures order.View() ==
            if ok then old(order.View()).(status := answer.status, exchangeId := Some(answer.exchangeId))
            else old(order.View())
  {
    tables.calls := tables.calls + [call];
    ok := answer.Placed?;
    if ok { order.status, order.exchangeId := answer.status, Some(answer.exchangeId); }
  }

  // ================================================================ process_intent

  /** The statements of `process_intent` and its consumer. Each can fail; at `Survive` the process can only die. */
  datatype Statement =
    | GetBot | GetRiskSettings | RiskQueries
    | SetStop | SetPaused | RejectIntent | PublishRefusal | CommitRefusal
    | ValidateIntent | PublishPass | InsertRow | PublishSubmitted | ReadRow | CommitReserved | Survive
    | BeginOutcome | UpdateRow | PublishOrder | InsertFill | PublishFill | CommitSettled
    | IsInInbox | SaveInInbox

  /**
   What the world does during one call: its answers, which statements fail, and what the others want before each
   statement and at each turn that an insert waits for its key; `patience` is how many such turns there are.
   */
  datatype World = World(
    view: RiskView, answer: ExchangeAnswer, paperId: string, failing: set<Statement>,
    others: Statement -> seq<Action>, patience: nat, turn: nat -> seq<Action>)

  function AnswerOf(bot: BotRow, world: World): ExchangeAnswer {
    if bot.mode.Paper? then Placed(Filled, world.paperId) else world.answer
  }

  /** The steps that belong to a call of `process_intent` in this world. */
  predicate OfCall(step: WorkerStep, world: World) {
    match step
    case Pop(_) => false
    case CheckInbox => false
    case Judge(view) => view == world.view
    case Execute(answer) => answer == world.answer || answer == Placed(Filled, world.paperId)
    case Acknowledge => false
    case Abort => false
    case _ => true
  }

  /** What worker `w` and the others have done since the call began, and the state of the system it has led to. */
  datatype Trace = Trace(start: State, w: WorkerId, acts: seq<Action>, now: State) {
    function Pc(): Pc {
      At(now, w)
    }
  }

  predicate OwnOfCall(acts: seq<Action>, w: WorkerId, world: World) {
    forall i :: 0 <= i < |acts| && acts[i].Work? && acts[i].w == w ==> OfCall(acts[i].step, world)
  }

  /**
   The actions lead to the present state, whose tables and calls of `execute` are the actual ones; the worker's actions
   are those of the call.
   */
  ghost predicate OnTrack(t: Trace, db: Db, calls: seq<Call>, world: World) {
    Leads(t.start, t.acts, t.now) && t.now.db == db && t.now.hist.calls == calls && OwnOfCall(t.acts, t.w, world)
  }

  /** `t'` continues `t`. */
  predicate SameCall(t: Trace, t': Trace) {
    t'.start == t.start && t'.w == t.w && t.acts <= t'.acts
  }

  /** Nothing is left for the worker but to give up: its bot or the settings are unknown, or the bot has no exchange. */
  predicate Stuck(s: State, w: WorkerId) {
    var pc := At(s, w);
    || (pc.Unseen? && pc.m.intent.bot !in s.db.bots)
    || (pc.KnowsBot? && pc.m.intent.bot !in s.db.settings)
    || (pc.Cleared? && pc.ticket.bot.exchange.None?)
  }

  /** The worker takes a step of the protocol. */
  method Advance(t: Trace, step: WorkerStep, world: World) returns (t': Trace)
    requires OnTrack(t, t.now.db, t.now.hist.calls, world) && WorkerEnabled(t.now, t.w, step) && OfCall(step, world)
    ensures t' == Trace(t.start, t.w, t.acts + [Work(t.w, step)], ApplyWorker(t.now, t.w, step))
    ensures OnTrack(t', t'.now.db, t'.now.hist.calls, world)
  {
    t' := Trace(t.start, t.w, t.acts + [Work(t.w, step)], ApplyWorker(t.now, t.w, step));
    LeadsOneMore(t.start, t.acts, t.now, Work(t.w, step));
  }

  /** The others do what they want; the worker stays where it is. */
  method GiveTurn(tables: Tables, t: Trace, world: World, wanted: seq<Action>) returns (t': Trace)
    requires OnTrack(t, tables.View(), tables.calls, world)
    modifies tables
    ensures SameCall(t, t') && OnTrack(t', tables.View(), tables.calls, world) && t'.Pc() == t.Pc()
  {
    MeanwhileLeads(t.now, Worker(t.w), wanted);
    MeanwhileKeepsPc(t.now, t.w, wanted);
    t' := t.(acts := t.acts + Happened(t.now, Worker(t.w), wanted), now := Meanwhile(t.now, Worker(t.w), wanted));
    LeadsOn(t.start, t.acts, t.now, Happened(t.now, Worker(t.w), wanted), t'.now);
    tables.Become(t'.now.db, t'.now.hist.calls);
  }

  /** The others' turn before `statement`. */
  method Yield(tables: Tables, t: Trace, world: World, statement: Statement) returns (t': Trace)
    requires OnTrack(t, tables.View(), tables.calls, world)
    modifies tables
    ensures SameCall(t, t') && OnTrack(t', tables.View(), tables.calls, world) && t'.Pc() == t.Pc()
  {
    t' := GiveTurn(tables, t, world, world.others(statement));
  }

  // ---------------------------------------------------------------- reading and judging

  /** Reads the bot and its settings; None is an error return. */
  method ReadSettings(tables: Tables, m: Message, world: World, t: Trace)
    returns (result: Option<(BotRow, RiskSettings)>, t': Trace)
    requires OnTrack(t, tables.View(), tables.calls, world) && t.Pc() == Unseen(m)
    modifies tables
    ensures SameCall(t, t') && OnTrack(t', tables.View(), tables.calls, world)
    ensures if result.Some? then t'.Pc() == Loaded(m, result.value.0, result.value.1)
            else t'.Pc() == Unseen(m) || (t'.Pc().KnowsBot? && t'.Pc().m == m)
    ensures result.None? && world.failing == {} ==> Stuck(t'.now, t.w)
  {
    var b := m.intent.bot;
    result := None;
    t' := Yield(tables, t, world, GetBot);
    if GetBot in world.failing || b !in tables.bots { return; }
    var bot := tables.bots[b];
    t' := Advance(t', LoadBot, world);
    t' := Yield(tables, t', world, GetRiskSettings);
    if GetRiskSettings in world.failing || b !in tables.settings { return; }
    var settings := tables.settings[b];
    t' := Advance(t', LoadSettings, world);
    result := Some((bot, settings));
  }

  /** Reads the bot and its settings and runs the checkers; None is an error return. */
  method RunGate(tables: Tables, m: Message, world: World, t: Trace)
    returns (result: Option<(BotRow, RiskSettings, RiskOutcome)>, t': Trace)
    requires OnTrack(t, tables.View(), tables.calls, world) && t.Pc() == Unseen(m)
    modifies tables
    ensures SameCall(t, t') && OnTrack(t', tables.View(), tables.calls, world)
    ensures result.Some? ==>
              var (bot, settings, outcome) := result.value;
              && outcome == Validate(m.intent, settings, world.view)
              && t'.Pc() == Verdict(Loaded(m, bot, settings), world.view)
    ensures result.None? ==> !t'.Pc().Finished? && (world.failing == {} ==> Stuck(t'.now, t.w))
  {
    var read;
    result := None;
    read, t' := ReadSettings(tables, m, world, t);
    if read.None? { return; }
    t' := Yield(tables, t', world, RiskQueries);
    if RiskQueries in world.failing { return; }
    var (bot, settings) := read.value;
    result := Some((bot, settings, Validate(m.intent, settings, world.view)));
    t' := Advance(t', Judge(world.view), world);
  }

  // ---------------------------------------------------------------- refusing

  /** An auto-stop raises the emergency flag and pauses the bot, outside the transaction. */
  method StopBot(tables: Tables, m: Message, outcome: RiskOutcome, world: World, t: Trace)
    returns (ok: bool, t': Trace)
    requires OnTrack(t, tables.View(), tables.calls, world) && t.Pc() == Blocked(m, outcome) && outcome.AutoStop?
    modifies tables
    ensures SameCall(t, t') && OnTrack(t', tables.View(), tables.calls, world)
    ensures if ok then t'.Pc() == Rejecting(m, outcome) else !t'.Pc().Finished?
    ensures world.failing == {} ==> ok
  {
    ok := false;
    t' := Yield(tables, t, world, SetStop);
    if SetStop in world.failing { return; }
    tables.UpdateEmergencyStop(m.intent.bot);
    t' := Advance(t', RaiseFlag, world);
    t' := Yield(tables, t', world, SetPaused);
    if SetPaused in world.failing { return; }
    tables.UpdateBotStatus(m.intent.bot);
    t' := Advance(t', PauseBot, world);
    ok := true;
  }

  /** The statements of the rejection wait in an open transaction. */
  method OpenRefusal(tables: Tables, m: Message, world: World, t: Trace)
    returns (tx: Transaction, ok: bool, t': Trace)
    requires OnTrack(t, tables.View(), tables.calls, world)
    modifies tables
    ensures fresh(tx) && tx.tables == tables && (ok ==> tx.writes == RefusalWrites(m.intent.id))
    ensures SameCall(t, t') && OnTrack(t', tables.View(), tables.calls, world) && t'.Pc() == t.Pc()
    ensures world.failing == {} ==> ok
  {
    ok := false;
    tx := new Transaction(tables);
    t' := Yield(tables, t, world, RejectIntent);
    if RejectIntent in world.failing { return; }
    tx.SaveOrderIntent(m.intent.id, Refused);
    t' := Yield(tables, t', world, PublishRefusal);
    if PublishRefusal in world.failing { return; }
    tx.SaveOutbox(RiskCheckFailed, m.intent.id);
    ok := true;
  }

  method RecordRefusal(tables: Tables, m: Message, world: World, t: Trace) returns (ok: bool, t': Trace)
    requires OnTrack(t, tables.View(), tables.calls, world)
    requires (t.Pc().Rejecting? || (t.Pc().Blocked? && t.Pc().outcome.Reject?)) && t.Pc().m == m
    modifies tables
    ensures SameCall(t, t') && OnTrack(t', tables.View(), tables.calls, world)
    ensures if ok then t'.Pc() == Finished(m) else t'.Pc() == t.Pc()
    ensures world.failing == {} ==> ok
  {
    var tx;
    tx, ok, t' := OpenRefusal(tables, m, world, t);
    if !ok { return; }
    t' := Yield(tables, t', world, CommitRefusal);
    if CommitRefusal in world.failing { return false, t'; }
    RefusalIsItsStatements(tables.View(), m.intent.id);
    tx.Commit();
    t' := Advance(t', CommitRejection, world);
  }

  /** Stop the bot if need be, then record the rejection. */
  method RefuseIntent(tables: Tables, m: Message, outcome: RiskOutcome, world: World, t: Trace)
    returns (ok: bool, t': Trace)
    requires OnTrack(t, tables.View(), tables.calls, world) && t.Pc() == Blocked(m, outcome) && !outcome.Pass?
    modifies tables
    ensures SameCall(t, t') && OnTrack(t', tables.View(), tables.calls, world)
    ensures ok <==> t'.Pc() == Finished(m)
    ensures world.failing == {} ==> ok
  {
    ok, t' := true, t;
    if outcome.AutoStop? {
      ok, t' := StopBot(tables, m, outcome, world, t);
    }
    if ok { ok, t' := RecordRefusal(tables, m, world, t'); }
  }

  // ---------------------------------------------------------------- reserving

  /** What became of the first transaction; `KeyBusy` while another open transaction holds the key. */
  datatype Reservation = Unreserved | KeyBusy | AlreadySettled | ReservedAs(order: OrderInHand)

  /** The key is taken: the transaction is dropped, and the existing row decides. */
  method SkipOrFail(tables: Tables, m: Message, world: World, t: Trace) returns (skip: bool, t': Trace)
    requires OnTrack(t, tables.View(), tables.calls, world) && t.Pc() == Duplicate(m)
    modifies tables
    ensures SameCall(t, t') && OnTrack(t', tables.View(), tables.calls, world)
    ensures skip <==> t'.Pc() == Finished(m)
    ensures skip ==> m.intent.id in tables.orders && !tables.orders[m.intent.id].status.Pending?
    ensures world.failing == {} && m.intent.id in tables.orders && !tables.orders[m.intent.id].status.Pending? ==> skip
    ensures world.failing == {} && !skip ==> t'.Pc().Idle?
  {
    skip := false;
    t' := Yield(tables, t, world, ReadRow);
    if ReadRow in world.failing { return; }
    var existing := tables.GetOrderByIdempotencyKey(m.intent.id);
    t' := Advance(t', ReadExisting, world);
    skip := ShouldSkip(existing);
  }

  /** The statements of the first transaction before the insert. */
  method OpenReservation(tables: Tables, m: Message, ticket: Ticket, world: World, t: Trace)
    returns (tx: Transaction, ok: bool, t': Trace)
    requires OnTrack(t, tables.View(), tables.calls, world) && t.Pc() == Cleared(m, ticket)
    modifies tables
    ensures fresh(tx) && tx.tables == tables
    ensures SameCall(t, t') && OnTrack(t', tables.View(), tables.calls, world) && t'.Pc() == t.Pc()
    ensures ok ==> ticket.bot.exchange.Some? && InsertRow !in world.failing
    ensures ok ==> tx.writes == [SaveIntent(m.intent.id, Validated), InsertEvent(Event(RiskCheckPassed, m.intent.id))]
    ensures world.failing == {} && !ok ==> Stuck(t'.now, t.w)
  {
    var k := m.intent.id;
    ok := false;
    tx := new Transaction(tables);
    t' := Yield(tables, t, world, ValidateIntent);
    if ValidateIntent in world.failing { return; }
    tx.SaveOrderIntent(k, Validated);
    t' := Yield(tables, t', world, PublishPass);
    if PublishPass in world.failing { return; }
    tx.SaveOutbox(RiskCheckPassed, k);
    if ticket.bot.exchange.None? { return; }
    t' := Yield(tables, t', world, InsertRow);
    ok := InsertRow !in world.failing;
  }

  /** The row is inserted: the rest of the first transaction and its commit. */
  method CommitReserving(
      tables: Tables, tx: Transaction, order: Order, m: Message, ticket: Ticket, world: World, t: Trace)
    returns (ok: bool, t': Trace)
    requires tx.tables == tables && tx.writes == ReservationWrites(order)[..3] && order.intent == m.intent.id
    requires OnTrack(t, tables.View(), tables.calls, world) && t.Pc() == Holding(m, ticket, order)
    modifies tables, tx
    ensures SameCall(t, t') && OnTrack(t', tables.View(), tables.calls, world)
    ensures t'.Pc() == if ok then Reserved(m, ticket, order) else t.Pc()
    ensures world.failing == {} ==> ok
  {
    ok := false;
    t' := Yield(tables, t, world, PublishSubmitted);
    if PublishSubmitted in world.failing { return; }
    tx.SaveOutbox(OrderSubmitted, order.intent);
    t' := Yield(tables, t', world, CommitReserved);
    if CommitReserved in world.failing { return; }
    ReservationIsItsStatements(tables.View(), order);
    assert tx.writes == ReservationWrites(order);
    tx.Commit();
    t' := Advance(t', CommitReservation, world);
    ok := true;
  }

  /** The insert blocks while another open transaction holds the key, for as many turns of the others as there are. */
  method AwaitKey(tables: Tables, k: IntentId, world: World, t: Trace) returns (free: bool, waited: nat, t': Trace)
    requires OnTrack(t, tables.View(), tables.calls, world)
    modifies tables
    ensures SameCall(t, t') && OnTrack(t', tables.View(), tables.calls, world) && t'.Pc() == t.Pc()
    ensures free <==> !KeyHeld(t'.now, k)
    ensures !KeyHeld(t.now, k) ==> waited == 0 && t' == t && tables.View() == old(tables.View())
    ensures !free ==> waited == world.patience
  {
    waited, t' := 0, t;
    while KeyHeld(t'.now, k) && waited < world.patience
      invariant waited <= world.patience && (!KeyHeld(t.now, k) ==> waited == 0)
      invariant waited == 0 ==> t' == t && tables.View() == old(tables.View())
      invariant SameCall(t, t') && OnTrack(t', tables.View(), tables.calls, world) && t'.Pc() == t.Pc()
      decreases world.patience - waited
    {
      t' := GiveTurn(tables, t', world, world.turn(waited));
      waited := waited + 1;
    }
    free := !KeyHeld(t'.now, k);
  }

  /** The order as `row` is reserved for the message, and the worker is about to execute it. */
  predicate IsReserved(row: Order, view: Order, m: Message, ticket: Ticket, t: Trace) {
    view == row && Carries(row, m.intent, ticket.bot) && Unsent(row) && t.Pc() == Reserved(m, ticket, view)
  }

  /** The insert, on a key that no other open transaction holds: it does nothing exactly if the key is taken. */
  method TryInsert(tables: Tables, tx: Transaction, m: Message, ticket: Ticket, world: World, t: Trace)
    returns (order: OrderInHand, inserted: bool, t': Trace)
    requires OnTrack(t, tables.View(), tables.calls, world)
    requires t.Pc() == Cleared(m, ticket) && ticket.bot.exchange.Some? && !KeyHeld(t.now, m.intent.id)
    requires tx.tables == tables
    requires tx.writes == [SaveIntent(m.intent.id, Validated), InsertEvent(Event(RiskCheckPassed, m.intent.id))]
    modifies tx
    ensures SameCall(t, t') && OnTrack(t', tables.View(), tables.calls, world)
    ensures fresh(order) && order.View() == order.row && Carries(order.row, m.intent, ticket.bot) && Unsent(order.row)
    ensures inserted <==> m.intent.id !in tables.orders
    ensures inserted ==> tx.writes == ReservationWrites(order.row)[..3]
    ensures t'.Pc() == if inserted then Holding(m, ticket, order.row) else Duplicate(m)
  {
    order := new OrderInHand(NewOrder(t.now.nextId, m.intent, ticket.bot));
    inserted := tx.ReserveOrder(order.row);
    t' := Advance(t, Reserve, world);
  }

  /** The insert on a key that nobody holds: it claims a free key, and on a taken one the existing row decides. */
  method InsertOrSkip(tables: Tables, tx: Transaction, m: Message, ticket: Ticket, world: World, t: Trace)
    returns (result: Reservation, t': Trace)
    requires OnTrack(t, tables.View(), tables.calls, world)
    requires t.Pc() == Cleared(m, ticket) && ticket.bot.exchange.Some? && !KeyHeld(t.now, m.intent.id)
    requires tx.tables == tables
    requires tx.writes == [SaveIntent(m.intent.id, Validated), InsertEvent(Event(RiskCheckPassed, m.intent.id))]
    modifies tables, tx
    ensures SameCall(t, t') && OnTrack(t', tables.View(), tables.calls, world) && !result.KeyBusy?
    ensures result.AlreadySettled? <==> t'.Pc() == Finished(m)
    ensures result.ReservedAs? ==>
              fresh(result.order) && IsReserved(result.order.row, result.order.View(), m, ticket, t')
    ensures result.ReservedAs? ==> m.intent.id !in old(tables.orders)
    ensures world.failing == {} ==> (result.ReservedAs? <==> m.intent.id !in old(tables.orders))
    ensures world.failing == {} && result.Unreserved? ==> t'.Pc().Idle?
    ensures result.AlreadySettled? ==> m.intent.id in tables.orders && !tables.orders[m.intent.id].status.Pending?
    ensures world.failing == {} && m.intent.id in old(tables.orders) && m.intent.id in tables.orders ==>
              (result.AlreadySettled? <==> !tables.orders[m.intent.id].status.Pending?)
  {
    var order, inserted;
    order, inserted, t' := TryInsert(tables, tx, m, ticket, world, t);
    if inserted {
      var ok;
      ok, t' := CommitReserving(tables, tx, order.row, m, ticket, world, t');
      result := if ok then ReservedAs(order) else Unreserved;
    } else {
      var skip;
      skip, t' := SkipOrFail(tables, m, world, t');
      result := if skip then AlreadySettled else Unreserved;
    }
  }

  /** The first transaction: the intent, its `risk.check.passed`, the order row under the intent's key. */
  method ReserveOrder(tables: Tables, m: Message, ticket: Ticket, world: World, t: Trace)
    returns (result: Reservation, t': Trace)
    requires OnTrack(t, tables.View(), tables.calls, world) && t.Pc() == Cleared(m, ticket)
    modifies tables
    ensures SameCall(t, t') && OnTrack(t', tables.View(), tables.calls, world)
    ensures result.KeyBusy? ==> t'.Pc().Cleared? && KeyHeld(t'.now, m.intent.id)
    ensures result.AlreadySettled? <==> t'.Pc() == Finished(m)
    ensures result.ReservedAs? ==>
              fresh(result.order) && IsReserved(result.order.row, result.order.View(), m, ticket, t')
    ensures world.failing == {} && result.Unreserved? ==> t'.Pc().Idle? || Stuck(t'.now, t.w)
  {
    var tx, ok;
    result := Unreserved;
    tx, ok, t' := OpenReservation(tables, m, ticket, world, t);
    if ok {
      var free, waited;
      free, waited, t' := AwaitKey(tables, m.intent.id, world, t');
      if free {
        result, t' := InsertOrSkip(tables, tx, m, ticket, world, t');
      } else {
        result := KeyBusy;
      }
    }
  }

  // ---------------------------------------------------------------- executing and settling

  /** What `process_intent` makes of an order whose execution failed. */
  function Outcome(order: Order, failed: bool): Order {
    if failed then order.(status := Failed) else order
  }

  /** One call of `execute`, with the answer that belongs to the mode of the bot. */
  method ExecuteOrder(tables: Tables, order: OrderInHand, m: Message, ticket: Ticket, world: World, t: Trace)
    returns (failed: bool, t': Trace)
    requires OnTrack(t, tables.View(), tables.calls, world) && IsReserved(order.row, order.View(), m, ticket, t)
    modifies tables, order
    ensures tables.calls == old(tables.calls) + [Call(t.w, m.intent, ticket)] && tables.View() == old(tables.View())
    ensures OnTrack(t', tables.View(), tables.calls, world)
    ensures var step := Execute(AnswerOf(ticket.bot, world));
            t' == Trace(t.start, t.w, t.acts + [Work(t.w, step)], DoExecute(t.now, t.w, step.answer))
    ensures t'.Pc() == Executed(m, Outcome(order.View(), failed), failed)
    ensures ticket.bot.mode.Paper? ==>
              !failed && order.View() == order.row.(status := Filled, exchangeId := Some(world.paperId))
    ensures ticket.bot.mode.Live? ==>
              && failed == world.answer.PlaceFailed?
              && (!failed ==>
                    order.View()
                    == order.row.(status := world.answer.status, exchangeId := Some(world.answer.exchangeId)))
  {
    failed := false;
    var call := Call(t.w, m.intent, ticket);
    if ticket.bot.mode.Paper? {
      ExecuteOnPaper(tables, order, call, world.paperId);
    } else {
      var ok := ExecuteLive(tables, order, call, world.answer);
      failed := !ok;
    }
    t' := Advance(t, Execute(AnswerOf(ticket.bot, world)), world);
  }

  /** The execution and its event, if the order's status calls for one. */
  method FillStatements(tables: Tables, tx: Transaction, order: Order, world: World, t: Trace)
    returns (ok: bool, t': Trace)
    requires OnTrack(t, tables.View(), tables.calls, world)
    requires tx.writes == [UpdateOrder(order), InsertEvent(Event(OrderEvent(order.status), order.intent))]
    modifies tables, tx
    ensures SameCall(t, t') && OnTrack(t', tables.View(), tables.calls, world) && t'.Pc() == t.Pc()
    ensures ok ==> tx.writes == OutcomeWrites(order)
    ensures world.failing == {} ==> ok
  {
    ok, t' := false, t;
    var execution := BuildExecution(order);
    if execution.Some? {
      t' := Yield(tables, t, world, InsertFill);
      if InsertFill in world.failing { return; }
      tx.SaveExecution(execution.value);
      t' := Yield(tables, t', world, PublishFill);
      if PublishFill in world.failing { return; }
      tx.SaveOutbox(ExecutionEvent(execution.value.status), order.intent);
    }
    ok := true;
  }

  /** The statements of the second transaction: the row, its event, and the execution with its event. */
  method OutcomeStatements(tables: Tables, order: Order, world: World, t: Trace)
    returns (tx: Transaction, ok: bool, t': Trace)
    requires OnTrack(t, tables.View(), tables.calls, world)
    modifies tables
    ensures fresh(tx) && tx.tables == tables
    ensures SameCall(t, t') && OnTrack(t', tables.View(), tables.calls, world) && t'.Pc() == t.Pc()
    ensures ok ==> tx.writes == OutcomeWrites(order)
    ensures world.failing == {} ==> ok
  {
    ok := false;
    tx := new Transaction(tables);
    t' := Yield(tables, t, world, UpdateRow);
    if UpdateRow in world.failing { return; }
    tx.UpdateReservedOrder(order);
    t' := Yield(tables, t', world, PublishOrder);
    if PublishOrder in world.failing { return; }
    tx.SaveOutbox(OrderEvent(order.status), order.intent);
    ok, t' := FillStatements(tables, tx, order, world, t');
  }

  /** The commit of the second transaction. */
  method CommitSettling(tables: Tables, tx: Transaction, order: Order, failed: bool, m: Message, world: World, t: Trace)
    returns (ok: bool, t': Trace)
    requires OnTrack(t, tables.View(), tables.calls, world) && t.Pc() == Executed(m, order, failed)
    requires tx.tables == tables && tx.writes == OutcomeWrites(order)
    modifies tables
    ensures SameCall(t, t') && OnTrack(t', tables.View(), tables.calls, world)
    ensures ok <==> t'.Pc() == Finished(m)
    ensures world.failing == {} ==> ok == !failed && (failed ==> t'.Pc().Idle?)
  {
    ok := false;
    t' := Yield(tables, t, world, CommitSettled);
    if CommitSettled in world.failing { return; }
    OutcomeIsItsStatements(tables.View(), order);
    tx.Commit();
    t' := Advance(t', CommitOutcome, world);
    ok := !failed;
  }

  /** The second transaction; after a failed execution it commits and then reports the error. */
  method Settle(tables: Tables, order: OrderInHand, failed: bool, m: Message, world: World, t: Trace)
    returns (ok: bool, t': Trace)
    requires OnTrack(t, tables.View(), tables.calls, world)
    requires t.Pc() == Executed(m, Outcome(order.View(), failed), failed)
    modifies tables, order
    ensures SameCall(t, t') && OnTrack(t', tables.View(), tables.calls, world)
    ensures ok <==> t'.Pc() == Finished(m)
    ensures world.failing == {} ==> ok == !failed && (failed ==> t'.Pc().Idle?)
  {
    ok := false;
    t' := Yield(tables, t, world, BeginOutcome);
    if BeginOutcome in world.failing { return; }
    if failed { order.status := Failed; }
    var tx, saved;
    tx, saved, t' := OutcomeStatements(tables, order.View(), world, t');
    if saved { ok, t' := CommitSettling(tables, tx, order.View(), failed, m, world, t'); }
  }

  method ExecuteAndSettle(tables: Tables, order: OrderInHand, m: Message, ticket: Ticket, world: World, t: Trace)
    returns (ok: bool, t': Trace)
    requires OnTrack(t, tables.View(), tables.calls, world) && IsReserved(order.row, order.View(), m, ticket, t)
    modifies tables, order
    ensures SameCall(t, t') && OnTrack(t', tables.View(), tables.calls, world)
    ensures ok <==> t'.Pc() == Finished(m)
    ensures world.failing == {} && !ok ==> t'.Pc().Idle?
  {
    ok := false;
    t' := Yield(tables, t, world, Survive);
    if Survive in world.failing { return; }
    var failed;
    failed, t' := ExecuteOrder(tables, order, m, ticket, world, t');
    ok, t' := Settle(tables, order, failed, m, world, t');
  }

  // ---------------------------------------------------------------- the whole

  /** How a call ends; `Waiting` when its insert waits for another open transaction on the key. */
  datatype Ending = Succeeded | Errored | Waiting

  /** Reserve, execute, settle. */
  method TradeIntent(tables: Tables, m: Message, ticket: Ticket, world: World, t: Trace)
    returns (ending: Ending, t': Trace)
    requires OnTrack(t, tables.View(), tables.calls, world) && t.Pc() == Cleared(m, ticket)
    modifies tables
    ensures SameCall(t, t') && OnTrack(t', tables.View(), tables.calls, world)
    ensures ending.Succeeded? <==> t'.Pc() == Finished(m)
    ensures ending.Waiting? ==> t'.Pc().Cleared? && KeyHeld(t'.now, m.intent.id)
    ensures world.failing == {} && ending.Errored? ==> t'.Pc().Idle? || Stuck(t'.now, t.w)
  {
    var reservation;
    reservation, t' := ReserveOrder(tables, m, ticket, world, t);
    match reservation
    case Unreserved => ending := Errored;
    case KeyBusy => ending := Waiting;
    case AlreadySettled => ending := Succeeded;
    case ReservedAs(order) =>
      var ok;
      ok, t' := ExecuteAndSettle(tables, order, m, ticket, world, t');
      ending := if ok then Succeeded else Errored;
  }

  /**
   `process_intent`: whatever fails and whatever the others do between any two statements, the call takes steps of the
   protocol, only its own, and the tables are as the protocol has them. It returns Ok exactly if the worker ends as
   finished. If nothing fails it goes on until then, until the protocol has the worker drop the message, until the
   worker is stuck, or until its insert waits for the key.
   */
  method ProcessIntent(tables: Tables, m: Message, world: World, t: Trace) returns (ending: Ending, t': Trace)
    requires OnTrack(t, tables.View(), tables.calls, world) && t.Pc() == Unseen(m)
    modifies tables
    ensures SameCall(t, t') && OnTrack(t', tables.View(), tables.calls, world)
    ensures ending.Succeeded? <==> t'.Pc() == Finished(m)
    ensures ending.Waiting? ==> t'.Pc().Cleared? && KeyHeld(t'.now, m.intent.id)
    ensures world.failing == {} && ending.Errored? ==> t'.Pc().Idle? || Stuck(t'.now, t.w)
  {
    var gate;
    gate, t' := RunGate(tables, m, world, t);
    if gate.None? {
      ending := Errored;
    } else {
      var (bot, settings, outcome) := gate.value;
      if outcome.Pass? {
        ending, t' := TradeIntent(tables, m, Ticket(bot, settings, world.view), world, t');
      } else {
        var ok;
        ok, t' := RefuseIntent(tables, m, outcome, world, t');
        ending := if ok then Succeeded else Errored;
      }
    }
  }

  /**
   In every run, however the call is interrupted and wherever it has got to: the actual calls of `execute`, by all
   workers, are for distinct intents; each was for the order row that stands in the table under its intent, which has
   bot, side, quantity and price of the intent and the symbol of the bot that was read.
   */
  lemma CalledOncePerIntent(run: seq<State>, acts: seq<Action>, t: Trace, db: Db, calls: seq<Call>, world: World)
    requires IsRun(run, acts) && t.start == run[|acts|] && OnTrack(t, db, calls, world)
    ensures forall i, j :: 0 <= i < j < |calls| ==> calls[i].intent.id != calls[j].intent.id
    ensures forall i :: 0 <= i < |calls| ==>
              calls[i].intent.id in db.orders
              && Carries(db.orders[calls[i].intent.id], calls[i].intent, calls[i].ticket.bot)
  {
    var longer := LeadsExtendsRun(run, acts, t.acts, t.now);
    RunInv(longer, acts + t.acts, |acts + t.acts|);
    OrdersAreTrue(longer, acts + t.acts, |acts + t.acts|);
  }
}
