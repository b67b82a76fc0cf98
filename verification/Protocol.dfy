/**
 The intent execution protocol as a state machine: one shared database, a bag of queued messages, any number of
 workers running `process_intent`, and one reconciler that walks over a snapshot of the open orders.
 Every database statement that other connections can see is a step of its own, and a worker may abort (error or
 crash) between any two steps; the writes of an open transaction become visible only with its commit step.
 */
module Protocol {
  import opened Domain
  import opened RiskGate

  datatype EventKind =
    | RiskCheckPassed
    | RiskCheckFailed
    | OrderSubmitted
    | OrderAccepted
    | OrderRejected
    | FillReported
    | PartialFillReported
    | ExecutionFailure

  datatype Event = Event(kind: EventKind, intent: IntentId)

  /** A queued intent: raw from the scanner's fast path, or enveloped by the outbox with its row id. */
  datatype Message = Raw(intent: OrderIntent) | Envelope(row: RowId, intent: OrderIntent)

  /** Inbox ids: an envelope carries the id of its outbox row, a raw message only that of its intent. */
  datatype InboxId = OfIntent(intent: IntentId) | OfRow(row: RowId)

  function InboxIdOf(m: Message): InboxId {
    match m
    case Raw(intent) => OfIntent(intent.id)
    case Envelope(row, _) => OfRow(row)
  }

  datatype Db = Db(
    bots: map<BotId, BotRow>,
    settings: map<BotId, RiskSettings>,
    sources: map<RowId, OrderIntent>,     // outbox rows of type order.intent.created
    intents: map<IntentId, IntentStatus>,
    orders: map<IntentId, Order>,         // unique by idempotency key
    executions: seq<Execution>,
    outbox: multiset<Event>,
    inbox: map<InboxId, nat>)             // delivery attempts

  /** What a worker read and was told before it may reserve. */
  datatype Ticket = Ticket(bot: BotRow, settings: RiskSettings, view: RiskView)

  /** Where a worker is in its loop. */
  datatype Pc =
    | Idle
    | Popped(m: Message)
    | Unseen(m: Message)                                // the inbox does not know the message
    | KnowsBot(m: Message, bot: BotRow)
    | Loaded(m: Message, bot: BotRow, settings: RiskSettings)
    | Blocked(m: Message, outcome: RiskOutcome)         // risk verdict other than Pass
    | Flagged(m: Message, outcome: RiskOutcome)         // emergency flag raised
    | Rejecting(m: Message, outcome: RiskOutcome)       // bot paused as well
    | Cleared(m: Message, ticket: Ticket)               // verdict Pass
    | Holding(m: Message, ticket: Ticket, order: Order) // order row inserted, first transaction still open
    | Duplicate(m: Message)                             // the insert found the key taken
    | Reserved(m: Message, ticket: Ticket, order: Order)
    | Executed(m: Message, order: Order, failed: bool)
    | Finished(m: Message)                              // process_intent returned Ok
  {
    /** The worker owns the order row: reserved by it and not yet settled. */
    predicate Owning() {
      Reserved? || Executed?
    }
  }

  /** Where the reconciler is in its pass. */
  datatype Recon =
    | Resting
    | Looping(todo: seq<Order>)
    | Writing(order: Order, status: OrderStatus, todo: seq<Order>)
    | Adding(order: Order, todo: seq<Order>)

  datatype ExchangeAnswer = Placed(status: OrderStatus, exchangeId: string) | PlaceFailed

  /** One call of `execute`. */
  datatype Call = Call(worker: WorkerId, intent: OrderIntent, ticket: Ticket)

  /** What has happened so far; no step depends on it. */
  datatype History = History(
    calls: seq<Call>,
    settledAs: map<IntentId, OrderStatus>, // status written by the second transaction
    executed: seq<IntentId>,               // whose execution each execution row is
    rejected: set<IntentId>,               // intents with a committed risk rejection
    moved: multiset<IntentId>,             // status writes of the reconciler that landed with `filled`
    unmoved: multiset<IntentId>,           // status writes with `filled` that did not land
    added: multiset<IntentId>,             // position writes that landed
    lost: multiset<IntentId>,              // position writes that did not
    fills: seq<Order>)                     // the orders added to positions, in order

  datatype State = State(
    db: Db,
    queue: multiset<Message>,
    pcs: map<WorkerId, Pc>,
    recon: Recon,
    nextId: OrderId,
    hist: History)

  /** Scanner, outbox processor, queue and control plane. */
  datatype EnvironmentStep =
    | Generate(row: RowId, intent: OrderIntent)
    | PushRaw(row: RowId)
    | PushEnvelope(row: RowId)
    | Redeliver(m: Message)
    | Lose(m: Message)
    | Configure(bot: BotId, botRow: BotRow, settings: RiskSettings)

  datatype WorkerStep =
    | Pop(m: Message)
    | CheckInbox
    | LoadBot
    | LoadSettings
    | Judge(view: RiskView)
    | RaiseFlag
    | PauseBot
    | CommitRejection
    | Reserve
    | ReadExisting
    | CommitReservation
    | Execute(answer: ExchangeAnswer)
    | CommitOutcome
    | Acknowledge
    | Abort // an error return or a crash; an open transaction rolls back

  datatype ReconcilerStep =
    | Poll(rows: seq<Order>)
    | Inspect(reported: Option<OrderStatus>)
    | WriteStatus(landed: bool)
    | WritePosition(landed: bool)
    | EndPass // the pass ends, or the reconciler dies with whatever it had in hand

  datatype Action = Env(e: EnvironmentStep) | Work(w: WorkerId, step: WorkerStep) | Reconcile(r: ReconcilerStep)

  // ---------------------------------------------------------------- what the statements compute

  function At(s: State, w: WorkerId): Pc {
    if w in s.pcs then s.pcs[w] else Idle
  }

  function Become(s: State, w: WorkerId, pc: Pc): State {
    s.(pcs := s.pcs[w := pc])
  }

  function NewOrder(id: OrderId, intent: OrderIntent, bot: BotRow): Order {
    Order(id, intent.id, intent.bot, bot.symbol, intent.side, intent.quantity, intent.price, Pending, None)
  }

  /** The order is the one that the intent asks for. */
  predicate Asked(o: Order, intent: OrderIntent) {
    && o.intent == intent.id && o.bot == intent.bot && o.side == intent.side
    && o.quantity == intent.quantity && o.price == intent.price
  }

  /** It is also on the symbol of the bot. */
  predicate Carries(o: Order, intent: OrderIntent, bot: BotRow) {
    Asked(o, intent) && o.symbol == bot.symbol
  }

  /** Nothing was heard from an exchange yet. */
  predicate Unsent(o: Order) {
    o.status.Pending? && o.exchangeId.None?
  }

  function AfterExecute(order: Order, answer: ExchangeAnswer): Order {
    match answer
    case Placed(status, exchangeId) => order.(status := status, exchangeId := Some(exchangeId))
    case PlaceFailed => order.(status := Failed)
  }

  /** `UPDATE orders SET status, exchange_order_id WHERE id`. */
  function UpdateReserved(orders: map<IntentId, Order>, order: Order): map<IntentId, Order> {
    map k | k in orders ::
      if orders[k].id == order.id then orders[k].(status := order.status, exchangeId := order.exchangeId)
      else orders[k]
  }

  /** `UPDATE orders SET status WHERE id`; the exchange id is kept. */
  function UpdateStatus(orders: map<IntentId, Order>, id: OrderId, status: OrderStatus): map<IntentId, Order> {
    map k | k in orders :: if orders[k].id == id then orders[k].(status := status) else orders[k]
  }

  predicate IsListingOf(rows: seq<Order>, orders: map<IntentId, Order>) {
    && (forall i :: 0 <= i < |rows| ==>
          rows[i].intent in orders && orders[rows[i].intent] == rows[i] && rows[i].status.Open())
    && (forall i, j :: 0 <= i < j < |rows| ==> rows[i].intent != rows[j].intent)
    && (forall k :: k in orders && orders[k].status.Open() ==> orders[k] in rows)
  }

  function BuildExecution(order: Order): Option<Execution> {
    var price := if order.price.Some? then order.price.value else 0.0;
    match order.status
    case Filled => Some(Execution(order.id, order.quantity, price, ExecutionCompleted))
    case PartiallyFilled => Some(Execution(order.id, order.quantity, price, ExecutionPending))
    case Failed => Some(Execution(order.id, 0.0, price, ExecutionFailed))
    case Rejected => Some(Execution(order.id, 0.0, price, ExecutionFailed))
    case Cancelled => Some(Execution(order.id, 0.0, price, ExecutionFailed))
    case _ => None
  }

  function OrderEvent(status: OrderStatus): EventKind {
    match status
    case Pending => OrderSubmitted
    case Submitted => OrderSubmitted
    case Accepted => OrderAccepted
    case Rejected => OrderRejected
    case Cancelled => OrderRejected
    case Failed => OrderRejected
    case Filled => OrderAccepted
    case PartiallyFilled => OrderAccepted
  }

  function ExecutionEvent(status: ExecutionStatus): EventKind {
    match status
    case ExecutionCompleted => FillReported
    case ExecutionFailed => ExecutionFailure
    case ExecutionPending => PartialFillReported
  }

  /** `should_skip_existing_order`. */
  predicate ShouldSkip(existing: Option<Order>) {
    existing.Some? && !existing.value.status.Pending?
  }

  // ---------------------------------------------------------------- commits

  function RejectionCommitted(db: Db, k: IntentId): Db {
    db.(intents := db.intents[k := Refused], outbox := db.outbox + multiset{Event(RiskCheckFailed, k)})
  }

  function ReservationCommitted(db: Db, order: Order): Db {
    var k := order.intent;
    db.(intents := db.intents[k := Validated],
        orders := db.orders[k := order],
        outbox := db.outbox + multiset{Event(RiskCheckPassed, k), Event(OrderSubmitted, k)})
  }

  function OutcomeCommitted(db: Db, order: Order): Db {
    var k := order.intent;
    var execution := BuildExecution(order);
    var db1 := db.(orders := UpdateReserved(db.orders, order),
                   outbox := db.outbox + multiset{Event(OrderEvent(order.status), k)});
    if execution.None? then db1
    else db1.(executions := db1.executions + [execution.value],
              outbox := db1.outbox + multiset{Event(ExecutionEvent(execution.value.status), k)})
  }

  function FlagRaised(db: Db, bot: BotId): Db {
    if bot in db.settings then db.(settings := db.settings[bot := db.settings[bot].(emergencyStop := true)]) else db
  }

  function BotPaused(db: Db, bot: BotId): Db {
    if bot in db.bots then db.(bots := db.bots[bot := db.bots[bot].(paused := true)]) else db
  }

  function Acknowledged(db: Db, id: InboxId): Db {
    db.(inbox := db.inbox[id := (if id in db.inbox then db.inbox[id] else 0) + 1])
  }

  // ---------------------------------------------------------------- the step relation

  /** Another open transaction has inserted this key; the insert waits for it. */
  predicate KeyHeld(s: State, k: IntentId) {
    exists w :: w in s.pcs && s.pcs[w].Holding? && s.pcs[w].order.intent == k
  }

  predicate EnvironmentEnabled(s: State, e: EnvironmentStep) {
    match e
    case Generate(row, intent) => row !in s.db.sources
    case PushRaw(row) => row in s.db.sources
    case PushEnvelope(row) => row in s.db.sources
    case Redeliver(m) => m in s.queue
    case Lose(m) => m in s.queue
    case Configure(_, _, _) => true
  }

  predicate WorkerEnabled(s: State, w: WorkerId, step: WorkerStep) {
    var pc := At(s, w);
    match step
    case Pop(m) => pc.Idle? && m in s.queue
    case CheckInbox => pc.Popped?
    case LoadBot => pc.Unseen? && pc.m.intent.bot in s.db.bots
    case LoadSettings => pc.KnowsBot? && pc.m.intent.bot in s.db.settings
    case Judge(_) => pc.Loaded?
    case RaiseFlag => pc.Blocked? && pc.outcome.AutoStop?
    case PauseBot => pc.Flagged?
    case CommitRejection => pc.Rejecting? || (pc.Blocked? && pc.outcome.Reject?)
    case Reserve => pc.Cleared? && pc.ticket.bot.exchange.Some? && !KeyHeld(s, pc.m.intent.id)
    case ReadExisting => pc.Duplicate?
    case CommitReservation => pc.Holding?
    case Execute(answer) =>
      pc.Reserved? && (pc.ticket.bot.mode.Paper? ==> answer.Placed? && answer.status.Filled?)
    case CommitOutcome => pc.Executed?
    case Acknowledge => pc.Finished?
    case Abort => true
  }

  predicate ReconcilerEnabled(s: State, r: ReconcilerStep) {
    match r
    case Poll(rows) => s.recon.Resting? && IsListingOf(rows, s.db.orders)
    case Inspect(_) => s.recon.Looping? && s.recon.todo != []
    case WriteStatus(_) => s.recon.Writing?
    case WritePosition(_) => s.recon.Adding?
    case EndPass => true
  }

  predicate Enabled(s: State, a: Action) {
    match a
    case Env(e) => EnvironmentEnabled(s, e)
    case Work(w, step) => WorkerEnabled(s, w, step)
    case Reconcile(r) => ReconcilerEnabled(s, r)
  }

  function Apply(s: State, a: Action): State
    requires Enabled(s, a)
  {
    match a
    case Env(e) => ApplyEnvironment(s, e)
    case Work(w, step) => ApplyWorker(s, w, step)
    case Reconcile(r) => ApplyReconciler(s, r)
  }

  function ApplyEnvironment(s: State, e: EnvironmentStep): State
    requires EnvironmentEnabled(s, e)
  {
    match e
    case Generate(row, intent) => s.(db := s.db.(sources := s.db.sources[row := intent]))
    case PushRaw(row) => s.(queue := s.queue + multiset{Raw(s.db.sources[row])})
    case PushEnvelope(row) => s.(queue := s.queue + multiset{Envelope(row, s.db.sources[row])})
    case Redeliver(m) => s.(queue := s.queue + multiset{m})
    case Lose(m) => s.(queue := s.queue - multiset{m})
    case Configure(bot, botRow, settings) => DoConfigure(s, bot, botRow, settings)
  }

  function ApplyWorker(s: State, w: WorkerId, step: WorkerStep): State
    requires WorkerEnabled(s, w, step)
  {
    match step
    case Pop(m) => Become(s.(queue := s.queue - multiset{m}), w, Popped(m))
    case CheckInbox => DoCheckInbox(s, w)
    case LoadBot => DoLoadBot(s, w)
    case LoadSettings => DoLoadSettings(s, w)
    case Judge(view) => Become(s, w, Verdict(At(s, w), view))
    case RaiseFlag => DoRaiseFlag(s, w)
    case PauseBot => DoPauseBot(s, w)
    case CommitRejection => DoCommitRejection(s, w)
    case Reserve => DoReserve(s, w)
    case ReadExisting => DoReadExisting(s, w)
    case CommitReservation => DoCommitReservation(s, w)
    case Execute(answer) => DoExecute(s, w, answer)
    case CommitOutcome => DoCommitOutcome(s, w)
    case Acknowledge => DoAcknowledge(s, w)
    case Abort => Become(s, w, Idle)
  }

  function ApplyReconciler(s: State, r: ReconcilerStep): State
    requires ReconcilerEnabled(s, r)
  {
    match r
    case Poll(rows) => s.(recon := Looping(rows))
    case Inspect(reported) => s.(recon := AfterInspect(s.recon, reported))
    case WriteStatus(landed) => DoWriteStatus(s, landed)
    case WritePosition(landed) => DoWritePosition(s, landed)
    case EndPass => DoEndPass(s)
  }

  function DoConfigure(s: State, bot: BotId, botRow: BotRow, settings: RiskSettings): State {
    s.(db := s.db.(bots := s.db.bots[bot := botRow], settings := s.db.settings[bot := settings]))
  }

  function DoCheckInbox(s: State, w: WorkerId): State
    requires At(s, w).Popped?
  {
    var m := At(s, w).m;
    Become(s, w, if InboxIdOf(m) in s.db.inbox then Idle else Unseen(m))
  }

  function DoLoadBot(s: State, w: WorkerId): State
    requires At(s, w).Unseen? && At(s, w).m.intent.bot in s.db.bots
  {
    var m := At(s, w).m;
    Become(s, w, KnowsBot(m, s.db.bots[m.intent.bot]))
  }

  function DoLoadSettings(s: State, w: WorkerId): State
    requires At(s, w).KnowsBot? && At(s, w).m.intent.bot in s.db.settings
  {
    var m := At(s, w).m;
    Become(s, w, Loaded(m, At(s, w).bot, s.db.settings[m.intent.bot]))
  }

  function Verdict(pc: Pc, view: RiskView): Pc
    requires pc.Loaded?
  {
    var outcome := Validate(pc.m.intent, pc.settings, view);
    if outcome.Pass? then Cleared(pc.m, Ticket(pc.bot, pc.settings, view)) else Blocked(pc.m, outcome)
  }

  function DoRaiseFlag(s: State, w: WorkerId): State
    requires At(s, w).Blocked?
  {
    var pc := At(s, w);
    Become(s.(db := FlagRaised(s.db, pc.m.intent.bot)), w, Flagged(pc.m, pc.outcome))
  }

  function DoPauseBot(s: State, w: WorkerId): State
    requires At(s, w).Flagged?
  {
    var pc := At(s, w);
    Become(s.(db := BotPaused(s.db, pc.m.intent.bot)), w, Rejecting(pc.m, pc.outcome))
  }

  function DoCommitRejection(s: State, w: WorkerId): State
    requires At(s, w).Rejecting? || At(s, w).Blocked?
  {
    var m := At(s, w).m;
    Become(s.(db := RejectionCommitted(s.db, m.intent.id),
              hist := s.hist.(rejected := s.hist.rejected + {m.intent.id})), w, Finished(m))
  }

  function DoReserve(s: State, w: WorkerId): State
    requires At(s, w).Cleared?
  {
    var pc := At(s, w);
    if pc.m.intent.id in s.db.orders then Become(s, w, Duplicate(pc.m))
    else Become(s.(nextId := s.nextId + 1), w, Holding(pc.m, pc.ticket, NewOrder(s.nextId, pc.m.intent, pc.ticket.bot)))
  }

  function DoReadExisting(s: State, w: WorkerId): State
    requires At(s, w).Duplicate?
  {
    var m := At(s, w).m;
    var existing := if m.intent.id in s.db.orders then Some(s.db.orders[m.intent.id]) else None;
    Become(s, w, if ShouldSkip(existing) then Finished(m) else Idle)
  }

  function DoCommitReservation(s: State, w: WorkerId): State
    requires At(s, w).Holding?
  {
    var pc := At(s, w);
    Become(s.(db := ReservationCommitted(s.db, pc.order)), w, Reserved(pc.m, pc.ticket, pc.order))
  }

  function DoExecute(s: State, w: WorkerId, answer: ExchangeAnswer): State
    requires At(s, w).Reserved?
  {
    var pc := At(s, w);
    Become(s.(hist := s.hist.(calls := s.hist.calls + [Call(w, pc.m.intent, pc.ticket)])),
           w, Executed(pc.m, AfterExecute(pc.order, answer), answer.PlaceFailed?))
  }

  function DoCommitOutcome(s: State, w: WorkerId): State
    requires At(s, w).Executed?
  {
    var pc := At(s, w);
    var k := pc.order.intent;
    Become(s.(db := OutcomeCommitted(s.db, pc.order),
              hist := s.hist.(settledAs := s.hist.settledAs[k := pc.order.status],
                              executed := if BuildExecution(pc.order).Some? then s.hist.executed + [k]
                                          else s.hist.executed)),
           w, if pc.failed then Idle else Finished(pc.m))
  }

  function DoAcknowledge(s: State, w: WorkerId): State
    requires At(s, w).Finished?
  {
    Become(s.(db := Acknowledged(s.db, InboxIdOf(At(s, w).m))), w, Idle)
  }

  /** An open order without an exchange id, an unreachable exchange and an unchanged status are all passed over. */
  function AfterInspect(recon: Recon, reported: Option<OrderStatus>): Recon
    requires recon.Looping? && recon.todo != []
  {
    var order, rest := recon.todo[0], recon.todo[1..];
    if order.exchangeId.None? || reported.None? || reported.value == order.status then Looping(rest)
    else Writing(order, reported.value, rest)
  }

  /** A status write that fails is logged only: the position is updated all the same. */
  function DoWriteStatus(s: State, landed: bool): State
    requires s.recon.Writing?
  {
    var order, status := s.recon.order, s.recon.status;
    var written := if landed then s.(db := s.db.(orders := UpdateStatus(s.db.orders, order.id, status))) else s;
    if status.Filled? then
      written.(recon := Adding(order, s.recon.todo),
               hist := if landed then s.hist.(moved := s.hist.moved + multiset{order.intent})
                       else s.hist.(unmoved := s.hist.unmoved + multiset{order.intent}))
    else written.(recon := Looping(s.recon.todo))
  }

  function DoWritePosition(s: State, landed: bool): State
    requires s.recon.Adding?
  {
    var order := s.recon.order;
    s.(recon := Looping(s.recon.todo),
       hist := if landed then s.hist.(added := s.hist.added + multiset{order.intent}, fills := s.hist.fills + [order])
               else s.hist.(lost := s.hist.lost + multiset{order.intent}))
  }

  /** The pass ends, or the reconciler dies with whatever it had in hand. */
  function DoEndPass(s: State): State {
    s.(recon := Resting,
       hist := if s.recon.Adding? then s.hist.(lost := s.hist.lost + multiset{s.recon.order.intent}) else s.hist)
  }

  // ---------------------------------------------------------------- runs

  predicate Init(s: State) {
    && s.db.sources == map[] && s.db.intents == map[] && s.db.orders == map[] && s.db.executions == []
    && s.db.outbox == multiset{} && s.db.inbox == map[]
    && s.queue == multiset{} && s.pcs == map[] && s.recon.Resting?
    && s.hist == History([], map[], [], {}, multiset{}, multiset{}, multiset{}, multiset{}, [])
  }

  predicate Step(s: State, a: Action, s': State) {
    Enabled(s, a) && s' == Apply(s, a)
  }

  /** `run[i]` steps to `run[i+1]` by `acts[i]`, from an empty database. */
  predicate IsRun(run: seq<State>, acts: seq<Action>) {
    && |run| == |acts| + 1
    && Init(run[0])
    && forall i :: 0 <= i < |acts| ==> Step(run[i], acts[i], run[i + 1])
  }
}
