/** What the exchange's answer leaves behind in rows and events, and what the gate leaves in the intent row. */
module ProtocolReports {
  import opened Domain
  import opened Protocol
  import opened ProtocolInvariant
  import opened ProtocolTheorems
  import opened ProtocolOrders

  // ================================================================ the row has the answer

  /** The order has what the exchange answered. */
  predicate Reports(o: Order, answer: ExchangeAnswer) {
    match answer
    case Placed(status, exchangeId) => o.status == status && o.exchangeId == Some(exchangeId)
    case PlaceFailed => o.status == Failed && o.exchangeId == None
  }

  lemma ExecutedBy(s: State, w: WorkerId, step: WorkerStep)
    requires WorkerEnabled(s, w, step) && At(ApplyWorker(s, w, step), w).Executed? && InHand(At(s, w), s.hist.calls)
    ensures var before, after := At(s, w), At(ApplyWorker(s, w, step), w);
            && before.Reserved? && step.Execute? && before.m == after.m && before.order.intent == after.order.intent
            && after.failed == step.answer.PlaceFailed? && Reports(after.order, step.answer)
            && (before.ticket.bot.mode.Paper? ==> step.answer.Placed? && step.answer.status.Filled?)
  {
  }

  /** A worker past its call of `execute` made it in step `i` and holds its answer. */
  lemma {:induction false} ExecutedHasAnswer(run: seq<State>, acts: seq<Action>, n: nat, w: WorkerId) returns (i: nat)
    requires IsRun(run, acts) && n < |run| && At(run[n], w).Executed?
    ensures var pc := At(run[n], w);
            && i < n && Executes(run[i], acts[i], pc.m.intent.id) && acts[i].w == w
            && Reports(pc.order, acts[i].step.answer) && pc.failed == acts[i].step.answer.PlaceFailed?
            && (At(run[i], w).ticket.bot.mode.Paper? ==> pc.order.status.Filled?)
    decreases n
  {
    assert n > 0;
    i := n - 1;
    assert Step(run[i], acts[i], run[n]);
    if acts[i].Work? && acts[i].w == w {
      OrdersAreTrue(run, acts, i);
      ExecutedBy(run[i], w, acts[i].step);
    } else {
      StepLeavesOthers(run[i], acts[i], w);
      i := ExecutedHasAnswer(run, acts, i, w);
    }
  }

  /** Of a settled row, what the second transaction wrote. */
  function SettledRow(s: State, k: IntentId): Order
    requires k in s.db.orders && k in s.hist.settledAs
  {
    s.db.orders[k].(status := s.hist.settledAs[k])
  }

  lemma SettledRowStays(s: State, a: Action, k: IntentId)
    requires Inv(s) && Enabled(s, a) && k in s.hist.settledAs
    ensures var s' := Apply(s, a);
            && k in s.db.orders && k in s'.db.orders && k in s'.hist.settledAs && SettledRow(s', k) == SettledRow(s, k)
  {
    StepRespectsWriters(s, a, k);
    if Is(a, CommitOutcome) {
      assert OwningOk(s.pcs[a.w], s.db.orders, s.hist.settledAs);
      assert Apply(s, a) == DoCommitOutcome(s, a.w);
    } else {
      StepKeepsSettled(s, a);
    }
  }

  lemma SettledBy(s: State, a: Action, k: IntentId)
    requires Inv(s) && Enabled(s, a) && k !in s.hist.settledAs && k in Apply(s, a).hist.settledAs
    ensures var s' := Apply(s, a);
            && Is(a, CommitOutcome) && At(s, a.w).Executed? && At(s, a.w).m.intent.id == k
            && k in s'.db.orders && SettledRow(s', k) == At(s, a.w).order
  {
    if Is(a, CommitOutcome) {
      OutcomeEffect(s, a.w);
      assert OwningOk(s.pcs[a.w], s.db.orders, s.hist.settledAs);
      assert Apply(s, a) == DoCommitOutcome(s, a.w);
    } else {
      StepKeepsSettled(s, a);
    }
  }

  /** Step `i` called `execute` for `k`, and the row of `k` was settled as answered. */
  predicate SettledPer(s: State, a: Action, k: IntentId, now: State) {
    && Executes(s, a, k) && k in now.db.orders && k in now.hist.settledAs
    && Reports(SettledRow(now, k), a.step.answer)
    && (At(s, a.w).ticket.bot.mode.Paper? ==> now.hist.settledAs[k] == Filled)
  }

  lemma SettledBefore(run: seq<State>, acts: seq<Action>, t: nat, k: IntentId, i: nat)
    requires IsRun(run, acts) && i < t < |acts| && SettledPer(run[i], acts[i], k, run[t])
    ensures SettledPer(run[i], acts[i], k, run[t + 1])
  {
    RunInv(run, acts, t);
    assert Step(run[t], acts[t], run[t + 1]);
    SettledRowStays(run[t], acts[t], k);
  }

  lemma SettledNow(run: seq<State>, acts: seq<Action>, t: nat, k: IntentId) returns (i: nat)
    requires IsRun(run, acts) && t < |acts| && k !in run[t].hist.settledAs && k in run[t + 1].hist.settledAs
    ensures i < t && SettledPer(run[i], acts[i], k, run[t + 1])
  {
    RunInv(run, acts, t);
    assert Step(run[t], acts[t], run[t + 1]);
    SettledBy(run[t], acts[t], k);
    i := ExecutedHasAnswer(run, acts, t, acts[t].w);
  }

  /**
   The second transaction of an order wrote what the exchange answered to its call of `execute` (step `i`): status and
   exchange id of a placed order, `failed` and none otherwise; a paper order is filled.
   */
  lemma {:induction false} SettledAsAnswered(run: seq<State>, acts: seq<Action>, n: nat, k: IntentId) returns (i: nat)
    requires IsRun(run, acts) && n < |run| && k in run[n].hist.settledAs
    ensures i < n && SettledPer(run[i], acts[i], k, run[n])
    decreases n
  {
    assert n > 0;
    if k in run[n - 1].hist.settledAs {
      i := SettledAsAnswered(run, acts, n - 1, k);
      SettledBefore(run, acts, n - 1, k, i);
    } else {
      i := SettledNow(run, acts, n - 1, k);
    }
  }

  // ================================================================ execution rows

  /** Price and status of an execution row, by the status that the second transaction wrote. */
  predicate ReportsExecution(e: Execution, o: Order, status: OrderStatus) {
    && e.orderId == o.id
    && (match o.price case Some(price) => e.averagePrice == price case None => e.averagePrice == 0.0)
    && (e.status == ExecutionCompleted <==> status == Filled)
    && (e.status == ExecutionPending <==> status == PartiallyFilled)
    && (e.status == ExecutionFailed <==> status == Rejected || status == Cancelled || status == Failed)
    && (e.status != ExecutionFailed ==> e.filledQuantity == o.quantity)
    && (e.status == ExecutionFailed ==> e.filledQuantity == 0.0)
  }

  predicate HasExecution(s: State, k: IntentId)
    requires k in s.db.orders && k in s.hist.settledAs
  {
    exists i :: 0 <= i < |s.db.executions| && ReportsExecution(s.db.executions[i], s.db.orders[k], s.hist.settledAs[k])
  }

  lemma OwedIsReported(k: IntentId, orders: Orders, settled: Settled)
    requires k in orders && k in settled
    ensures var owed := OwedExecution(k, orders, settled);
            && (owed.Some? <==> settled[k] !in {Pending, Submitted, Accepted})
            && (owed.Some? ==> ReportsExecution(owed.value, orders[k], settled[k]))
  {
  }

  /** A settled order has an execution row exactly if it was answered with a final status or a partial fill. */
  lemma ExecutionIff(run: seq<State>, acts: seq<Action>, n: nat, k: IntentId)
    requires IsRun(run, acts) && n < |run| && k in run[n].hist.settledAs
    ensures k in run[n].db.orders
    ensures HasExecution(run[n], k) <==> run[n].hist.settledAs[k] !in {Pending, Submitted, Accepted}
  {
    var s := run[n];
    RunInv(run, acts, n);
    OwedIsReported(k, s.db.orders, s.hist.settledAs);
    if s.hist.settledAs[k] !in {Pending, Submitted, Accepted} {
      var i :| 0 <= i < |s.hist.executed| && s.hist.executed[i] == k;
      assert OwedExecution(k, s.db.orders, s.hist.settledAs) == Some(s.db.executions[i]);
    }
  }

  // ================================================================ events

  /** The statuses of a settled order that an event of this kind announces. */
  function Announced(kind: EventKind): set<OrderStatus> {
    match kind
    case OrderSubmitted => {Pending, Submitted}
    case OrderAccepted => {Accepted, Filled, PartiallyFilled}
    case OrderRejected => {Rejected, Cancelled, Failed}
    case FillReported => {Filled}
    case PartialFillReported => {PartiallyFilled}
    case ExecutionFailure => {Rejected, Cancelled, Failed}
    case RiskCheckPassed => {}
    case RiskCheckFailed => {}
  }

  /** How many events of a kind an intent has: one or none at reservation, one or none at settlement. */
  function Due(kind: EventKind, k: IntentId, orders: Orders, settled: Settled): nat {
    (if k in orders && (kind == RiskCheckPassed || kind == OrderSubmitted) then 1 else 0)
    + if k in settled && settled[k] in Announced(kind) then 1 else 0
  }

  ghost predicate EventsTell(outbox: multiset<Event>, orders: Orders, settled: Settled) {
    forall kind: EventKind, k: IntentId :: kind != RiskCheckFailed ==>
      outbox[Event(kind, k)] == Due(kind, k, orders, settled)
  }

  lemma OutcomeCounts(db: Db, order: Order, kind: EventKind)
    ensures var execution := BuildExecution(order);
            OutcomeCommitted(db, order).outbox[Event(kind, order.intent)]
            == db.outbox[Event(kind, order.intent)]
               + (if kind == OrderEvent(order.status) then 1 else 0)
               + if execution.Some? && kind == ExecutionEvent(execution.value.status) then 1 else 0
  {
  }

  lemma CountsAnnounce(order: Order, kind: EventKind)
    requires kind != RiskCheckFailed
    ensures var execution := BuildExecution(order);
            (if kind == OrderEvent(order.status) then 1 else 0)
            + (if execution.Some? && kind == ExecutionEvent(execution.value.status) then 1 else 0)
            == if order.status in Announced(kind) then 1 else 0
  {
  }

  lemma OutcomeAnnounced(db: Db, order: Order, kind: EventKind)
    requires kind != RiskCheckFailed
    ensures OutcomeCommitted(db, order).outbox[Event(kind, order.intent)]
         == db.outbox[Event(kind, order.intent)] + if order.status in Announced(kind) then 1 else 0
  {
    OutcomeCounts(db, order, kind);
    CountsAnnounce(order, kind);
  }

  lemma OutcomeOfOne(db: Db, order: Order, kind: EventKind, k: IntentId)
    requires k != order.intent
    ensures OutcomeCommitted(db, order).outbox[Event(kind, k)] == db.outbox[Event(kind, k)]
  {
  }

  lemma WorkerKeepsOutbox(s: State, w: WorkerId, step: WorkerStep)
    requires WorkerEnabled(s, w, step)
    requires !step.CommitRejection? && !step.CommitReservation? && !step.CommitOutcome?
    ensures ApplyWorker(s, w, step).db.outbox == s.db.outbox
  {
  }

  lemma StepKeepsOutbox(s: State, a: Action)
    requires Enabled(s, a) && !Is(a, CommitRejection) && !Is(a, CommitReservation) && !Is(a, CommitOutcome)
    ensures Apply(s, a).db.outbox == s.db.outbox
  {
    if a.Work? { WorkerKeepsOutbox(s, a.w, a.step); }
  }

  lemma DueAfterSettling(kind: EventKind, k: IntentId, orders: Orders, settled: Settled, o: Order)
    requires o.intent in orders && o.intent !in settled
    ensures Due(kind, k, orders[o.intent := o], settled[o.intent := o.status])
         == Due(kind, k, orders, settled) + if k == o.intent && o.status in Announced(kind) then 1 else 0
  {
  }

  lemma OutcomeTellsOf(db: Db, o: Order, kind: EventKind, k: IntentId)
    requires kind != RiskCheckFailed
    ensures OutcomeCommitted(db, o).outbox[Event(kind, k)]
         == db.outbox[Event(kind, k)] + if k == o.intent && o.status in Announced(kind) then 1 else 0
  {
    if k == o.intent { OutcomeAnnounced(db, o, kind); } else { OutcomeOfOne(db, o, kind, k); }
  }

  lemma SettlingTells(s: State, w: WorkerId)
    requires Inv(s) && At(s, w).Executed? && EventsTell(s.db.outbox, s.db.orders, s.hist.settledAs)
    ensures var s' := DoCommitOutcome(s, w); EventsTell(s'.db.outbox, s'.db.orders, s'.hist.settledAs)
  {
    var s', o := DoCommitOutcome(s, w), At(s, w).order;
    OutcomeEffect(s, w);
    assert s'.db == OutcomeCommitted(s.db, o) && s'.hist.settledAs == s.hist.settledAs[o.intent := o.status];
    forall kind: EventKind, k: IntentId | kind != RiskCheckFailed
      ensures s'.db.outbox[Event(kind, k)] == Due(kind, k, s'.db.orders, s'.hist.settledAs)
    {
      OutcomeTellsOf(s.db, o, kind, k);
      DueAfterSettling(kind, k, s.db.orders, s.hist.settledAs, o);
    }
  }

  lemma ReservingTells(s: State, w: WorkerId)
    requires Inv(s) && At(s, w).Holding? && EventsTell(s.db.outbox, s.db.orders, s.hist.settledAs)
    ensures var s' := DoCommitReservation(s, w); EventsTell(s'.db.outbox, s'.db.orders, s'.hist.settledAs)
  {
    assert HoldingOk(s.pcs[w], s.db.orders, s.nextId);
  }

  lemma SameRowsTell(s: State, a: Action)
    requires Inv(s) && Enabled(s, a) && EventsTell(s.db.outbox, s.db.orders, s.hist.settledAs)
    requires !Is(a, CommitRejection) && !Is(a, CommitReservation) && !Is(a, CommitOutcome)
    ensures EventsTell(Apply(s, a).db.outbox, Apply(s, a).db.orders, Apply(s, a).hist.settledAs)
  {
    StepKeepsOutbox(s, a);
    StepKeepsSettled(s, a);
    OnlyReservingAddsRows(s, a);
  }

  lemma RejectingTells(s: State, w: WorkerId)
    requires At(s, w).Rejecting? || At(s, w).Blocked?
    requires EventsTell(s.db.outbox, s.db.orders, s.hist.settledAs)
    ensures var s' := DoCommitRejection(s, w); EventsTell(s'.db.outbox, s'.db.orders, s'.hist.settledAs)
  {
  }

  lemma StepKeepsTelling(s: State, a: Action)
    requires Inv(s) && Enabled(s, a) && EventsTell(s.db.outbox, s.db.orders, s.hist.settledAs)
    ensures EventsTell(Apply(s, a).db.outbox, Apply(s, a).db.orders, Apply(s, a).hist.settledAs)
  {
    if Is(a, CommitRejection) {
      RejectingTells(s, a.w);
    } else if Is(a, CommitReservation) {
      ReservingTells(s, a.w);
    } else if Is(a, CommitOutcome) {
      SettlingTells(s, a.w);
    } else {
      SameRowsTell(s, a);
    }
  }

  lemma TellingKeptAt(run: seq<State>, acts: seq<Action>, t: nat)
    requires IsRun(run, acts) && t < |acts|
    requires EventsTell(run[t].db.outbox, run[t].db.orders, run[t].hist.settledAs)
    ensures EventsTell(run[t + 1].db.outbox, run[t + 1].db.orders, run[t + 1].hist.settledAs)
  {
    RunInv(run, acts, t);
    assert Step(run[t], acts[t], run[t + 1]);
    StepKeepsTelling(run[t], acts[t]);
  }

  /**
   In every run the outbox has, for each intent, exactly the events that its order calls for: `risk.check.passed` and a
   first `order.submitted` with the row, and those that announce the status of its settlement.
   */
  lemma {:induction false} EventsMatchOrders(run: seq<State>, acts: seq<Action>, n: nat)
    requires IsRun(run, acts) && n < |run|
    ensures EventsTell(run[n].db.outbox, run[n].db.orders, run[n].hist.settledAs)
    decreases n
  {
    if n > 0 {
      EventsMatchOrders(run, acts, n - 1);
      TellingKeptAt(run, acts, n - 1);
    }
  }

  // ================================================================ refusals

  predicate Rejects(s: State, a: Action, k: IntentId) {
    Is(a, CommitRejection) && !At(s, a.w).Idle? && At(s, a.w).m.intent.id == k
  }

  /** How often the first `n` steps of a run committed a rejection of `k`. */
  function Rejections(run: seq<State>, acts: seq<Action>, n: nat, k: IntentId): nat
    requires n <= |acts| && |run| == |acts| + 1
  {
    if n == 0 then 0
    else Rejections(run, acts, n - 1, k) + if Rejects(run[n - 1], acts[n - 1], k) then 1 else 0
  }

  /** The intent row says `refused` or `validated` for a reason. */
  predicate IntentTold(k: IntentId, intents: map<IntentId, IntentStatus>, orders: Orders, rejections: nat) {
    && (k in intents <==> k in orders || rejections > 0)
    && (k in intents && intents[k].Refused? ==> rejections > 0)
    && (k in intents && intents[k].Validated? ==> k in orders)
  }

  lemma OutcomeKeepsIntents(db: Db, order: Order)
    ensures OutcomeCommitted(db, order).intents == db.intents
  {
  }

  lemma WorkerKeepsIntents(s: State, w: WorkerId, step: WorkerStep)
    requires WorkerEnabled(s, w, step) && !step.CommitRejection? && !step.CommitReservation?
    ensures ApplyWorker(s, w, step).db.intents == s.db.intents
  {
    if step.CommitOutcome? { OutcomeKeepsIntents(s.db, At(s, w).order); }
  }

  lemma StepKeepsIntents(s: State, a: Action)
    requires Enabled(s, a) && !Is(a, CommitRejection) && !Is(a, CommitReservation)
    ensures Apply(s, a).db.intents == s.db.intents
  {
    if a.Work? { WorkerKeepsIntents(s, a.w, a.step); }
  }

  lemma OutcomeFailsNothing(db: Db, order: Order, k: IntentId)
    ensures OutcomeCommitted(db, order).outbox[Event(RiskCheckFailed, k)] == db.outbox[Event(RiskCheckFailed, k)]
  {
  }

  lemma StepKeepsFailures(s: State, a: Action, k: IntentId)
    requires Enabled(s, a)
    ensures Apply(s, a).db.outbox[Event(RiskCheckFailed, k)]
         == s.db.outbox[Event(RiskCheckFailed, k)] + if Rejects(s, a, k) then 1 else 0
  {
    if Is(a, CommitOutcome) {
      OutcomeFailsNothing(s.db, At(s, a.w).order, k);
      assert Apply(s, a) == DoCommitOutcome(s, a.w);
    } else if !Is(a, CommitRejection) && !Is(a, CommitReservation) {
      StepKeepsOutbox(s, a);
    }
  }

  lemma ReservingKeepsIntentTold(s: State, w: WorkerId, k: IntentId, rejections: nat)
    requires Inv(s) && At(s, w).Holding? && IntentTold(k, s.db.intents, s.db.orders, rejections)
    ensures var s' := DoCommitReservation(s, w); IntentTold(k, s'.db.intents, s'.db.orders, rejections)
  {
    assert HoldingOk(s.pcs[w], s.db.orders, s.nextId);
  }

  lemma RejectingKeepsIntentTold(s: State, w: WorkerId, k: IntentId, rejections: nat)
    requires (At(s, w).Rejecting? || At(s, w).Blocked?) && IntentTold(k, s.db.intents, s.db.orders, rejections)
    ensures var s' := DoCommitRejection(s, w);
            IntentTold(k, s'.db.intents, s'.db.orders, rejections + if At(s, w).m.intent.id == k then 1 else 0)
  {
  }

  lemma StepKeepsIntentTold(s: State, a: Action, k: IntentId, rejections: nat)
    requires Inv(s) && Enabled(s, a) && IntentTold(k, s.db.intents, s.db.orders, rejections)
    ensures IntentTold(
              k, Apply(s, a).db.intents, Apply(s, a).db.orders, rejections + if Rejects(s, a, k) then 1 else 0)
  {
    if Is(a, CommitReservation) {
      ReservingKeepsIntentTold(s, a.w, k, rejections);
    } else if Is(a, CommitRejection) {
      RejectingKeepsIntentTold(s, a.w, k, rejections);
    } else {
      OnlyReservingAddsRows(s, a);
      StepKeepsIntents(s, a);
    }
  }

  predicate RefusalsTold(k: IntentId, db: Db, rejections: nat) {
    db.outbox[Event(RiskCheckFailed, k)] == rejections && IntentTold(k, db.intents, db.orders, rejections)
  }

  lemma NothingToldAtFirst(s: State, k: IntentId)
    requires Init(s)
    ensures RefusalsTold(k, s.db, 0)
  {
  }

  lemma RefusalsToldAt(run: seq<State>, acts: seq<Action>, t: nat, k: IntentId, rejections: nat)
    requires IsRun(run, acts) && t < |acts| && RefusalsTold(k, run[t].db, rejections)
    ensures RefusalsTold(k, run[t + 1].db, rejections + if Rejects(run[t], acts[t], k) then 1 else 0)
  {
    RunInv(run, acts, t);
    assert Step(run[t], acts[t], run[t + 1]);
    StepKeepsFailures(run[t], acts[t], k);
    StepKeepsIntentTold(run[t], acts[t], k, rejections);
  }

  /**
   In every run each committed rejection of an intent has its `risk.check.failed`; an intent row exists exactly for
   intents with an order row or a rejection, and says `refused` only after a rejection, `validated` only with a row.
   */
  lemma {:induction false} RefusalsAreTold(run: seq<State>, acts: seq<Action>, n: nat, k: IntentId)
    requires IsRun(run, acts) && n < |run|
    ensures RefusalsTold(k, run[n].db, Rejections(run, acts, n, k))
    decreases n
  {
    if n == 0 {
      NothingToldAtFirst(run[0], k);
    } else {
      RefusalsAreTold(run, acts, n - 1, k);
      RefusalsToldAt(run, acts, n - 1, k, Rejections(run, acts, n - 1, k));
    }
  }

  // ================================================================ redelivery

  /** A delivery that finds the key taken ends in Ok exactly if the order has left pending by then. */
  lemma RedeliveryEndsInOkIff(s: State, w: WorkerId)
    requires At(s, w).Duplicate?
    ensures var m, pc := At(s, w).m, At(DoReadExisting(s, w), w);
            if m.intent.id in s.db.orders && s.db.orders[m.intent.id].status != Pending then pc == Finished(m)
            else pc == Idle
  {
  }
}
