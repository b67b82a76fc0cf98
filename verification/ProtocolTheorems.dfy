/** What every run of the protocol guarantees. */
module ProtocolTheorems {
  import opened Domain
  import opened Protocol
  import opened ProtocolInvariant

  lemma {:induction false} RunInv(run: seq<State>, acts: seq<Action>, n: nat)
    requires IsRun(run, acts) && n < |run|
    ensures Inv(run[n])
    decreases n
  {
    if n == 0 {
      InitInv(run[0]);
    } else {
      RunInv(run, acts, n - 1);
      assert Step(run[n - 1], acts[n - 1], run[n]);
      StepKeepsInv(run[n - 1], acts[n - 1]);
    }
  }

  // ================================================================ what a step can change

  predicate Is(a: Action, step: WorkerStep) {
    a.Work? && a.step == step
  }

  predicate WritesRows(a: Action) {
    Is(a, CommitReservation) || Is(a, CommitOutcome) || (a.Reconcile? && a.r.WriteStatus?)
  }

  function CallMade(s: State, a: Action): seq<Call> {
    if a.Work? && a.step.Execute? && At(s, a.w).Reserved?
    then [Call(a.w, At(s, a.w).m.intent, At(s, a.w).ticket)]
    else []
  }

  lemma WorkerKeepsOrders(s: State, w: WorkerId, step: WorkerStep)
    requires WorkerEnabled(s, w, step) && !step.CommitReservation? && !step.CommitOutcome?
    ensures ApplyWorker(s, w, step).db.orders == s.db.orders
  {
  }

  lemma StepKeepsOrders(s: State, a: Action)
    requires Enabled(s, a) && !WritesRows(a)
    ensures Apply(s, a).db.orders == s.db.orders
  {
    if a.Work? { WorkerKeepsOrders(s, a.w, a.step); }
  }

  lemma WorkerKeepsSettled(s: State, w: WorkerId, step: WorkerStep)
    requires WorkerEnabled(s, w, step) && !step.CommitOutcome?
    ensures ApplyWorker(s, w, step).hist.settledAs == s.hist.settledAs
  {
  }

  lemma StepKeepsSettled(s: State, a: Action)
    requires Enabled(s, a) && !Is(a, CommitOutcome)
    ensures Apply(s, a).hist.settledAs == s.hist.settledAs
  {
    if a.Work? { WorkerKeepsSettled(s, a.w, a.step); }
  }

  lemma WorkerKeepsRejected(s: State, w: WorkerId, step: WorkerStep)
    requires WorkerEnabled(s, w, step) && !step.CommitRejection?
    ensures ApplyWorker(s, w, step).hist.rejected == s.hist.rejected
  {
  }

  lemma StepKeepsRejected(s: State, a: Action)
    requires Enabled(s, a) && !Is(a, CommitRejection)
    ensures Apply(s, a).hist.rejected == s.hist.rejected
  {
    if a.Work? { WorkerKeepsRejected(s, a.w, a.step); }
  }

  lemma WorkerCalls(s: State, w: WorkerId, step: WorkerStep)
    requires WorkerEnabled(s, w, step)
    ensures ApplyWorker(s, w, step).hist.calls == s.hist.calls + CallMade(s, Work(w, step))
  {
  }

  lemma StepCalls(s: State, a: Action)
    requires Enabled(s, a)
    ensures Apply(s, a).hist.calls == s.hist.calls + CallMade(s, a)
  {
    if a.Work? { WorkerCalls(s, a.w, a.step); }
  }

  lemma WorkerLeavesOthers(s: State, w: WorkerId, step: WorkerStep, v: WorkerId)
    requires WorkerEnabled(s, w, step) && v != w
    ensures At(ApplyWorker(s, w, step), v) == At(s, v)
  {
  }

  lemma StepLeavesOthers(s: State, a: Action, v: WorkerId)
    requires Enabled(s, a) && !(a.Work? && a.w == v)
    ensures At(Apply(s, a), v) == At(s, v)
  {
    if a.Work? { WorkerLeavesOthers(s, a.w, a.step, v); }
  }

  // ================================================================ at most one execution

  /** Step `a` calls `execute` for intent `k`. */
  predicate Executes(s: State, a: Action, k: IntentId) {
    a.Work? && a.step.Execute? && At(s, a.w).Reserved? && At(s, a.w).m.intent.id == k
  }

  lemma {:induction false} CallsOnlyGrow(run: seq<State>, acts: seq<Action>, i: nat, j: nat)
    requires IsRun(run, acts) && i <= j < |run|
    ensures run[i].hist.calls <= run[j].hist.calls
    decreases j - i
  {
    if i < j {
      CallsOnlyGrow(run, acts, i, j - 1);
      assert Step(run[j - 1], acts[j - 1], run[j]);
      StepCalls(run[j - 1], acts[j - 1]);
    }
  }

  /** A reserved intent that still waits for its call has had none. */
  lemma WaitingMeansUncalled(s: State, w: WorkerId, n: nat)
    requires Inv(s) && At(s, w).Reserved? && n < |s.hist.calls|
    ensures s.hist.calls[n].intent.id != At(s, w).m.intent.id
  {
    assert OwningOk(s.pcs[w], s.db.orders, s.hist.settledAs);
  }

  /** No two steps of any run call `execute` for the same intent. */
  lemma ExecutedAtMostOnce(run: seq<State>, acts: seq<Action>, i: nat, j: nat, k: IntentId)
    requires IsRun(run, acts) && i < j < |acts|
    requires Executes(run[i], acts[i], k)
    ensures !Executes(run[j], acts[j], k)
  {
    var n := |run[i].hist.calls|;
    assert Step(run[i], acts[i], run[i + 1]);
    StepCalls(run[i], acts[i]);
    assert run[i + 1].hist.calls[n].intent.id == k;
    CallsOnlyGrow(run, acts, i + 1, j);
    RunInv(run, acts, j);
    if acts[j].Work? && At(run[j], acts[j].w).Reserved? {
      WaitingMeansUncalled(run[j], acts[j].w, n);
    }
  }

  /** Step `a` saves inbox id `id`. */
  predicate Acknowledges(s: State, a: Action, id: InboxId) {
    Is(a, Acknowledge) && At(s, a.w).Finished? && InboxIdOf(At(s, a.w).m) == id
  }

  function Attempts(db: Db, id: InboxId): nat {
    if id in db.inbox then db.inbox[id] else 0
  }

  lemma WorkerInbox(s: State, w: WorkerId, step: WorkerStep, id: InboxId)
    requires WorkerEnabled(s, w, step)
    ensures var s' := ApplyWorker(s, w, step);
            if Acknowledges(s, Work(w, step), id) then id in s'.db.inbox && s'.db.inbox[id] == Attempts(s.db, id) + 1
            else (id in s'.db.inbox <==> id in s.db.inbox) && Attempts(s'.db, id) == Attempts(s.db, id)
  {
  }

  lemma StepInbox(s: State, a: Action, id: InboxId)
    requires Enabled(s, a) && (id in s.db.inbox <==> Attempts(s.db, id) > 0)
    ensures var s' := Apply(s, a);
            && Attempts(s'.db, id) == Attempts(s.db, id) + (if Acknowledges(s, a, id) then 1 else 0)
            && (id in s'.db.inbox <==> Attempts(s'.db, id) > 0)
  {
    if a.Work? { WorkerInbox(s, a.w, a.step, id); }
  }

  /** How often the first `n` steps of a run acknowledged `id`. */
  function Acknowledgements(run: seq<State>, acts: seq<Action>, n: nat, id: InboxId): nat
    requires n <= |acts| && |run| == |acts| + 1
  {
    if n == 0 then 0
    else Acknowledgements(run, acts, n - 1, id) + if Acknowledges(run[n - 1], acts[n - 1], id) then 1 else 0
  }

  /** An inbox row exists once its id was acknowledged, and its delivery attempts count the acknowledgements. */
  lemma {:induction false} InboxCountsAcknowledgements(run: seq<State>, acts: seq<Action>, n: nat, id: InboxId)
    requires IsRun(run, acts) && n < |run|
    ensures Attempts(run[n].db, id) == Acknowledgements(run, acts, n, id)
    ensures id in run[n].db.inbox <==> Acknowledgements(run, acts, n, id) > 0
    decreases n
  {
    if n > 0 {
      InboxCountsAcknowledgements(run, acts, n - 1, id);
      assert Step(run[n - 1], acts[n - 1], run[n]);
      StepInbox(run[n - 1], acts[n - 1], id);
    }
  }

  /**
   The inbox does not keep the two deliveries of an intent apart: an envelope gets past it exactly when no envelope
   of the same outbox row was acknowledged, whatever became of the raw message.
   */
  lemma InboxIgnoresOtherDelivery(run: seq<State>, acts: seq<Action>, n: nat, w: WorkerId)
    requires IsRun(run, acts) && n < |run| && At(run[n], w).Popped? && At(run[n], w).m.Envelope?
    ensures var m := At(run[n], w).m;
            At(DoCheckInbox(run[n], w), w) == Unseen(m) <==> Acknowledgements(run, acts, n, OfRow(m.row)) == 0
  {
    InboxCountsAcknowledgements(run, acts, n, OfRow(At(run[n], w).m.row));
  }

  /** Any delivery gets past the inbox exactly when its own id was not acknowledged: an intent's, or an outbox row's. */
  lemma KnownMessagesAreDropped(run: seq<State>, acts: seq<Action>, n: nat, w: WorkerId)
    requires IsRun(run, acts) && n < |run| && At(run[n], w).Popped?
    ensures var m := At(run[n], w).m;
            var id := match m case Raw(intent) => OfIntent(intent.id) case Envelope(row, _) => OfRow(row);
            At(DoCheckInbox(run[n], w), w)
            == if Acknowledgements(run, acts, n, id) == 0 then Unseen(m) else Idle
  {
    InboxCountsAcknowledgements(run, acts, n, InboxIdOf(At(run[n], w).m));
  }

  // ================================================================ one writer per order row

  /** What a step may do to an existing order row. */
  predicate RowStep(s: State, a: Action, s': State, k: IntentId) {
    k in s.db.orders && k in s'.db.orders &&
    (|| s'.db.orders[k] == s.db.orders[k]
     // its reserving worker, once, while it is still as reserved
     || (Is(a, CommitOutcome) && At(s, a.w).Executed? && At(s, a.w).order.intent == k
         && k !in s.hist.settledAs && s.db.orders[k] == AsReserved(At(s, a.w).order)
         && s'.db.orders[k] == At(s, a.w).order)
     // the reconciler, holding exactly the row in the table, open and settled
     || (a == Reconcile(WriteStatus(true)) && s.recon.Writing? && s.recon.order == s.db.orders[k]
         && k in s.hist.settledAs && s.db.orders[k].status.Open()
         && s'.db.orders[k] == s.db.orders[k].(status := s.recon.status)))
  }

  lemma SettlingRespectsWriters(s: State, w: WorkerId, k: IntentId)
    requires Inv(s) && At(s, w).Executed? && k in s.db.orders
    ensures RowStep(s, Work(w, CommitOutcome), DoCommitOutcome(s, w), k)
  {
    OutcomeEffect(s, w);
  }

  lemma ReservingRespectsWriters(s: State, w: WorkerId, k: IntentId)
    requires Inv(s) && At(s, w).Holding? && k in s.db.orders
    ensures RowStep(s, Work(w, CommitReservation), DoCommitReservation(s, w), k)
  {
    assert HoldingOk(At(s, w), s.db.orders, s.nextId);
  }

  lemma ReconcilingRespectsWriters(s: State, landed: bool, k: IntentId)
    requires Inv(s) && s.recon.Writing? && k in s.db.orders
    ensures RowStep(s, Reconcile(WriteStatus(landed)), DoWriteStatus(s, landed), k)
  {
    StatusWritten(s);
  }

  lemma StepRespectsWriters(s: State, a: Action, k: IntentId)
    requires Inv(s) && Enabled(s, a) && k in s.db.orders
    ensures RowStep(s, a, Apply(s, a), k)
  {
    if Is(a, CommitReservation) {
      ReservingRespectsWriters(s, a.w, k);
    } else if Is(a, CommitOutcome) {
      SettlingRespectsWriters(s, a.w, k);
    } else if a.Reconcile? && a.r.WriteStatus? {
      ReconcilingRespectsWriters(s, a.r.landed, k);
    } else {
      StepKeepsOrders(s, a);
    }
  }

  /** In every run each row is written by its reserving worker until it settles, then only by the reconciler. */
  lemma OneWriterAtATime(run: seq<State>, acts: seq<Action>, n: nat, k: IntentId)
    requires IsRun(run, acts) && n < |acts| && k in run[n].db.orders
    ensures RowStep(run[n], acts[n], run[n + 1], k)
  {
    RunInv(run, acts, n);
    assert Step(run[n], acts[n], run[n + 1]);
    StepRespectsWriters(run[n], acts[n], k);
  }

  /** The reconciler acts only on rows that are in the table exactly as its snapshot shows them. */
  lemma SnapshotNeverStale(run: seq<State>, acts: seq<Action>, n: nat)
    requires IsRun(run, acts) && n < |run|
    ensures forall o :: o in Todo(run[n].recon) && o.exchangeId.Some? ==>
              (o.intent in run[n].db.orders && run[n].db.orders[o.intent] == o)
    ensures run[n].recon.Writing? ==>
              var o := run[n].recon.order; o.intent in run[n].db.orders && run[n].db.orders[o.intent] == o
  {
    RunInv(run, acts, n);
  }

  // ================================================================ terminal statuses

  /** A filled, rejected, cancelled or failed order never changes again. */
  lemma {:induction false} TerminalOrdersAreFinal(run: seq<State>, acts: seq<Action>, i: nat, j: nat, k: IntentId)
    requires IsRun(run, acts) && i <= j < |run|
    requires k in run[i].db.orders && run[i].db.orders[k].status in {Filled, Rejected, Cancelled, Failed}
    ensures k in run[j].db.orders && run[j].db.orders[k] == run[i].db.orders[k]
    decreases j - i
  {
    if i < j {
      TerminalOrdersAreFinal(run, acts, i, j - 1, k);
      assert !run[j - 1].db.orders[k].status.Open();
      OneWriterAtATime(run, acts, j - 1, k);
    }
  }

  // ================================================================ acknowledgement

  /** Step `a` commits the risk rejection or the execution outcome of intent `k`. */
  predicate Decides(s: State, a: Action, k: IntentId) {
    || (Is(a, CommitRejection) && !At(s, a.w).Idle? && At(s, a.w).m.intent.id == k)
    || (Is(a, CommitOutcome) && At(s, a.w).Executed? && At(s, a.w).order.intent == k)
  }

  lemma DecisionIsStep(s: State, a: Action, k: IntentId)
    requires Enabled(s, a) && !Decided(k, s.hist.rejected, s.hist.settledAs)
    requires var s' := Apply(s, a); Decided(k, s'.hist.rejected, s'.hist.settledAs)
    ensures Decides(s, a, k)
  {
    if Is(a, CommitRejection) {
      StepKeepsSettled(s, a);
      assert Apply(s, a) == DoCommitRejection(s, a.w);
    } else if Is(a, CommitOutcome) {
      assert Apply(s, a) == DoCommitOutcome(s, a.w);
    } else {
      StepKeepsSettled(s, a);
      StepKeepsRejected(s, a);
    }
  }

  lemma {:induction false} DecisionsHaveSteps(run: seq<State>, acts: seq<Action>, n: nat, k: IntentId) returns (i: nat)
    requires IsRun(run, acts) && n < |run| && Decided(k, run[n].hist.rejected, run[n].hist.settledAs)
    ensures i < n && Decides(run[i], acts[i], k)
    decreases n
  {
    assert n > 0;
    i := n - 1;
    assert Step(run[i], acts[i], run[n]);
    if Decided(k, run[i].hist.rejected, run[i].hist.settledAs) {
      i := DecisionsHaveSteps(run, acts, i, k);
    } else {
      DecisionIsStep(run[i], acts[i], k);
    }
  }

  /** The intent that an inbox id stands for. */
  function IntentOf(id: InboxId, db: Db): Option<IntentId> {
    match id
    case OfIntent(k) => Some(k)
    case OfRow(r) => if r in db.sources then Some(db.sources[r].id) else None
  }

  // ================================================================ by whose run of the loop

  predicate Pops(a: Action, w: WorkerId) {
    a.Work? && a.w == w && a.step.Pop?
  }

  /**
   Worker `w` concludes message `m`: it commits the rejection, commits the outcome of an execution that did not fail, or
   finds the order of the intent settled by another delivery and no longer pending.
   */
  predicate Concludes(s: State, a: Action, w: WorkerId, m: Message) {
    var pc := At(s, w);
    a.Work? && a.w == w &&
    (|| (a.step.CommitRejection? && (pc.Rejecting? || pc.Blocked?) && pc.m == m)
     || (a.step.CommitOutcome? && pc.Executed? && !pc.failed && pc.m == m && pc.order.intent == m.intent.id)
     || (a.step.ReadExisting? && pc == Duplicate(m) && m.intent.id in s.hist.settledAs
         && m.intent.id in s.db.orders && !s.db.orders[m.intent.id].status.Pending?))
  }

  lemma FinishingConcludes(s: State, w: WorkerId, step: WorkerStep)
    requires Inv(s) && WorkerEnabled(s, w, step) && At(ApplyWorker(s, w, step), w).Finished?
    ensures Concludes(s, Work(w, step), w, At(ApplyWorker(s, w, step), w).m) && !step.Pop?
  {
    if At(s, w).Executed? {
      assert OwningOk(s.pcs[w], s.db.orders, s.hist.settledAs);
    }
  }

  /** A worker that has finished a message concluded it in the same run of its loop. */
  lemma {:induction false} FinishedByOwnStep(run: seq<State>, acts: seq<Action>, n: nat, w: WorkerId) returns (i: nat)
    requires IsRun(run, acts) && n < |run| && At(run[n], w).Finished?
    ensures i < n && Concludes(run[i], acts[i], w, At(run[n], w).m) && forall t :: i <= t < n ==> !Pops(acts[t], w)
    decreases n
  {
    assert n > 0;
    i := n - 1;
    assert Step(run[i], acts[i], run[n]);
    if acts[i].Work? && acts[i].w == w {
      RunInv(run, acts, i);
      FinishingConcludes(run[i], w, acts[i].step);
    } else {
      StepLeavesOthers(run[i], acts[i], w);
      i := FinishedByOwnStep(run, acts, i, w);
    }
  }

  /** Every acknowledgement, of whichever delivery, follows a conclusion by the same worker on the same message. */
  lemma AcknowledgementIsEarned(run: seq<State>, acts: seq<Action>, j: nat, id: InboxId) returns (i: nat)
    requires IsRun(run, acts) && j < |acts| && Acknowledges(run[j], acts[j], id)
    ensures var w, m := acts[j].w, At(run[j], acts[j].w).m;
            && InboxIdOf(m) == id && i < j && Concludes(run[i], acts[i], w, m)
            && forall t :: i <= t < j ==> !Pops(acts[t], w)
  {
    i := FinishedByOwnStep(run, acts, j, acts[j].w);
  }

  lemma {:induction false} AcknowledgedAtSomeStep(run: seq<State>, acts: seq<Action>, n: nat, id: InboxId)
    returns (j: nat)
    requires n <= |acts| && |run| == |acts| + 1 && Acknowledgements(run, acts, n, id) > 0
    ensures j < n && Acknowledges(run[j], acts[j], id)
  {
    j := n - 1;
    if !Acknowledges(run[j], acts[j], id) { j := AcknowledgedAtSomeStep(run, acts, j, id); }
  }

  /**
   An id is in the inbox only after a worker acknowledged it (step `j`), having concluded the same message in the same
   run of its loop (step `c`); and its intent was then rejected or its order's second transaction committed (step `i`).
   */
  lemma AcknowledgedMeansDecided(run: seq<State>, acts: seq<Action>, n: nat, id: InboxId)
    returns (k: IntentId, i: nat, j: nat, c: nat)
    requires IsRun(run, acts) && n < |run| && id in run[n].db.inbox
    ensures IntentOf(id, run[n].db) == Some(k) && i < n && Decides(run[i], acts[i], k)
    ensures c < j < n && Acknowledges(run[j], acts[j], id)
    ensures var w, m := acts[j].w, At(run[j], acts[j].w).m;
            Concludes(run[c], acts[c], w, m) && forall t :: c <= t < j ==> !Pops(acts[t], w)
  {
    RunInv(run, acts, n);
    k := match id case OfIntent(k) => k case OfRow(r) => run[n].db.sources[r].id;
    assert Decided(k, run[n].hist.rejected, run[n].hist.settledAs);
    i := DecisionsHaveSteps(run, acts, n, k);
    InboxCountsAcknowledgements(run, acts, n, id);
    j := AcknowledgedAtSomeStep(run, acts, n, id);
    c := AcknowledgementIsEarned(run, acts, j, id);
  }

  // ================================================================ the ledger

  function ReportedFill(order: Order, status: OrderStatus): real {
    if status.Filled? || status.PartiallyFilled? then order.quantity else 0.0
  }

  /** In every committed state an intent has one `risk.check.passed` event if its order row exists, none otherwise. */
  lemma OnePassPerOrder(run: seq<State>, acts: seq<Action>, n: nat, k: IntentId)
    requires IsRun(run, acts) && n < |run|
    ensures run[n].db.outbox[Event(RiskCheckPassed, k)] == if k in run[n].db.orders then 1 else 0
  {
    RunInv(run, acts, n);
  }

  /**
   Execution rows belong to distinct settled orders, and report the order's quantity or zero according to the
   status that the second transaction wrote.
   */
  lemma OneExecutionPerOrder(run: seq<State>, acts: seq<Action>, n: nat, i: nat) returns (k: IntentId)
    requires IsRun(run, acts) && n < |run| && i < |run[n].db.executions|
    ensures var e, s := run[n].db.executions[i], run[n];
            && k in s.db.orders && k in s.hist.settledAs && s.db.orders[k].id == e.orderId
            && e.filledQuantity == ReportedFill(s.db.orders[k], s.hist.settledAs[k])
            && forall j :: 0 <= j < |s.db.executions| && s.db.executions[j].orderId == e.orderId ==> j == i
  {
    var s := run[n];
    RunInv(run, acts, n);
    k := s.hist.executed[i];
    assert OwedExecution(k, s.db.orders, s.hist.settledAs) == Some(s.db.executions[i]);
    forall j | 0 <= j < |s.db.executions| && s.db.executions[j].orderId == s.db.executions[i].orderId ensures j == i {
      var l := s.hist.executed[j];
      assert OwedExecution(l, s.db.orders, s.hist.settledAs) == Some(s.db.executions[j]);
      assert s.db.orders[k].id == s.db.orders[l].id;
    }
  }

  // ================================================================ orphaned reservations

  /** The order of `k` is reserved, but the worker that reserved it is gone. */
  ghost predicate Orphaned(s: State, k: IntentId) {
    && k in s.db.orders && k !in s.hist.settledAs
    && forall w :: w in s.pcs && s.pcs[w].Owning() ==> s.pcs[w].order.intent != k
  }

  lemma OwnersComeFromHolders(s: State, w: WorkerId, step: WorkerStep)
    requires WorkerEnabled(s, w, step)
    ensures var before, after := At(s, w), At(ApplyWorker(s, w, step), w);
            after.Owning() ==>
              (before.Reserved? || before.Holding?) && after.order.intent == before.order.intent
  {
  }

  lemma WorkerKeepsOrphan(s: State, w: WorkerId, step: WorkerStep, k: IntentId)
    requires Inv(s) && WorkerEnabled(s, w, step) && Orphaned(s, k)
    ensures At(ApplyWorker(s, w, step), w).Owning() ==> At(ApplyWorker(s, w, step), w).order.intent != k
  {
    OwnersComeFromHolders(s, w, step);
    if At(s, w).Holding? {
      assert HoldingOk(s.pcs[w], s.db.orders, s.nextId);
    }
  }

  lemma OrphanStaysUnsettled(s: State, a: Action, k: IntentId)
    requires Inv(s) && Enabled(s, a) && Orphaned(s, k)
    ensures k in Apply(s, a).db.orders && k !in Apply(s, a).hist.settledAs
  {
    StepRespectsWriters(s, a, k);
    if Is(a, CommitOutcome) {
      assert OwningOk(s.pcs[a.w], s.db.orders, s.hist.settledAs);
      assert Apply(s, a) == DoCommitOutcome(s, a.w);
    } else {
      StepKeepsSettled(s, a);
    }
  }

  lemma OrphanIsNotExecuted(s: State, a: Action, k: IntentId)
    requires Inv(s) && Enabled(s, a) && Orphaned(s, k)
    ensures !Executes(s, a, k)
  {
    if a.Work? && At(s, a.w).Reserved? {
      assert OwningOk(s.pcs[a.w], s.db.orders, s.hist.settledAs);
    }
  }

  lemma StepKeepsOrphan(s: State, a: Action, k: IntentId)
    requires Inv(s) && Enabled(s, a) && Orphaned(s, k)
    ensures Orphaned(Apply(s, a), k)
  {
    var s' := Apply(s, a);
    OrphanStaysUnsettled(s, a, k);
    forall v | v in s'.pcs && s'.pcs[v].Owning() ensures s'.pcs[v].order.intent != k {
      if a.Work? && a.w == v { WorkerKeepsOrphan(s, v, a.step, k); } else { StepLeavesOthers(s, a, v); }
    }
  }

  /**
   The price of at-most-once: after a crash between the two commits the order stays pending for good, is never
   executed again, and no delivery of its intent settles it.
   */
  lemma {:induction false} OrphansStayPending(run: seq<State>, acts: seq<Action>, i: nat, j: nat, k: IntentId)
    requires IsRun(run, acts) && i <= j < |run| && Orphaned(run[i], k)
    ensures Orphaned(run[j], k) && run[j].db.orders[k].status.Pending?
    ensures forall t :: i <= t < j ==> !Executes(run[t], acts[t], k)
    decreases j - i
  {
    RunInv(run, acts, j);
    if i < j {
      OrphansStayPending(run, acts, i, j - 1, k);
      RunInv(run, acts, j - 1);
      assert Step(run[j - 1], acts[j - 1], run[j]);
      StepKeepsOrphan(run[j - 1], acts[j - 1], k);
      OrphanIsNotExecuted(run[j - 1], acts[j - 1], k);
    }
  }
}
