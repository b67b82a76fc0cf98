/** What an intent becomes: the order in a worker's hand, the call of `execute`, the row. */
module ProtocolOrders {
  import opened Domain
  import opened Protocol
  import opened ProtocolInvariant
  import opened ProtocolTheorems

  type Sources = map<RowId, OrderIntent>

  /** The scanner generated the intent. */
  predicate Generated(intent: OrderIntent, sources: Sources) {
    exists r :: r in sources && sources[r] == intent
  }

  ghost predicate MessagesGenerated(queue: multiset<Message>, pcs: Pcs, sources: Sources) {
    && (forall m :: m in queue ==> Generated(m.intent, sources))
    && (forall w :: w in pcs && !pcs[w].Idle? ==> Generated(pcs[w].m.intent, sources))
  }

  predicate CalledFor(call: Call, intent: OrderIntent, o: Order) {
    call.intent == intent && Carries(o, intent, call.ticket.bot)
  }

  /** The order in a worker's hand is the one its message asks for, and `execute` was called for it if it says so. */
  predicate InHand(pc: Pc, calls: seq<Call>) {
    match pc
    case Holding(m, ticket, order) => Carries(order, m.intent, ticket.bot) && Unsent(order)
    case Reserved(m, ticket, order) => Carries(order, m.intent, ticket.bot) && Unsent(order)
    case Executed(m, order, _) => exists i :: 0 <= i < |calls| && CalledFor(calls[i], m.intent, order)
    case _ => true
  }

  ghost predicate HandsTrue(pcs: Pcs, calls: seq<Call>) {
    forall w :: w in pcs ==> InHand(pcs[w], calls)
  }

  /** Each call was for the order that stands in the table under the intent. */
  ghost predicate CallsCarried(calls: seq<Call>, orders: Orders) {
    forall i :: 0 <= i < |calls| ==>
      calls[i].intent.id in orders && Carries(orders[calls[i].intent.id], calls[i].intent, calls[i].ticket.bot)
  }

  predicate AskedBySource(o: Order, sources: Sources) {
    exists r :: r in sources && Asked(o, sources[r])
  }

  ghost predicate RowsAsked(orders: Orders, sources: Sources) {
    forall k :: k in orders ==> AskedBySource(orders[k], sources)
  }

  ghost predicate OrdersTrue(s: State) {
    && MessagesGenerated(s.queue, s.pcs, s.db.sources)
    && HandsTrue(s.pcs, s.hist.calls)
    && CallsCarried(s.hist.calls, s.db.orders)
    && RowsAsked(s.db.orders, s.db.sources)
  }

  // ================================================================ rows

  lemma UpdatesKeepKeys(orders: Orders, order: Order, id: OrderId, status: OrderStatus)
    ensures UpdateReserved(orders, order).Keys == orders.Keys && UpdateStatus(orders, id, status).Keys == orders.Keys
  {
  }

  lemma OnlyReservingAddsRows(s: State, a: Action)
    requires Enabled(s, a) && !Is(a, CommitReservation)
    ensures Apply(s, a).db.orders.Keys == s.db.orders.Keys
  {
    if Is(a, CommitOutcome) {
      UpdatesKeepKeys(s.db.orders, At(s, a.w).order, 0, Pending);
      assert Apply(s, a) == DoCommitOutcome(s, a.w);
    } else if a.Reconcile? && a.r.WriteStatus? {
      UpdatesKeepKeys(s.db.orders, s.recon.order, s.recon.order.id, s.recon.status);
      assert Apply(s, a) == DoWriteStatus(s, a.r.landed);
    } else {
      StepKeepsOrders(s, a);
    }
  }

  lemma NewRowsAreReserved(s: State, a: Action, k: IntentId)
    requires Enabled(s, a) && k !in s.db.orders && k in Apply(s, a).db.orders
    ensures Is(a, CommitReservation) && At(s, a.w).Holding? && Apply(s, a) == DoCommitReservation(s, a.w)
  {
    if !Is(a, CommitReservation) { OnlyReservingAddsRows(s, a); }
  }

  /** The terms of an order: all but status and exchange id. */
  predicate SameTerms(o: Order, p: Order) {
    o == p.(status := o.status, exchangeId := o.exchangeId)
  }

  /** No step changes the terms of a row. */
  lemma StepKeepsTerms(s: State, a: Action, k: IntentId)
    requires Inv(s) && Enabled(s, a) && k in s.db.orders
    ensures k in Apply(s, a).db.orders && SameTerms(Apply(s, a).db.orders[k], s.db.orders[k])
  {
    StepRespectsWriters(s, a, k);
  }

  // ================================================================ one step

  lemma OutcomeKeepsSources(db: Db, order: Order)
    ensures OutcomeCommitted(db, order).sources == db.sources
  {
  }

  lemma EarlyStepKeepsSources(s: State, w: WorkerId, step: WorkerStep)
    requires WorkerEnabled(s, w, step) && BeforeReserving(step)
    ensures ApplyWorker(s, w, step).db.sources == s.db.sources
  {
  }

  lemma WorkerKeepsSources(s: State, w: WorkerId, step: WorkerStep)
    requires WorkerEnabled(s, w, step)
    ensures ApplyWorker(s, w, step).db.sources == s.db.sources
  {
    if BeforeReserving(step) {
      EarlyStepKeepsSources(s, w, step);
    } else if step.CommitOutcome? {
      OutcomeKeepsSources(s.db, At(s, w).order);
    }
  }

  lemma WorkerAddsNoMessage(s: State, w: WorkerId, step: WorkerStep)
    requires WorkerEnabled(s, w, step)
    ensures forall m :: m in ApplyWorker(s, w, step).queue ==> m in s.queue
  {
  }

  lemma SourcesOnlyGrow(s: State, a: Action, r: RowId)
    requires Enabled(s, a) && r in s.db.sources
    ensures r in Apply(s, a).db.sources && Apply(s, a).db.sources[r] == s.db.sources[r]
  {
    if a.Work? { WorkerKeepsSources(s, a.w, a.step); }
  }

  lemma WorkerMessage(s: State, w: WorkerId, step: WorkerStep)
    requires WorkerEnabled(s, w, step) && !At(ApplyWorker(s, w, step), w).Idle?
    ensures var m := At(ApplyWorker(s, w, step), w).m;
            if step.Pop? then m in s.queue else !At(s, w).Idle? && m == At(s, w).m
  {
  }

  lemma WorkerKeepsGenerated(s: State, w: WorkerId, step: WorkerStep)
    requires WorkerEnabled(s, w, step) && MessagesGenerated(s.queue, s.pcs, s.db.sources)
    ensures var s' := ApplyWorker(s, w, step); MessagesGenerated(s'.queue, s'.pcs, s'.db.sources)
  {
    var s' := ApplyWorker(s, w, step);
    WorkerKeepsSources(s, w, step);
    WorkerAddsNoMessage(s, w, step);
    forall v | v in s'.pcs && !s'.pcs[v].Idle? ensures Generated(s'.pcs[v].m.intent, s'.db.sources) {
      if v == w { WorkerMessage(s, w, step); } else { WorkerLeavesOthers(s, w, step, v); }
    }
  }

  lemma EnvironmentKeepsGenerated(s: State, e: EnvironmentStep)
    requires EnvironmentEnabled(s, e) && MessagesGenerated(s.queue, s.pcs, s.db.sources)
    ensures var s' := ApplyEnvironment(s, e); MessagesGenerated(s'.queue, s'.pcs, s'.db.sources)
  {
    var s' := ApplyEnvironment(s, e);
    forall intent | Generated(intent, s.db.sources) ensures Generated(intent, s'.db.sources) {
      var r :| r in s.db.sources && s.db.sources[r] == intent;
      SourcesOnlyGrow(s, Env(e), r);
    }
  }

  lemma StepKeepsGenerated(s: State, a: Action)
    requires Enabled(s, a) && MessagesGenerated(s.queue, s.pcs, s.db.sources)
    ensures var s' := Apply(s, a); MessagesGenerated(s'.queue, s'.pcs, s'.db.sources)
  {
    match a
    case Env(e) => EnvironmentKeepsGenerated(s, e);
    case Work(w, step) => WorkerKeepsGenerated(s, w, step);
    case Reconcile(r) =>
  }

  /** What a worker has in hand after its own step. */
  lemma OwnHand(s: State, w: WorkerId, step: WorkerStep)
    requires WorkerEnabled(s, w, step) && InHand(At(s, w), s.hist.calls)
    ensures InHand(At(ApplyWorker(s, w, step), w), s.hist.calls + CallMade(s, Work(w, step)))
  {
    if step.Execute? {
      var pc := At(s, w);
      var calls := s.hist.calls + [Call(w, pc.m.intent, pc.ticket)];
      assert CalledFor(calls[|s.hist.calls|], pc.m.intent, AfterExecute(pc.order, step.answer));
    }
  }

  lemma MoreCallsKeepHand(pc: Pc, calls: seq<Call>, more: seq<Call>)
    requires InHand(pc, calls)
    ensures InHand(pc, calls + more)
  {
    if pc.Executed? {
      var i :| 0 <= i < |calls| && CalledFor(calls[i], pc.m.intent, pc.order);
      assert (calls + more)[i] == calls[i];
    }
  }

  lemma StepKeepsHands(s: State, a: Action)
    requires Enabled(s, a) && HandsTrue(s.pcs, s.hist.calls)
    ensures HandsTrue(Apply(s, a).pcs, Apply(s, a).hist.calls)
  {
    var s' := Apply(s, a);
    StepCalls(s, a);
    forall v | v in s'.pcs ensures InHand(s'.pcs[v], s'.hist.calls) {
      if a.Work? && a.w == v {
        OwnHand(s, v, a.step);
      } else {
        StepLeavesOthers(s, a, v);
        MoreCallsKeepHand(At(s, v), s.hist.calls, CallMade(s, a));
      }
    }
  }

  lemma StepKeepsCalls(s: State, a: Action)
    requires Inv(s) && Enabled(s, a) && HandsTrue(s.pcs, s.hist.calls) && CallsCarried(s.hist.calls, s.db.orders)
    ensures CallsCarried(Apply(s, a).hist.calls, Apply(s, a).db.orders)
  {
    var s' := Apply(s, a);
    StepCalls(s, a);
    forall i | 0 <= i < |s'.hist.calls|
      ensures var c := s'.hist.calls[i];
              c.intent.id in s'.db.orders && Carries(s'.db.orders[c.intent.id], c.intent, c.ticket.bot)
    {
      if i >= |s.hist.calls| {
        assert InHand(s.pcs[a.w], s.hist.calls) && OwningOk(s.pcs[a.w], s.db.orders, s.hist.settledAs);
      }
      StepKeepsTerms(s, a, s'.hist.calls[i].intent.id);
    }
  }

  lemma StepKeepsAsked(s: State, a: Action)
    requires Inv(s) && Enabled(s, a) && OrdersTrue(s)
    ensures RowsAsked(Apply(s, a).db.orders, Apply(s, a).db.sources)
  {
    var s' := Apply(s, a);
    forall k | k in s'.db.orders ensures AskedBySource(s'.db.orders[k], s'.db.sources) {
      if k in s.db.orders {
        StepKeepsTerms(s, a, k);
        var r :| r in s.db.sources && Asked(s.db.orders[k], s.db.sources[r]);
        SourcesOnlyGrow(s, a, r);
        assert Asked(s'.db.orders[k], s'.db.sources[r]);
      } else {
        NewRowsAreReserved(s, a, k);
        assert InHand(s.pcs[a.w], s.hist.calls) && Generated(s.pcs[a.w].m.intent, s.db.sources);
      }
    }
  }

  lemma StepKeepsOrdersTrue(s: State, a: Action)
    requires Inv(s) && Enabled(s, a) && OrdersTrue(s)
    ensures OrdersTrue(Apply(s, a))
  {
    StepKeepsGenerated(s, a);
    StepKeepsHands(s, a);
    StepKeepsCalls(s, a);
    StepKeepsAsked(s, a);
  }

  /**
   In every run: every order in a worker's hand has bot, side, quantity and price of the worker's message and the
   symbol of its bot; every call of `execute` was for such an order, which is the row in the table; and every row was
   asked for by an intent that the scanner generated.
   */
  lemma {:induction false} OrdersAreTrue(run: seq<State>, acts: seq<Action>, n: nat)
    requires IsRun(run, acts) && n < |run|
    ensures OrdersTrue(run[n])
    decreases n
  {
    if n > 0 {
      OrdersAreTrue(run, acts, n - 1);
      RunInv(run, acts, n - 1);
      assert Step(run[n - 1], acts[n - 1], run[n]);
      StepKeepsOrdersTrue(run[n - 1], acts[n - 1]);
    }
  }
}
