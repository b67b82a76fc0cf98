/**
 The inductive invariant of the protocol. Each conjunct is a predicate of just the parts of the state it speaks
 about, so a step that leaves those parts alone keeps it by congruence.
 */
module ProtocolInvariant {
  import opened Domain
  import opened RiskGate
  import opened Protocol

  type Pcs = map<WorkerId, Pc>
  type Orders = map<IntentId, Order>
  type Settled = map<IntentId, OrderStatus>

  // ================================================================ reservation and ownership

  predicate Claims(pc: Pc) {
    pc.Holding? || pc.Owning()
  }

  /** Order rows sit under their idempotency key and their ids are distinct and used up. */
  ghost predicate OrdersKeyed(orders: Orders, nextId: OrderId) {
    && (forall k :: k in orders ==> orders[k].intent == k && orders[k].id < nextId)
    && (forall k, l :: k in orders && l in orders && orders[k].id == orders[l].id ==> k == l)
  }

  /** An uncommitted reservation is for a free key, under an id that no row has. */
  ghost predicate HoldingOk(pc: Pc, orders: Orders, nextId: OrderId) {
    pc.Holding? ==>
      && pc.order == NewOrder(pc.order.id, pc.m.intent, pc.ticket.bot)
      && pc.order.intent !in orders
      && pc.order.id < nextId
      && forall k :: k in orders ==> orders[k].id != pc.order.id
  }

  /** The order as reserved: what a worker carries, less what the second transaction will write. */
  function AsReserved(order: Order): Order {
    order.(status := Pending, exchangeId := None)
  }

  /** A worker past its first commit owns a row that is unsettled and still as reserved. */
  ghost predicate OwningOk(pc: Pc, orders: Orders, settled: Settled) {
    pc.Owning() ==>
      && pc.order.intent == pc.m.intent.id
      && pc.order.intent in orders
      && pc.order.intent !in settled
      && orders[pc.order.intent] == AsReserved(pc.order)
  }

  ghost predicate WorkersOk(pcs: Pcs, orders: Orders, nextId: OrderId, settled: Settled) {
    forall w :: w in pcs ==> HoldingOk(pcs[w], orders, nextId) && OwningOk(pcs[w], orders, settled)
  }

  /** No two workers claim the same key or the same order id. */
  ghost predicate ClaimsExclusive(pcs: Pcs) {
    forall v, w :: v in pcs && w in pcs && v != w && Claims(pcs[v]) && Claims(pcs[w]) ==>
      pcs[v].order.intent != pcs[w].order.intent && pcs[v].order.id != pcs[w].order.id
  }

  /** Before its second transaction an order row is pending and has no exchange id. */
  ghost predicate UnsettledUntouched(orders: Orders, settled: Settled) {
    && (forall k :: k in settled ==> k in orders)
    && (forall k :: k in orders && k !in settled ==> orders[k].status.Pending? && orders[k].exchangeId.None?)
  }

  /** Calls of `execute` are for distinct reserved intents, none of them still waiting for its call. */
  ghost predicate CallsDistinct(calls: seq<Call>, pcs: Pcs, orders: Orders) {
    && (forall i :: 0 <= i < |calls| ==> calls[i].intent.id in orders)
    && (forall i, j :: 0 <= i < j < |calls| ==> calls[i].intent.id != calls[j].intent.id)
    && (forall i, w :: 0 <= i < |calls| && w in pcs && pcs[w].Reserved? ==> calls[i].intent.id != pcs[w].order.intent)
  }

  ghost predicate Ownership(pcs: Pcs, orders: Orders, nextId: OrderId, settled: Settled, calls: seq<Call>) {
    && OrdersKeyed(orders, nextId)
    && WorkersOk(pcs, orders, nextId, settled)
    && ClaimsExclusive(pcs)
    && UnsettledUntouched(orders, settled)
    && CallsDistinct(calls, pcs, orders)
  }

  /** Ownership of a state. */
  ghost predicate Owned(s: State) {
    Ownership(s.pcs, s.db.orders, s.nextId, s.hist.settledAs, s.hist.calls)
  }

  lemma UnclaimKeepsOwnership(
      pcs: Pcs, orders: Orders, nextId: OrderId, settled: Settled, calls: seq<Call>, w: WorkerId, pc: Pc)
    requires Ownership(pcs, orders, nextId, settled, calls) && !Claims(pc)
    ensures Ownership(pcs[w := pc], orders, nextId, settled, calls)
  {
    var pcs' := pcs[w := pc];
    assert forall v :: v in pcs' && v != w ==> v in pcs && pcs'[v] == pcs[v];
  }

  lemma HoldKeepsOwnership(
      pcs: Pcs, orders: Orders, nextId: OrderId, settled: Settled, calls: seq<Call>, w: WorkerId, pc: Pc)
    requires Ownership(pcs, orders, nextId, settled, calls)
    requires pc.Holding? && pc.order == NewOrder(nextId, pc.m.intent, pc.ticket.bot) && pc.order.intent !in orders
    requires forall v :: v in pcs && pcs[v].Holding? ==> pcs[v].order.intent != pc.order.intent
    ensures Ownership(pcs[w := pc], orders, nextId + 1, settled, calls)
  {
    var pcs' := pcs[w := pc];
    forall v | v in pcs && Claims(pcs[v])
      ensures pcs[v].order.intent != pc.order.intent && pcs[v].order.id != nextId
    {
      assert HoldingOk(pcs[v], orders, nextId) && OwningOk(pcs[v], orders, settled);
    }
    forall v | v in pcs' && v != w
      ensures HoldingOk(pcs'[v], orders, nextId + 1) && OwningOk(pcs'[v], orders, settled)
    {
      assert pcs'[v] == pcs[v];
    }
  }

  lemma NewRowKeepsOwnership(
      pcs: Pcs, orders: Orders, nextId: OrderId, settled: Settled, calls: seq<Call>, w: WorkerId)
    requires Ownership(pcs, orders, nextId, settled, calls) && w in pcs && pcs[w].Holding?
    ensures var pc := pcs[w];
            Ownership(pcs[w := Reserved(pc.m, pc.ticket, pc.order)], orders[pc.order.intent := pc.order],
                      nextId, settled, calls)
  {
    var o := pcs[w].order;
    var pcs', orders' := pcs[w := Reserved(pcs[w].m, pcs[w].ticket, o)], orders[o.intent := o];
    assert HoldingOk(pcs[w], orders, nextId);
    forall v | v in pcs' && v != w ensures HoldingOk(pcs'[v], orders', nextId) && OwningOk(pcs'[v], orders', settled) {
      assert pcs'[v] == pcs[v];
      assert HoldingOk(pcs[v], orders, nextId) && OwningOk(pcs[v], orders, settled);
    }
  }

  lemma CallKeepsOwnership(
      pcs: Pcs, orders: Orders, nextId: OrderId, settled: Settled, calls: seq<Call>, w: WorkerId, pc: Pc, call: Call)
    requires Ownership(pcs, orders, nextId, settled, calls) && w in pcs && pcs[w].Reserved?
    requires pc.Executed? && pc.m == pcs[w].m && AsReserved(pc.order) == AsReserved(pcs[w].order)
    requires call.intent == pc.m.intent
    ensures Ownership(pcs[w := pc], orders, nextId, settled, calls + [call])
  {
    var pcs' := pcs[w := pc];
    assert OwningOk(pcs[w], orders, settled);
    assert forall v :: v in pcs' && v != w ==> v in pcs && pcs'[v] == pcs[v];
  }

  /** The row under a settled key may change its status and exchange id. */
  lemma SettledRowKeepsOwnership(
      pcs: Pcs, orders: Orders, nextId: OrderId, settled: Settled, calls: seq<Call>, order: Order)
    requires Ownership(pcs, orders, nextId, settled, calls)
    requires order.intent in settled && order.id == orders[order.intent].id
    ensures Ownership(pcs, orders[order.intent := order], nextId, settled, calls)
  {
    var orders' := orders[order.intent := order];
    forall v | v in pcs ensures HoldingOk(pcs[v], orders', nextId) && OwningOk(pcs[v], orders', settled) {
      assert HoldingOk(pcs[v], orders, nextId) && OwningOk(pcs[v], orders, settled);
    }
  }

  lemma SettleKeepsOwnership(
      pcs: Pcs, orders: Orders, nextId: OrderId, settled: Settled, calls: seq<Call>, w: WorkerId, pc: Pc)
    requires Ownership(pcs, orders, nextId, settled, calls) && w in pcs && pcs[w].Executed? && !Claims(pc)
    ensures var o := pcs[w].order;
            && o.intent in orders && o.intent !in settled && orders[o.intent] == AsReserved(o)
            && Ownership(pcs[w := pc], orders[o.intent := o], nextId, settled[o.intent := o.status], calls)
  {
    var o := pcs[w].order;
    assert OwningOk(pcs[w], orders, settled);
    var settled', pcs' := settled[o.intent := o.status], pcs[w := pc];
    UnclaimKeepsOwnership(pcs, orders, nextId, settled, calls, w, pc);
    forall v | v in pcs' ensures HoldingOk(pcs'[v], orders, nextId) && OwningOk(pcs'[v], orders, settled') {
      if v != w { assert pcs'[v] == pcs[v]; }
    }
    SettledRowKeepsOwnership(pcs', orders, nextId, settled', calls, o);
  }

  /** Ids being distinct, an update by id changes the one row under that order's key. */
  lemma UpdateReservedIsLocal(orders: Orders, nextId: OrderId, order: Order)
    requires OrdersKeyed(orders, nextId) && order.intent in orders && orders[order.intent].id == order.id
    ensures UpdateReserved(orders, order)
         == orders[order.intent := orders[order.intent].(status := order.status, exchangeId := order.exchangeId)]
  {
  }

  lemma UpdateStatusIsLocal(orders: Orders, nextId: OrderId, order: Order, status: OrderStatus)
    requires OrdersKeyed(orders, nextId) && order.intent in orders && orders[order.intent].id == order.id
    ensures UpdateStatus(orders, order.id, status) == orders[order.intent := orders[order.intent].(status := status)]
  {
  }

  // ================================================================ the reconciler's snapshot

  function Todo(recon: Recon): seq<Order> {
    if recon.Resting? then [] else recon.todo
  }

  /** The snapshot row is the row in the table, settled and open. */
  predicate Fresh(o: Order, orders: Orders, settled: Settled) {
    o.intent in settled && o.intent in orders && orders[o.intent] == o && o.status.Open()
  }

  /** Snapshot rows that the reconciler may act on are exactly the rows in the table. */
  ghost predicate SnapshotFresh(recon: Recon, orders: Orders, settled: Settled) {
    var todo := Todo(recon);
    && (forall i :: 0 <= i < |todo| && todo[i].exchangeId.Some? ==> Fresh(todo[i], orders, settled))
    && (forall i, j :: 0 <= i < j < |todo| ==> todo[i].intent != todo[j].intent)
    && (recon.Writing? ==>
          && recon.order.exchangeId.Some? && Fresh(recon.order, orders, settled) && recon.status != recon.order.status
          && forall i :: 0 <= i < |todo| ==> todo[i].intent != recon.order.intent)
  }

  lemma PollIsFresh(s: State, rows: seq<Order>)
    requires Owned(s) && IsListingOf(rows, s.db.orders)
    ensures SnapshotFresh(Looping(rows), s.db.orders, s.hist.settledAs)
  {
  }

  lemma NewRowKeepsFresh(recon: Recon, orders: Orders, settled: Settled, order: Order)
    requires SnapshotFresh(recon, orders, settled) && order.intent !in orders
    ensures SnapshotFresh(recon, orders[order.intent := order], settled)
  {
  }

  lemma SettlingKeepsFresh(recon: Recon, orders: Orders, settled: Settled, order: Order)
    requires SnapshotFresh(recon, orders, settled) && order.intent !in settled
    ensures SnapshotFresh(recon, orders[order.intent := order], settled[order.intent := order.status])
  {
  }

  lemma InspectKeepsFresh(recon: Recon, orders: Orders, settled: Settled, reported: Option<OrderStatus>)
    requires SnapshotFresh(recon, orders, settled) && recon.Looping? && recon.todo != []
    ensures SnapshotFresh(AfterInspect(recon, reported), orders, settled)
  {
    var rest, after := recon.todo[1..], AfterInspect(recon, reported);
    assert Todo(recon) == recon.todo && Todo(after) == rest;
    forall i | 0 <= i < |rest|
      ensures rest[i].exchangeId.Some? ==> Fresh(rest[i], orders, settled)
      ensures rest[i].intent != recon.todo[0].intent
    {
      assert rest[i] == recon.todo[i + 1];
    }
    forall i, j | 0 <= i < j < |rest| ensures rest[i].intent != rest[j].intent {
      assert rest[i] == recon.todo[i + 1] && rest[j] == recon.todo[j + 1];
    }
  }

  /** Rows to visit that were in the snapshot before are as fresh as before. */
  lemma DroppingKeepsFresh(recon: Recon, orders: Orders, settled: Settled, after: Recon)
    requires SnapshotFresh(recon, orders, settled) && !after.Writing?
    requires Todo(after) == Todo(recon) || Todo(after) == []
    ensures SnapshotFresh(after, orders, settled)
  {
  }

  /** The rows still to be visited are not the row being written. */
  lemma WriteStatusKeepsFresh(recon: Recon, orders: Orders, settled: Settled, after: Recon)
    requires SnapshotFresh(recon, orders, settled) && recon.Writing?
    requires !after.Writing? && Todo(after) == recon.todo
    ensures var o := recon.order; SnapshotFresh(after, orders[o.intent := o.(status := recon.status)], settled)
    ensures SnapshotFresh(after, orders, settled)
  {
    var o, todo := recon.order, recon.todo;
    var orders' := orders[o.intent := o.(status := recon.status)];
    assert Todo(recon) == todo;
    forall i | 0 <= i < |todo| && todo[i].exchangeId.Some?
      ensures Fresh(todo[i], orders, settled) && Fresh(todo[i], orders', settled)
    {
      assert todo[i].intent != o.intent;
    }
    assert forall i, j :: 0 <= i < j < |todo| ==> todo[i].intent != todo[j].intent;
  }

  // ================================================================ the ledger

  /** The execution row that the second transaction's status calls for, if any. */
  function OwedExecution(k: IntentId, orders: Orders, settled: Settled): Option<Execution>
    requires k in orders && k in settled
  {
    BuildExecution(orders[k].(status := settled[k]))
  }

  /** One `risk.check.passed` and one intent row per order row, none without. */
  ghost predicate PassesMatchOrders(outbox: multiset<Event>, orders: Orders, intents: map<IntentId, IntentStatus>) {
    && (forall k: IntentId :: outbox[Event(RiskCheckPassed, k)] == if k in orders then 1 else 0)
    && (forall k :: k in orders ==> k in intents)
  }

  /** The execution rows are those that the settled orders call for, one each. */
  ghost predicate ExecutionsMatch(
      executions: seq<Execution>, executed: seq<IntentId>, orders: Orders, settled: Settled)
  {
    && |executed| == |executions|
    && (forall i :: 0 <= i < |executed| ==>
          && executed[i] in settled && executed[i] in orders
          && OwedExecution(executed[i], orders, settled) == Some(executions[i]))
    && (forall i, j :: 0 <= i < j < |executed| ==> executed[i] != executed[j])
    && (forall k :: k in settled && k in orders && OwedExecution(k, orders, settled).Some? ==> k in executed)
  }

  lemma NewRowKeepsExecutions(
      executions: seq<Execution>, executed: seq<IntentId>, orders: Orders, settled: Settled, order: Order)
    requires ExecutionsMatch(executions, executed, orders, settled) && order.intent !in orders
    requires forall k :: k in settled ==> k in orders
    ensures ExecutionsMatch(executions, executed, orders[order.intent := order], settled)
  {
    var orders' := orders[order.intent := order];
    forall k | k in settled && k in orders'
      ensures OwedExecution(k, orders', settled) == OwedExecution(k, orders, settled)
    {
    }
  }

  /** Status and exchange id of a settled row play no part in what it is owed. */
  lemma StatusKeepsExecutions(
      executions: seq<Execution>, executed: seq<IntentId>, orders: Orders, settled: Settled, k: IntentId,
      status: OrderStatus)
    requires ExecutionsMatch(executions, executed, orders, settled) && k in orders
    ensures ExecutionsMatch(executions, executed, orders[k := orders[k].(status := status)], settled)
  {
    var orders' := orders[k := orders[k].(status := status)];
    forall l | l in settled && l in orders'
      ensures OwedExecution(l, orders', settled) == OwedExecution(l, orders, settled)
    {
    }
  }

  lemma SettleKeepsExecutions(
      executions: seq<Execution>, executed: seq<IntentId>, orders: Orders, settled: Settled, order: Order)
    requires ExecutionsMatch(executions, executed, orders, settled)
    requires order.intent in orders && order.intent !in settled && orders[order.intent] == AsReserved(order)
    ensures var owed := BuildExecution(order);
            ExecutionsMatch(if owed.Some? then executions + [owed.value] else executions,
                            if owed.Some? then executed + [order.intent] else executed,
                            orders[order.intent := order], settled[order.intent := order.status])
  {
    var k := order.intent;
    var owed := BuildExecution(order);
    var orders', settled' := orders[k := order], settled[k := order.status];
    var executed' := if owed.Some? then executed + [k] else executed;
    assert order.(status := order.status) == order;
    assert OwedExecution(k, orders', settled') == owed;
    forall l | l in settled && l in orders && l != k
      ensures OwedExecution(l, orders', settled') == OwedExecution(l, orders, settled)
    {
    }
    assert forall i :: 0 <= i < |executed| ==> executed'[i] == executed[i] && executed[i] != k;
    forall l | l in settled' && l in orders' && OwedExecution(l, orders', settled').Some? ensures l in executed' {
      if l == k { assert executed'[|executed|] == k; } else { assert l in executed; }
    }
  }

  // ================================================================ messages and acknowledgement

  predicate Authentic(m: Message, sources: map<RowId, OrderIntent>) {
    m.Envelope? ==> m.row in sources && sources[m.row] == m.intent
  }

  /** Envelopes carry the intent of their outbox row. */
  ghost predicate MessagesAuthentic(queue: multiset<Message>, pcs: Pcs, sources: map<RowId, OrderIntent>) {
    && (forall m :: m in queue ==> Authentic(m, sources))
    && (forall w :: w in pcs && !pcs[w].Idle? ==> Authentic(pcs[w].m, sources))
  }

  /** Rejected by risk, or settled by a second transaction. */
  predicate Decided(k: IntentId, rejected: set<IntentId>, settled: Settled) {
    k in rejected || k in settled
  }

  ghost predicate FinishedDecided(pcs: Pcs, rejected: set<IntentId>, settled: Settled) {
    forall w :: w in pcs && pcs[w].Finished? ==> Decided(pcs[w].m.intent.id, rejected, settled)
  }

  /** Every inbox id stands for a decided intent. */
  ghost predicate InboxDecided(
      inbox: map<InboxId, nat>, sources: map<RowId, OrderIntent>, rejected: set<IntentId>, settled: Settled) {
    && (forall k: IntentId :: OfIntent(k) in inbox ==> Decided(k, rejected, settled))
    && (forall r: RowId :: OfRow(r) in inbox ==> r in sources && Decided(sources[r].id, rejected, settled))
  }

  ghost predicate Acknowledgement(s: State) {
    && MessagesAuthentic(s.queue, s.pcs, s.db.sources)
    && FinishedDecided(s.pcs, s.hist.rejected, s.hist.settledAs)
    && InboxDecided(s.db.inbox, s.db.sources, s.hist.rejected, s.hist.settledAs)
  }

  /** A worker moves on with the message it has, finishing only with a decided intent; decisions only accumulate. */
  lemma MoveKeepsAcknowledgement(s: State, s': State, w: WorkerId, pc: Pc)
    requires Acknowledgement(s)
    requires s'.pcs == s.pcs[w := pc] && s'.queue <= s.queue
    requires s'.db.sources == s.db.sources && s'.db.inbox == s.db.inbox
    requires s.hist.rejected <= s'.hist.rejected
    requires forall k :: k in s.hist.settledAs ==> k in s'.hist.settledAs
    requires pc.Idle? || Authentic(pc.m, s.db.sources)
    requires pc.Finished? ==> Decided(pc.m.intent.id, s'.hist.rejected, s'.hist.settledAs)
    ensures Acknowledgement(s')
  {
    assert forall v :: v in s'.pcs && v != w ==> v in s.pcs && s'.pcs[v] == s.pcs[v];
    assert forall m :: m in s'.queue ==> m in s.queue;
  }

  lemma AcknowledgeKeepsAcknowledgement(s: State, w: WorkerId)
    requires Acknowledgement(s) && At(s, w).Finished?
    ensures Acknowledgement(DoAcknowledge(s, w))
  {
    var s' := DoAcknowledge(s, w);
    assert forall v :: v in s'.pcs && v != w ==> v in s.pcs && s'.pcs[v] == s.pcs[v];
  }

  // ================================================================ position writes

  function InFlight(recon: Recon): multiset<IntentId> {
    if recon.Adding? then multiset{recon.order.intent} else multiset{}
  }

  function Intents(orders: seq<Order>): multiset<IntentId> {
    if orders == [] then multiset{} else Intents(orders[..|orders| - 1]) + multiset{orders[|orders| - 1].intent}
  }

  /** Position writes, landed, lost or under way, match status writes of `filled` one for one. */
  ghost predicate FillsConserved(
      moved: multiset<IntentId>, unmoved: multiset<IntentId>, added: multiset<IntentId>, lost: multiset<IntentId>,
      fills: seq<Order>, recon: Recon) {
    && added + lost + InFlight(recon) == moved + unmoved
    && added == Intents(fills)
  }

  /** An order moved to filled was moved once and is filled. */
  ghost predicate MovedOnce(moved: multiset<IntentId>, orders: Orders, settled: Settled) {
    forall k :: k in moved ==> moved[k] == 1 && k in settled && k in orders && orders[k].status.Filled?
  }

  lemma SettleKeepsMoved(moved: multiset<IntentId>, orders: Orders, settled: Settled, order: Order)
    requires MovedOnce(moved, orders, settled) && order.intent !in settled
    ensures MovedOnce(moved, orders[order.intent := order], settled[order.intent := order.status])
  {
  }

  lemma NewRowKeepsMoved(moved: multiset<IntentId>, orders: Orders, settled: Settled, order: Order)
    requires MovedOnce(moved, orders, settled) && order.intent !in orders
    ensures MovedOnce(moved, orders[order.intent := order], settled)
  {
  }

  // ================================================================ evidence

  predicate Passed(intent: OrderIntent, t: Ticket) {
    Validate(intent, t.settings, t.view).Pass?
  }

  /** Workers that may go on to execute, and all calls made, carry a passing verdict for their own intent. */
  ghost predicate Evidence(pcs: Pcs, calls: seq<Call>) {
    && (forall w :: w in pcs && (pcs[w].Cleared? || pcs[w].Holding? || pcs[w].Reserved?) ==>
          Passed(pcs[w].m.intent, pcs[w].ticket))
    && (forall i :: 0 <= i < |calls| ==> Passed(calls[i].intent, calls[i].ticket))
  }

  lemma MoveKeepsEvidence(pcs: Pcs, calls: seq<Call>, w: WorkerId, pc: Pc)
    requires Evidence(pcs, calls)
    requires pc.Cleared? || pc.Holding? || pc.Reserved? ==> Passed(pc.m.intent, pc.ticket)
    ensures Evidence(pcs[w := pc], calls)
  {
  }

  // ================================================================ the invariant and its preservation

  ghost predicate Inv(s: State) {
    && Owned(s)
    && SnapshotFresh(s.recon, s.db.orders, s.hist.settledAs)
    && PassesMatchOrders(s.db.outbox, s.db.orders, s.db.intents)
    && ExecutionsMatch(s.db.executions, s.hist.executed, s.db.orders, s.hist.settledAs)
    && Acknowledgement(s)
    && FillsConserved(s.hist.moved, s.hist.unmoved, s.hist.added, s.hist.lost, s.hist.fills, s.recon)
    && MovedOnce(s.hist.moved, s.db.orders, s.hist.settledAs)
    && Evidence(s.pcs, s.hist.calls)
  }

  lemma InitInv(s: State)
    requires Init(s)
    ensures Inv(s)
  {
  }

  /** The message moves forward without a claim, a verdict or a decision; configuration may change meanwhile. */
  ghost predicate QuietMove(s: State, s': State, w: WorkerId, pc: Pc) {
    && s' == s.(pcs := s.pcs[w := pc], queue := s'.queue, db := s.db.(bots := s'.db.bots, settings := s'.db.settings))
    && s'.queue <= s.queue
    && !Claims(pc)
    && (pc.Cleared? ==> Passed(pc.m.intent, pc.ticket))
    && (pc.Idle? || Authentic(pc.m, s.db.sources))
    && (pc.Finished? ==> Decided(pc.m.intent.id, s.hist.rejected, s.hist.settledAs))
  }

  lemma QuietMoveKeepsInv(s: State, s': State, w: WorkerId, pc: Pc)
    requires Inv(s) && QuietMove(s, s', w, pc)
    ensures Inv(s')
  {
    UnclaimKeepsOwnership(s.pcs, s.db.orders, s.nextId, s.hist.settledAs, s.hist.calls, w, pc);
    MoveKeepsAcknowledgement(s, s', w, pc);
    MoveKeepsEvidence(s.pcs, s.hist.calls, w, pc);
  }

  lemma RejectionKeepsInv(s: State, w: WorkerId)
    requires Inv(s) && (At(s, w).Rejecting? || At(s, w).Blocked?)
    ensures Inv(DoCommitRejection(s, w))
  {
    var s', pc := DoCommitRejection(s, w), Finished(At(s, w).m);
    UnclaimKeepsOwnership(s.pcs, s.db.orders, s.nextId, s.hist.settledAs, s.hist.calls, w, pc);
    MoveKeepsAcknowledgement(s, s', w, pc);
    MoveKeepsEvidence(s.pcs, s.hist.calls, w, pc);
  }

  lemma ReserveKeepsInv(s: State, w: WorkerId)
    requires Inv(s) && At(s, w).Cleared? && !KeyHeld(s, At(s, w).m.intent.id)
    ensures Inv(DoReserve(s, w))
  {
    var s', pc := DoReserve(s, w), At(s, w);
    if pc.m.intent.id in s.db.orders {
      QuietMoveKeepsInv(s, s', w, Duplicate(pc.m));
    } else {
      var hold := Holding(pc.m, pc.ticket, NewOrder(s.nextId, pc.m.intent, pc.ticket.bot));
      HoldKeepsOwnership(s.pcs, s.db.orders, s.nextId, s.hist.settledAs, s.hist.calls, w, hold);
      MoveKeepsAcknowledgement(s, s', w, hold);
      MoveKeepsEvidence(s.pcs, s.hist.calls, w, hold);
    }
  }

  lemma ReadExistingKeepsInv(s: State, w: WorkerId)
    requires Inv(s) && At(s, w).Duplicate?
    ensures Inv(DoReadExisting(s, w))
  {
    var s' := DoReadExisting(s, w);
    QuietMoveKeepsInv(s, s', w, s'.pcs[w]);
  }

  lemma CommitReservationKeepsInv(s: State, w: WorkerId)
    requires Inv(s) && At(s, w).Holding?
    ensures Inv(DoCommitReservation(s, w))
  {
    var s', pc := DoCommitReservation(s, w), At(s, w);
    var o, next := pc.order, Reserved(pc.m, pc.ticket, pc.order);
    assert HoldingOk(pc, s.db.orders, s.nextId);
    NewRowKeepsOwnership(s.pcs, s.db.orders, s.nextId, s.hist.settledAs, s.hist.calls, w);
    NewRowKeepsFresh(s.recon, s.db.orders, s.hist.settledAs, o);
    NewRowKeepsExecutions(s.db.executions, s.hist.executed, s.db.orders, s.hist.settledAs, o);
    NewRowKeepsMoved(s.hist.moved, s.db.orders, s.hist.settledAs, o);
    MoveKeepsAcknowledgement(s, s', w, next);
    MoveKeepsEvidence(s.pcs, s.hist.calls, w, next);
  }

  lemma ExecuteKeepsInv(s: State, w: WorkerId, answer: ExchangeAnswer)
    requires Inv(s) && At(s, w).Reserved?
    ensures Inv(DoExecute(s, w, answer))
  {
    var s', pc := DoExecute(s, w, answer), At(s, w);
    var call := Call(w, pc.m.intent, pc.ticket);
    var next := Executed(pc.m, AfterExecute(pc.order, answer), answer.PlaceFailed?);
    assert OwningOk(pc, s.db.orders, s.hist.settledAs);
    CallKeepsOwnership(s.pcs, s.db.orders, s.nextId, s.hist.settledAs, s.hist.calls, w, next, call);
    MoveKeepsAcknowledgement(s, s', w, next);
    MoveKeepsEvidence(s.pcs, s.hist.calls, w, next);
  }

  /** None of the events of the second transaction is a `risk.check.passed`. */
  lemma OutcomeKeepsPasses(db: Db, order: Order)
    requires PassesMatchOrders(db.outbox, db.orders, db.intents) && order.intent in db.orders
    ensures PassesMatchOrders(OutcomeCommitted(db, order).outbox, db.orders[order.intent := order], db.intents)
  {
  }

  lemma OutcomeEffect(s: State, w: WorkerId)
    requires Inv(s) && At(s, w).Executed?
    ensures var s', pc := DoCommitOutcome(s, w), At(s, w);
            var k, owed := pc.order.intent, BuildExecution(pc.order);
            && k in s.db.orders && k !in s.hist.settledAs && s.db.orders[k] == AsReserved(pc.order)
            && s'.db.orders == s.db.orders[k := pc.order]
            && s'.db.executions == (if owed.Some? then s.db.executions + [owed.value] else s.db.executions)
            && s'.db.intents == s.db.intents
  {
    var pc := At(s, w);
    assert OwningOk(pc, s.db.orders, s.hist.settledAs);
    UpdateReservedIsLocal(s.db.orders, s.nextId, pc.order);
  }

  /** The conjuncts that speak of rows. */
  lemma OutcomeKeepsRows(s: State, w: WorkerId)
    requires Inv(s) && At(s, w).Executed?
    ensures var s' := DoCommitOutcome(s, w);
            && Owned(s') && SnapshotFresh(s'.recon, s'.db.orders, s'.hist.settledAs)
            && PassesMatchOrders(s'.db.outbox, s'.db.orders, s'.db.intents)
            && ExecutionsMatch(s'.db.executions, s'.hist.executed, s'.db.orders, s'.hist.settledAs)
            && MovedOnce(s'.hist.moved, s'.db.orders, s'.hist.settledAs)
  {
    var pc := At(s, w);
    var o := pc.order;
    OutcomeEffect(s, w);
    SettleKeepsOwnership(
      s.pcs, s.db.orders, s.nextId, s.hist.settledAs, s.hist.calls, w, if pc.failed then Idle else Finished(pc.m));
    SettlingKeepsFresh(s.recon, s.db.orders, s.hist.settledAs, o);
    OutcomeKeepsPasses(s.db, o);
    SettleKeepsExecutions(s.db.executions, s.hist.executed, s.db.orders, s.hist.settledAs, o);
    SettleKeepsMoved(s.hist.moved, s.db.orders, s.hist.settledAs, o);
  }

  lemma OutcomeKeepsAcknowledgement(s: State, w: WorkerId)
    requires Inv(s) && At(s, w).Executed?
    ensures Acknowledgement(DoCommitOutcome(s, w))
  {
    var s', pc := DoCommitOutcome(s, w), At(s, w);
    assert OwningOk(pc, s.db.orders, s.hist.settledAs);
    MoveKeepsAcknowledgement(s, s', w, if pc.failed then Idle else Finished(pc.m));
  }

  lemma CommitOutcomeKeepsInv(s: State, w: WorkerId)
    requires Inv(s) && At(s, w).Executed?
    ensures Inv(DoCommitOutcome(s, w))
  {
    var pc := At(s, w);
    OutcomeKeepsRows(s, w);
    OutcomeKeepsAcknowledgement(s, w);
    MoveKeepsEvidence(s.pcs, s.hist.calls, w, if pc.failed then Idle else Finished(pc.m));
  }

  lemma AcknowledgeKeepsInv(s: State, w: WorkerId)
    requires Inv(s) && At(s, w).Finished?
    ensures Inv(DoAcknowledge(s, w))
  {
    UnclaimKeepsOwnership(s.pcs, s.db.orders, s.nextId, s.hist.settledAs, s.hist.calls, w, Idle);
    AcknowledgeKeepsAcknowledgement(s, w);
    MoveKeepsEvidence(s.pcs, s.hist.calls, w, Idle);
  }

  lemma WriteStatusKeepsMoved(moved: multiset<IntentId>, orders: Orders, settled: Settled, recon: Recon)
    requires SnapshotFresh(recon, orders, settled) && recon.Writing? && MovedOnce(moved, orders, settled)
    ensures var o := recon.order;
            MovedOnce(if recon.status.Filled? then moved + multiset{o.intent} else moved,
                      orders[o.intent := o.(status := recon.status)], settled)
  {
    assert recon.order.intent !in moved;
  }

  lemma WriteStatusKeepsFills(
      moved: multiset<IntentId>, unmoved: multiset<IntentId>, added: multiset<IntentId>, lost: multiset<IntentId>,
      fills: seq<Order>, recon: Recon, after: Recon)
    requires FillsConserved(moved, unmoved, added, lost, fills, recon) && recon.Writing?
    ensures !after.Adding? ==> FillsConserved(moved, unmoved, added, lost, fills, after)
    ensures after.Adding? && after.order == recon.order ==>
              var one := multiset{recon.order.intent};
              && FillsConserved(moved + one, unmoved, added, lost, fills, after)
              && FillsConserved(moved, unmoved + one, added, lost, fills, after)
  {
    var one := multiset{recon.order.intent};
    assert added + lost == moved + unmoved;
    assert (moved + one) + unmoved == (moved + unmoved) + one == moved + (unmoved + one);
  }

  /** The rows after the status write, and the invariants that speak of rows. */
  lemma StatusWritten(s: State)
    requires Inv(s) && s.recon.Writing?
    ensures var orders' := UpdateStatus(s.db.orders, s.recon.order.id, s.recon.status);
            && orders' == s.db.orders[s.recon.order.intent := s.recon.order.(status := s.recon.status)]
            && Ownership(s.pcs, orders', s.nextId, s.hist.settledAs, s.hist.calls)
            && ExecutionsMatch(s.db.executions, s.hist.executed, orders', s.hist.settledAs)
            && PassesMatchOrders(s.db.outbox, orders', s.db.intents)
  {
    var o, status := s.recon.order, s.recon.status;
    UpdateStatusIsLocal(s.db.orders, s.nextId, o, status);
    SettledRowKeepsOwnership(s.pcs, s.db.orders, s.nextId, s.hist.settledAs, s.hist.calls, o.(status := status));
    StatusKeepsExecutions(s.db.executions, s.hist.executed, s.db.orders, s.hist.settledAs, o.intent, status);
  }

  lemma WriteStatusKeepsInv(s: State, landed: bool)
    requires Inv(s) && s.recon.Writing?
    ensures Inv(DoWriteStatus(s, landed))
  {
    var s' := DoWriteStatus(s, landed);
    WriteStatusKeepsFresh(s.recon, s.db.orders, s.hist.settledAs, s'.recon);
    WriteStatusKeepsFills(s.hist.moved, s.hist.unmoved, s.hist.added, s.hist.lost, s.hist.fills, s.recon, s'.recon);
    if landed {
      StatusWritten(s);
      WriteStatusKeepsMoved(s.hist.moved, s.db.orders, s.hist.settledAs, s.recon);
    }
  }

  lemma WritePositionKeepsFills(
      moved: multiset<IntentId>, unmoved: multiset<IntentId>, added: multiset<IntentId>, lost: multiset<IntentId>,
      fills: seq<Order>, recon: Recon)
    requires FillsConserved(moved, unmoved, added, lost, fills, recon) && recon.Adding?
    ensures var one := multiset{recon.order.intent};
            && FillsConserved(moved, unmoved, added + one, lost, fills + [recon.order], Looping(recon.todo))
            && FillsConserved(moved, unmoved, added, lost + one, fills, Looping(recon.todo))
  {
    assert (fills + [recon.order])[..|fills|] == fills;
  }

  lemma WritePositionKeepsInv(s: State, landed: bool)
    requires Inv(s) && s.recon.Adding?
    ensures Inv(DoWritePosition(s, landed))
  {
    WritePositionKeepsFills(s.hist.moved, s.hist.unmoved, s.hist.added, s.hist.lost, s.hist.fills, s.recon);
    DroppingKeepsFresh(s.recon, s.db.orders, s.hist.settledAs, Looping(s.recon.todo));
    var s' := DoWritePosition(s, landed);
    assert FillsConserved(s'.hist.moved, s'.hist.unmoved, s'.hist.added, s'.hist.lost, s'.hist.fills, s'.recon);
  }

  lemma CheckInboxKeepsInv(s: State, w: WorkerId)
    requires Inv(s) && At(s, w).Popped?
    ensures Inv(DoCheckInbox(s, w))
  {
    QuietMoveKeepsInv(s, DoCheckInbox(s, w), w, DoCheckInbox(s, w).pcs[w]);
  }

  lemma LoadKeepsInv(s: State, w: WorkerId)
    requires Inv(s)
    ensures At(s, w).Unseen? && At(s, w).m.intent.bot in s.db.bots ==> Inv(DoLoadBot(s, w))
    ensures At(s, w).KnowsBot? && At(s, w).m.intent.bot in s.db.settings ==> Inv(DoLoadSettings(s, w))
  {
    if At(s, w).Unseen? && At(s, w).m.intent.bot in s.db.bots {
      QuietMoveKeepsInv(s, DoLoadBot(s, w), w, DoLoadBot(s, w).pcs[w]);
    }
    if At(s, w).KnowsBot? && At(s, w).m.intent.bot in s.db.settings {
      QuietMoveKeepsInv(s, DoLoadSettings(s, w), w, DoLoadSettings(s, w).pcs[w]);
    }
  }

  lemma JudgeKeepsInv(s: State, w: WorkerId, view: RiskView)
    requires Inv(s) && At(s, w).Loaded?
    ensures Inv(Become(s, w, Verdict(At(s, w), view)))
  {
    QuietMoveKeepsInv(s, Become(s, w, Verdict(At(s, w), view)), w, Verdict(At(s, w), view));
  }

  lemma StopKeepsInv(s: State, w: WorkerId)
    requires Inv(s)
    ensures At(s, w).Blocked? ==> Inv(DoRaiseFlag(s, w))
    ensures At(s, w).Flagged? ==> Inv(DoPauseBot(s, w))
  {
    if At(s, w).Blocked? {
      QuietMoveKeepsInv(s, DoRaiseFlag(s, w), w, DoRaiseFlag(s, w).pcs[w]);
    }
    if At(s, w).Flagged? {
      QuietMoveKeepsInv(s, DoPauseBot(s, w), w, DoPauseBot(s, w).pcs[w]);
    }
  }

  lemma QueueKeepsInv(s: State, queue: multiset<Message>)
    requires Inv(s) && forall m :: m in queue ==> m in s.queue || Authentic(m, s.db.sources)
    ensures Inv(s.(queue := queue))
  {
  }

  lemma GenerateKeepsInv(s: State, row: RowId, intent: OrderIntent)
    requires Inv(s) && row !in s.db.sources
    ensures Inv(s.(db := s.db.(sources := s.db.sources[row := intent])))
  {
  }

  lemma ConfigureKeepsInv(s: State, bot: BotId, botRow: BotRow, settings: RiskSettings)
    requires Inv(s)
    ensures Inv(DoConfigure(s, bot, botRow, settings))
  {
  }

  lemma PollKeepsInv(s: State, rows: seq<Order>)
    requires Inv(s) && s.recon.Resting? && IsListingOf(rows, s.db.orders)
    ensures Inv(s.(recon := Looping(rows)))
  {
    PollIsFresh(s, rows);
  }

  lemma InspectKeepsInv(s: State, reported: Option<OrderStatus>)
    requires Inv(s) && s.recon.Looping? && s.recon.todo != []
    ensures Inv(s.(recon := AfterInspect(s.recon, reported)))
  {
    InspectKeepsFresh(s.recon, s.db.orders, s.hist.settledAs, reported);
  }

  lemma EndPassKeepsInv(s: State)
    requires Inv(s)
    ensures Inv(DoEndPass(s))
  {
    DroppingKeepsFresh(s.recon, s.db.orders, s.hist.settledAs, Resting);
  }

  lemma EnvironmentKeepsInv(s: State, e: EnvironmentStep)
    requires Inv(s) && EnvironmentEnabled(s, e)
    ensures Inv(ApplyEnvironment(s, e))
  {
    match e
    case Generate(row, intent) => GenerateKeepsInv(s, row, intent);
    case PushRaw(row) => QueueKeepsInv(s, ApplyEnvironment(s, e).queue);
    case PushEnvelope(row) => QueueKeepsInv(s, ApplyEnvironment(s, e).queue);
    case Redeliver(m) => QueueKeepsInv(s, ApplyEnvironment(s, e).queue);
    case Lose(m) => QueueKeepsInv(s, ApplyEnvironment(s, e).queue);
    case Configure(bot, botRow, settings) => ConfigureKeepsInv(s, bot, botRow, settings);
  }

  lemma ReconcilerStepKeepsInv(s: State, r: ReconcilerStep)
    requires Inv(s) && ReconcilerEnabled(s, r)
    ensures Inv(ApplyReconciler(s, r))
  {
    match r
    case Poll(rows) => PollKeepsInv(s, rows);
    case Inspect(reported) => InspectKeepsInv(s, reported);
    case WriteStatus(landed) => WriteStatusKeepsInv(s, landed);
    case WritePosition(landed) => WritePositionKeepsInv(s, landed);
    case EndPass => EndPassKeepsInv(s);
  }

  predicate BeforeReserving(step: WorkerStep) {
    step.Pop? || step.CheckInbox? || step.LoadBot? || step.LoadSettings? || step.Judge? || step.RaiseFlag?
    || step.PauseBot?
  }

  lemma BeforeReservingKeepsInv(s: State, w: WorkerId, step: WorkerStep)
    requires Inv(s) && WorkerEnabled(s, w, step) && BeforeReserving(step)
    ensures Inv(ApplyWorker(s, w, step))
  {
    match step
    case Pop(m) => QuietMoveKeepsInv(s, ApplyWorker(s, w, step), w, Popped(m));
    case CheckInbox => CheckInboxKeepsInv(s, w);
    case LoadBot => LoadKeepsInv(s, w);
    case LoadSettings => LoadKeepsInv(s, w);
    case Judge(view) => JudgeKeepsInv(s, w, view);
    case RaiseFlag => StopKeepsInv(s, w);
    case PauseBot => StopKeepsInv(s, w);
  }

  lemma WorkerKeepsInv(s: State, w: WorkerId, step: WorkerStep)
    requires Inv(s) && WorkerEnabled(s, w, step)
    ensures Inv(ApplyWorker(s, w, step))
  {
    if BeforeReserving(step) {
      BeforeReservingKeepsInv(s, w, step);
    } else {
      match step
      case CommitRejection => RejectionKeepsInv(s, w);
      case Reserve => ReserveKeepsInv(s, w);
      case ReadExisting => ReadExistingKeepsInv(s, w);
      case CommitReservation => CommitReservationKeepsInv(s, w);
      case Execute(answer) => ExecuteKeepsInv(s, w, answer);
      case CommitOutcome => CommitOutcomeKeepsInv(s, w);
      case Acknowledge => AcknowledgeKeepsInv(s, w);
      case Abort => QuietMoveKeepsInv(s, ApplyWorker(s, w, step), w, Idle);
    }
  }

  /** Every step of the machine keeps the invariant. */
  lemma StepKeepsInv(s: State, a: Action)
    requires Inv(s) && Enabled(s, a)
    ensures Inv(Apply(s, a))
  {
    match a
    case Env(e) => EnvironmentKeepsInv(s, e);
    case Work(w, step) => WorkerKeepsInv(s, w, step);
    case Reconcile(r) => ReconcilerStepKeepsInv(s, r);
  }
}
