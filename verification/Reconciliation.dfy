/** One pass of the reconciler over a snapshot of the open orders, in place, with the positions that it writes. */
module Reconciliation {
  import opened Domain
  import opened RiskGate
  import opened Protocol
  import opened ProtocolFills
  import opened ProtocolGate
  import opened ProtocolInvariant
  import opened ProtocolTheorems
  import opened Database
  import opened Paths
  import opened PositionHistory
  import opened PositionStore

  /** Where the others get a turn: before the poll, and before a statement about an order. */
  datatype Moment =
    | BeforePoll
    | BeforeAsking(id: OrderId)
    | BeforeStatus(id: OrderId)
    | BeforeSettings(id: OrderId)
    | BeforePosition(id: OrderId)

  /**
   What the exchange reports, by order id (absent: no client, or an error), which writes fail for want of a database,
   and what the others want to do in between: those of the protocol, and the risk monitor before a position write.
   */
  datatype Exchange = Exchange(
    reported: map<OrderId, OrderStatus>, statusFails: set<OrderId>, positionFails: set<OrderId>,
    others: Moment -> seq<Action>, looks: OrderId -> seq<Look>)
  {
    function Report(o: Order): Option<OrderStatus> {
      if o.id in reported then Some(reported[o.id]) else None
    }
  }

  /** Nobody else does anything during the pass. */
  ghost predicate Quiet(x: Exchange) {
    forall m :: x.others(m) == []
  }

  /** The exchange knows the order and reports another status. */
  predicate Changes(o: Order, x: Exchange) {
    o.exchangeId.Some? && x.Report(o).Some? && x.Report(o).value != o.status
  }

  predicate Rewrites(o: Order, x: Exchange) {
    Changes(o, x) && o.id !in x.statusFails
  }

  /** The order's fill is handed to its position, whether or not the status write landed. */
  predicate Fills(o: Order, x: Exchange) {
    Changes(o, x) && x.Report(o).value.Filled? && o.id !in x.positionFails
  }

  /** The exchange may still change the order. */
  predicate Unfinished(o: Order) {
    o.status !in {Filled, Rejected, Cancelled, Failed}
  }

  /** The order rows after a pass: an open row takes the reported status, all else stays. */
  function Reconciled(orders: Orders, x: Exchange): Orders {
    map k | k in orders ::
      if Unfinished(orders[k]) && Rewrites(orders[k], x) then orders[k].(status := x.Report(orders[k]).value)
      else orders[k]
  }

  /** The same after the rows in `seen` only. */
  function Partly(orders: Orders, seen: seq<Order>, x: Exchange): Orders {
    map k | k in orders ::
      if orders[k] in seen && Rewrites(orders[k], x) then orders[k].(status := x.Report(orders[k]).value) else orders[k]
  }

  /** What became of an order's fill: none was handed on, the position has it, or the write was declined. */
  datatype Addition = Skipped | Added | Declined

  function WithFill(fills: seq<Order>, filled: bool, o: Order): seq<Order> {
    if filled then fills + [o] else fills
  }

  /** The orders whose fills were added, and those whose position write was declined. */
  datatype Tally = Tally(added: seq<Order>, declined: seq<Order>)
  {
    function With(o: Order, addition: Addition): Tally {
      Tally(WithFill(added, addition.Added?, o), WithFill(declined, addition.Declined?, o))
    }
  }

  predicate DistinctIntents(orders: seq<Order>) {
    forall i, j :: 0 <= i < j < |orders| ==> orders[i].intent != orders[j].intent
  }

  /** No two orders of the tally have the same intent. */
  predicate CountsOnce(tally: Tally) {
    && DistinctIntents(tally.added) && DistinctIntents(tally.declined)
    && forall a, d :: a in tally.added && d in tally.declined ==> a.intent != d.intent
  }

  /** The fills of `rows` are in the tally, once each, and nothing else is. */
  ghost predicate Counted(rows: seq<Order>, x: Exchange, tally: Tally) {
    (forall o :: o in tally.added || o in tally.declined <==> o in rows && Fills(o, x)) && CountsOnce(tally)
  }

  lemma CountedOnceMore(rows: seq<Order>, o: Order, x: Exchange, tally: Tally, addition: Addition)
    requires Counted(rows, x, tally) && (forall r :: r in rows ==> r.intent != o.intent)
    requires Fills(o, x) <==> addition != Skipped
    ensures Counted(rows + [o], x, tally.With(o, addition))
  {
    forall r | r in tally.added || r in tally.declined ensures r.intent != o.intent {
      assert r in rows;
    }
  }

  lemma OneMoreSeen(orders: Orders, nextId: OrderId, seen: seq<Order>, o: Order, x: Exchange)
    requires OrdersKeyed(orders, nextId) && o.intent in orders && orders[o.intent] == o && o !in seen
    ensures Partly(orders, seen + [o], x)
         == if Rewrites(o, x) then UpdateStatus(Partly(orders, seen, x), o.id, x.Report(o).value)
            else Partly(orders, seen, x)
  {
  }

  lemma ListingIsReconciled(orders: Orders, rows: seq<Order>, x: Exchange)
    requires IsListingOf(rows, orders)
    ensures Partly(orders, rows, x) == Reconciled(orders, x)
    ensures forall o :: o in rows <==> o.intent in orders && orders[o.intent] == o && Unfinished(o)
  {
  }

  // ================================================================ what the others leave alone

  /** Rows settled in `s` are settled and the same in `s'`, but for the row under `changed`; no settings are gone. */
  ghost predicate RowsKept(s: State, s': State, changed: Option<IntentId>) {
    && s.db.settings.Keys <= s'.db.settings.Keys
    && forall k :: k in s.hist.settledAs ==>
         && k in s'.hist.settledAs && k in s.db.orders && k in s'.db.orders
         && (changed != Some(k) ==> s'.db.orders[k] == s.db.orders[k])
  }

  lemma OthersKeepReconciler(s: State, a: Action)
    requires MayIntervene(s, Reconciler, a)
    ensures Apply(s, a).recon == s.recon && Apply(s, a).hist.fills == s.hist.fills
  {
    if a.Work? { WorkerKeepsFills(s, a.w, a.step); }
  }

  lemma OthersKeepSettled(s: State, a: Action)
    requires Inv(s) && MayIntervene(s, Reconciler, a)
    ensures Inv(Apply(s, a)) && RowsKept(s, Apply(s, a), None)
  {
    StepKeepsInv(s, a);
    forall b | b in s.db.settings ensures b in Apply(s, a).db.settings {
      StepKeepsSettings(s, a, b);
    }
    forall k | k in s.hist.settledAs
      ensures k in Apply(s, a).hist.settledAs && k in s.db.orders && k in Apply(s, a).db.orders
      ensures Apply(s, a).db.orders[k] == s.db.orders[k]
    {
      SettledRowsMoveOn(s, a, k);
      StepRespectsWriters(s, a, k);
    }
  }

  /** Whatever the others do meanwhile: settled rows, the snapshot and the fills are as the reconciler left them. */
  lemma {:induction false} MeanwhileKeepsSettled(s: State, wanted: seq<Action>)
    requires Inv(s)
    ensures var s' := Meanwhile(s, Reconciler, wanted);
            Inv(s') && RowsKept(s, s', None) && s'.recon == s.recon && s'.hist.fills == s.hist.fills
  {
    if wanted == [] {
      KeptAtOnce(s);
    } else {
      var before, a := Meanwhile(s, Reconciler, wanted[..|wanted| - 1]), wanted[|wanted| - 1];
      MeanwhileKeepsSettled(s, wanted[..|wanted| - 1]);
      if MayIntervene(before, Reconciler, a) {
        OthersKeepReconciler(before, a);
        OthersKeepSettled(before, a);
      }
    }
  }

  lemma KeptAtOnce(s: State)
    requires Inv(s)
    ensures RowsKept(s, s, None)
  {
  }

  lemma KeptOn(s: State, s1: State, s2: State, changed: Option<IntentId>)
    requires RowsKept(s, s1, changed) && RowsKept(s1, s2, changed)
    ensures RowsKept(s, s2, changed)
  {
  }

  // ================================================================ the pass, in place

  /** The actions so far lead to the present state of the system, whose tables are the actual ones. */
  ghost predicate OnCourse(s0: State, acts: seq<Action>, s: State, db: Db) {
    Leads(s0, acts, s) && Inv(s) && s.db == db
  }

  lemma OwnStep(s0: State, acts: seq<Action>, s: State, r: ReconcilerStep)
    requires OnCourse(s0, acts, s, s.db) && ReconcilerEnabled(s, r)
    ensures OnCourse(s0, acts + [Reconcile(r)], ApplyReconciler(s, r), ApplyReconciler(s, r).db)
  {
    LeadsOneMore(s0, acts, s, Reconcile(r));
    StepKeepsInv(s, Reconcile(r));
  }

  /** The others do what they want; the reconciler stays where it is. */
  method Pause(tables: Tables, wanted: seq<Action>, ghost s0: State, ghost acts: seq<Action>, s: State)
    returns (s': State, ghost acts': seq<Action>)
    requires OnCourse(s0, acts, s, tables.View())
    modifies tables
    ensures OnCourse(s0, acts', s', tables.View())
    ensures s' == Meanwhile(s, Reconciler, wanted)
    ensures RowsKept(s, s', None) && s'.recon == s.recon && s'.hist.fills == s.hist.fills
    ensures wanted == [] ==> tables.View() == old(tables.View())
  {
    s', acts' := Meanwhile(s, Reconciler, wanted), acts + Happened(s, Reconciler, wanted);
    MeanwhileLeads(s, Reconciler, wanted);
    LeadsOn(s0, acts, s, Happened(s, Reconciler, wanted), s');
    MeanwhileKeepsSettled(s, wanted);
    tables.Become(s'.db, s'.hist.calls);
  }

  /** What a landed status write leaves: the order with its new status, and all else as before. */
  lemma WrittenRow(s: State)
    requires Inv(s) && s.recon.Writing?
    ensures var s', o := DoWriteStatus(s, true), s.recon.order;
            && RowsKept(s, s', Some(o.intent)) && o.intent in s.hist.settledAs
            && o.intent in s'.db.orders && s'.db.orders[o.intent] == o.(status := s.recon.status)
  {
    StatusWritten(s);
  }

  lemma UnwrittenRow(s: State)
    requires Inv(s) && s.recon.Writing?
    ensures RowsKept(s, DoWriteStatus(s, false), None) && s.recon.order.intent in s.hist.settledAs
  {
    KeptAtOnce(s);
  }

  /** The status write of a changed order. */
  method WriteReported(tables: Tables, x: Exchange, ghost s0: State, ghost acts: seq<Action>, s: State)
    returns (s': State, ghost acts': seq<Action>)
    requires OnCourse(s0, acts, s, tables.View()) && s.recon.Writing?
    modifies tables
    ensures OnCourse(s0, acts', s', tables.View()) && s'.hist.fills == s.hist.fills
    ensures var o, rest := s.recon.order, s.recon.todo;
            var landed := o.id !in x.statusFails;
            && s'.recon == (if s.recon.status.Filled? then Adding(o, rest) else Looping(rest))
            && RowsKept(s, s', if landed then Some(o.intent) else None)
            && o.intent in s'.hist.settledAs
            && (landed ==> o.intent in s'.db.orders && s'.db.orders[o.intent] == o.(status := s.recon.status))
            && (Quiet(x) ==> tables.View() == old(tables.View()).(orders :=
                  if landed then UpdateStatus(old(tables.orders), o.id, s.recon.status) else old(tables.orders)))
  {
    var order, status := s.recon.order, s.recon.status;
    s', acts' := Pause(tables, x.others(BeforeStatus(order.id)), s0, acts, s);
    ghost var s1 := s';
    var landed := order.id !in x.statusFails;
    if landed { tables.UpdateOrderStatus(order.id, status); }
    OwnStep(s0, acts', s', WriteStatus(landed));
    s', acts' := DoWriteStatus(s', landed), acts' + [Reconcile(WriteStatus(landed))];
    if landed {
      WrittenRow(s1);
      KeptOn(s, s1, s', Some(order.intent));
    } else {
      UnwrittenRow(s1);
      KeptOn(s, s1, s', None);
    }
  }

  // ---------------------------------------------------------------- the position write

  /** The positions so far have the fills of the orders added, row by row. */
  ghost predicate OnBooks(positions: PositionTable, fills: seq<Order>)
    reads positions
  {
    positions.Valid() && Records(positions.histories, fills)
  }

  /** The latest event of the position is the order's fill, and the row shows it, with the stops of these settings. */
  ghost predicate JustFilled(positions: PositionTable, o: Order, settings: RiskSettings)
    reads positions
  {
    var events := HistoryAt(positions.histories, KeyOf(o));
    && events != [] && events[|events| - 1] == FillOf(o, settings)
    && ShowsOrder(After(events[..|events| - 1]).row, StateAt(positions.states, KeyOf(o)).row, o, settings)
  }

  /** The upsert of `update_position_for_order`, after the settings were read. */
  method Upsert(
      positions: PositionTable, order: Order, settings: Option<RiskSettings>, x: Exchange, ghost fills: seq<Order>)
    returns (addition: Addition)
    requires OnBooks(positions, fills)
    modifies positions
    ensures OnBooks(positions, WithFill(fills, addition.Added?, order))
    ensures addition.Skipped? <==> order.id in x.positionFails
    ensures addition.Added? ==> settings.Some? && JustFilled(positions, order, settings.value)
    ensures addition.Declined? && Sized(fills) && order.quantity > 0.0 ==> settings.None?
  {
    positions.Watch(x.looks(order.id), fills);
    if order.id in x.positionFails { return Skipped; }
    if settings.None? { return Declined; }
    ghost var histories := positions.histories;
    if Sized(fills) && order.quantity > 0.0 {
      UpsertGoesThrough(HistoryAt(histories, KeyOf(order)), fills, order, settings.value);
    }
    var ok := positions.UpsertOnFill(order, settings.value);
    if ok { FillIsRecorded(histories, fills, order, FillOf(order, settings.value)); }
    addition := if ok then Added else Declined;
  }

  /** Only missing settings make a position decline a fill, if every order has a positive quantity. */
  ghost predicate Warranted(o: Order, addition: Addition, s: State, s': State) {
    && (addition.Added? ==> o.bot in s'.db.settings)
    && (addition.Declined? && Sized(s.hist.fills) && o.quantity > 0.0 ==> o.bot !in s.db.settings)
  }

  /** `get_risk_settings`; the others act before it and after it. */
  method SettingsOf(
      tables: Tables, order: Order, x: Exchange, ghost s0: State, ghost acts: seq<Action>, s: State)
    returns (settings: Option<RiskSettings>, s': State, ghost acts': seq<Action>)
    requires OnCourse(s0, acts, s, tables.View())
    modifies tables
    ensures OnCourse(s0, acts', s', tables.View()) && s'.recon == s.recon && s'.hist.fills == s.hist.fills
    ensures RowsKept(s, s', None)
    ensures if settings.Some? then order.bot in s'.db.settings else order.bot !in s.db.settings
    ensures Quiet(x) ==> tables.View() == old(tables.View())
    ensures Quiet(x) && settings.Some? ==> settings.value == s'.db.settings[order.bot]
  {
    s', acts' := Pause(tables, x.others(BeforeSettings(order.id)), s0, acts, s);
    ghost var s1 := s';
    settings := if order.bot in tables.settings then Some(tables.settings[order.bot]) else None;
    s', acts' := Pause(tables, x.others(BeforePosition(order.id)), s0, acts', s');
    KeptOn(s, s1, s', None);
  }

  /** The position write of a filled order. */
  method AddFill(
      tables: Tables, positions: PositionTable, x: Exchange, ghost s0: State, ghost acts: seq<Action>, s: State)
    returns (addition: Addition, s': State, ghost acts': seq<Action>)
    requires OnCourse(s0, acts, s, tables.View()) && s.recon.Adding? && OnBooks(positions, s.hist.fills)
    modifies tables, positions
    ensures OnCourse(s0, acts', s', tables.View()) && s'.recon == Looping(s.recon.todo) && RowsKept(s, s', None)
    ensures s'.hist.fills == WithFill(s.hist.fills, addition.Added?, s.recon.order) && OnBooks(positions, s'.hist.fills)
    ensures addition.Skipped? <==> s.recon.order.id in x.positionFails
    ensures Warranted(s.recon.order, addition, s, s')
    ensures Quiet(x) ==> tables.View() == old(tables.View())
    ensures addition.Added? ==> exists settings :: JustFilled(positions, s.recon.order, settings)
    ensures Quiet(x) && addition.Added? ==>
              JustFilled(positions, s.recon.order, s'.db.settings[s.recon.order.bot])
  {
    var order := s.recon.order;
    var settings;
    settings, s', acts' := SettingsOf(tables, order, x, s0, acts, s);
    addition := Upsert(positions, order, settings, x, s.hist.fills);
    OwnStep(s0, acts', s', WritePosition(addition.Added?));
    s', acts' := DoWritePosition(s', addition.Added?), acts' + [Reconcile(WritePosition(addition.Added?))];
  }

  /** A changed order: the status write, and for a fill the position write, which does not depend on the first. */
  method WriteAndAdd(
      tables: Tables, positions: PositionTable, x: Exchange, ghost s0: State, ghost acts: seq<Action>, s: State)
    returns (addition: Addition, s': State, ghost acts': seq<Action>)
    requires OnCourse(s0, acts, s, tables.View()) && s.recon.Writing? && OnBooks(positions, s.hist.fills)
    modifies tables, positions
    ensures OnCourse(s0, acts', s', tables.View()) && s'.recon == Looping(s.recon.todo)
    ensures s'.hist.fills == WithFill(s.hist.fills, addition.Added?, s.recon.order) && OnBooks(positions, s'.hist.fills)
    ensures addition != Skipped <==> s.recon.status.Filled? && s.recon.order.id !in x.positionFails
    ensures Warranted(s.recon.order, addition, s, s')
    ensures var o, status := s.recon.order, s.recon.status;
            var landed := o.id !in x.statusFails;
            && RowsKept(s, s', if landed then Some(o.intent) else None)
            && (landed ==> o.intent in s'.db.orders && s'.db.orders[o.intent] == o.(status := status))
            && (Quiet(x) ==> tables.View() == old(tables.View()).(orders :=
                  if landed then UpdateStatus(old(tables.orders), o.id, status) else old(tables.orders)))
  {
    addition := Skipped;
    s', acts' := WriteReported(tables, x, s0, acts, s);
    if s.recon.status.Filled? {
      ghost var s1 := s';
      addition, s', acts' := AddFill(tables, positions, x, s0, acts', s');
      KeptOn(s, s1, s', if s.recon.order.id !in x.statusFails then Some(s.recon.order.intent) else None);
    }
  }

  /** One order of the snapshot: ask the exchange, write the status, add a fill to the position. */
  method ReconcileOrder(
      tables: Tables, positions: PositionTable, order: Order, x: Exchange, ghost s0: State, ghost acts: seq<Action>,
      s: State)
    returns (addition: Addition, s': State, ghost acts': seq<Action>)
    requires OnCourse(s0, acts, s, tables.View()) && s.recon.Looping? && s.recon.todo != [] && s.recon.todo[0] == order
    requires OnBooks(positions, s.hist.fills)
    modifies tables, positions
    ensures OnCourse(s0, acts', s', tables.View()) && s'.recon == Looping(s.recon.todo[1..])
    ensures s'.hist.fills == WithFill(s.hist.fills, addition.Added?, order) && OnBooks(positions, s'.hist.fills)
    ensures addition != Skipped <==> Fills(order, x)
    ensures Warranted(order, addition, s, s')
    ensures RowsKept(s, s', if Rewrites(order, x) then Some(order.intent) else None)
    ensures Rewrites(order, x) ==>
              order.intent in s'.db.orders && s'.db.orders[order.intent] == order.(status := x.Report(order).value)
    ensures Quiet(x) ==> tables.View() == old(tables.View()).(orders :=
              if Rewrites(order, x) then UpdateStatus(old(tables.orders), order.id, x.Report(order).value)
              else old(tables.orders))
  {
    addition := Skipped;
    s', acts' := Pause(tables, x.others(BeforeAsking(order.id)), s0, acts, s);
    var report := x.Report(order);
    OwnStep(s0, acts', s', Inspect(report));
    s', acts' := s'.(recon := AfterInspect(s'.recon, report)), acts' + [Reconcile(Inspect(report))];
    if order.exchangeId.Some? && report.Some? && report.value != order.status {
      ghost var s2 := s';
      addition, s', acts' := WriteAndAdd(tables, positions, x, s0, acts', s');
      KeptOn(s, s2, s', if Rewrites(order, x) then Some(order.intent) else None);
    }
  }

  // ---------------------------------------------------------------- the loop

  /** Rows that were settled at the poll are settled, and as the pass has left them after the rows in `seen`. */
  ghost predicate RowsDone(polled: State, s: State, seen: seq<Order>, x: Exchange) {
    forall k :: k in polled.hist.settledAs ==> RowDone(k, polled, s, seen, x)
  }

  ghost predicate RowDone(k: IntentId, polled: State, s: State, seen: seq<Order>, x: Exchange) {
    && k in s.hist.settledAs && k in polled.db.orders && k in s.db.orders
    && s.db.orders[k] == Partly(polled.db.orders, seen, x)[k]
  }

  /** The rows sit under their keys. */
  ghost predicate Keyed(s: State) {
    && (forall k :: k in s.db.orders ==> s.db.orders[k].intent == k)
    && forall k :: k in s.hist.settledAs ==> k in s.db.orders
  }

  lemma ReachableIsKeyed(s: State)
    requires Inv(s)
    ensures Keyed(s)
  {
  }

  lemma RowsDoneAtFirst(polled: State, x: Exchange)
    requires Keyed(polled)
    ensures RowsDone(polled, polled, [], x)
  {
  }

  lemma OneRowDone(polled: State, s: State, s': State, seen: seq<Order>, o: Order, x: Exchange)
    requires Keyed(polled) && RowsDone(polled, s, seen, x)
    requires o.intent in polled.db.orders && polled.db.orders[o.intent] == o
    requires RowsKept(s, s', if Rewrites(o, x) then Some(o.intent) else None)
    requires Rewrites(o, x) ==> o.intent in s'.db.orders && s'.db.orders[o.intent] == o.(status := x.Report(o).value)
    ensures RowsDone(polled, s', seen + [o], x)
  {
    forall k | k in polled.hist.settledAs ensures RowDone(k, polled, s', seen + [o], x) {
      assert RowDone(k, polled, s, seen, x);
      assert polled.db.orders[k] in seen + [o] <==> polled.db.orders[k] in seen || polled.db.orders[k] == o;
    }
  }

  /** If nobody else does anything, the tables differ from those at the poll in the statuses of the rows seen. */
  ghost predicate QuietSoFar(polled: Db, seen: seq<Order>, x: Exchange, db: Db) {
    Quiet(x) ==> db == polled.(orders := Partly(polled.orders, seen, x))
  }

  /** Only missing settings make a position decline one of the fills, if every order has a positive quantity. */
  ghost predicate AllWarranted(polled: State, tally: Tally, s: State) {
    && (forall o :: o in tally.added ==> o.bot in s.db.settings)
    && (AllSized(polled) ==> forall o :: o in tally.declined ==> o.bot !in polled.db.settings)
  }

  predicate AllSized(s: State) {
    Sized(s.hist.fills) && forall k :: k in s.db.orders ==> s.db.orders[k].quantity > 0.0
  }

  /** What the rows in `seen` have come to. */
  ghost predicate Tallied(polled: State, seen: seq<Order>, x: Exchange, tally: Tally, s: State) {
    && Counted(seen, x, tally) && s.hist.fills == polled.hist.fills + tally.added
    && polled.db.settings.Keys <= s.db.settings.Keys && AllWarranted(polled, tally, s)
  }

  /** Where the loop is after `i` rows. */
  ghost predicate Halfway(
      polled: State, rows: seq<Order>, i: nat, x: Exchange, tally: Tally, s0: State, acts: seq<Action>, s: State,
      db: Db)
  {
    && i <= |rows| && OnCourse(s0, acts, s, db) && s.recon == Looping(rows[i..])
    && Tallied(polled, rows[..i], x, tally, s)
    && RowsDone(polled, s, rows[..i], x) && QuietSoFar(polled.db, rows[..i], x, db)
  }

  lemma HalfwayAtFirst(rows: seq<Order>, x: Exchange, s0: State, acts: seq<Action>, s: State)
    requires OnCourse(s0, acts, s, s.db) && s.recon == Looping(rows)
    ensures Halfway(s, rows, 0, x, Tally([], []), s0, acts, s, s.db)
  {
    ReachableIsKeyed(s);
    RowsDoneAtFirst(s, x);
    assert rows[..0] == [] && rows[0..] == rows;
    assert Partly(s.db.orders, [], x) == s.db.orders;
  }

  lemma OneRowQuieter(polled: Db, nextId: OrderId, seen: seq<Order>, o: Order, x: Exchange, db: Db, db': Db)
    requires OrdersKeyed(polled.orders, nextId) && o !in seen
    requires o.intent in polled.orders && polled.orders[o.intent] == o
    requires QuietSoFar(polled, seen, x, db)
    requires Quiet(x) ==> db' == db.(orders :=
               if Rewrites(o, x) then UpdateStatus(db.orders, o.id, x.Report(o).value) else db.orders)
    ensures QuietSoFar(polled, seen + [o], x, db')
  {
    OneMoreSeen(polled.orders, nextId, seen, o, x);
  }

  /** What is known of the order being visited, from the listing and the invariant. */
  lemma RowAtHand(polled: State, rows: seq<Order>, i: nat)
    requires Inv(polled) && IsListingOf(rows, polled.db.orders) && i < |rows|
    ensures Keyed(polled) && OrdersKeyed(polled.db.orders, polled.nextId)
    ensures rows[i].intent in polled.db.orders && polled.db.orders[rows[i].intent] == rows[i] && rows[i] !in rows[..i]
    ensures forall r :: r in rows[..i] ==> r.intent != rows[i].intent
    ensures forall r :: r in rows[..i] + [rows[i]] ==> r.intent in polled.db.orders && polled.db.orders[r.intent] == r
  {
  }

  lemma SlicesOneFurther(rows: seq<Order>, i: nat)
    requires i < |rows|
    ensures rows[..i + 1] == rows[..i] + [rows[i]] && rows[i..][1..] == rows[i + 1..]
  {
  }

  lemma TalliedOnceMore(
      polled: State, seen: seq<Order>, o: Order, x: Exchange, tally: Tally, addition: Addition, s: State, s': State)
    requires Tallied(polled, seen, x, tally, s) && Warranted(o, addition, s, s')
    requires forall r :: r in seen ==> r.intent != o.intent
    requires forall r :: r in seen + [o] ==> r.intent in polled.db.orders && polled.db.orders[r.intent] == r
    requires s'.hist.fills == WithFill(s.hist.fills, addition.Added?, o) && (addition != Skipped <==> Fills(o, x))
    requires s.db.settings.Keys <= s'.db.settings.Keys
    ensures Tallied(polled, seen + [o], x, tally.With(o, addition), s')
  {
    CountedOnceMore(seen, o, x, tally, addition);
    if AllSized(polled) {
      assert Sized(s.hist.fills) && o.quantity > 0.0 by {
        assert forall r :: r in tally.added ==> r in seen + [o];
        assert o in seen + [o];
      }
    }
  }

  /** What a visit of one order brings: to its row, to its position, and to nothing else that the pass relies on. */
  ghost predicate Visited(o: Order, x: Exchange, addition: Addition, s: State, s': State) {
    && s'.hist.fills == WithFill(s.hist.fills, addition.Added?, o) && (addition != Skipped <==> Fills(o, x))
    && Warranted(o, addition, s, s') && RowsKept(s, s', if Rewrites(o, x) then Some(o.intent) else None)
    && (Rewrites(o, x) ==> o.intent in s'.db.orders && s'.db.orders[o.intent] == o.(status := x.Report(o).value))
    && (Quiet(x) ==> s'.db == s.db.(orders :=
          if Rewrites(o, x) then UpdateStatus(s.db.orders, o.id, x.Report(o).value) else s.db.orders))
  }

  lemma OneRowVisited(
      polled: State, seen: seq<Order>, o: Order, x: Exchange, tally: Tally, addition: Addition, s: State, s': State)
    requires Keyed(polled) && OrdersKeyed(polled.db.orders, polled.nextId) && o !in seen
    requires forall r :: r in seen ==> r.intent != o.intent
    requires forall r :: r in seen + [o] ==> r.intent in polled.db.orders && polled.db.orders[r.intent] == r
    requires Tallied(polled, seen, x, tally, s) && RowsDone(polled, s, seen, x) && QuietSoFar(polled.db, seen, x, s.db)
    requires Visited(o, x, addition, s, s')
    ensures Tallied(polled, seen + [o], x, tally.With(o, addition), s')
    ensures RowsDone(polled, s', seen + [o], x) && QuietSoFar(polled.db, seen + [o], x, s'.db)
  {
    assert o in seen + [o];
    OneRowDone(polled, s, s', seen, o, x);
    OneRowQuieter(polled.db, polled.nextId, seen, o, x, s.db, s'.db);
    TalliedOnceMore(polled, seen, o, x, tally, addition, s, s');
  }

  lemma OneRowFurther(
      polled: State, rows: seq<Order>, i: nat, x: Exchange, tally: Tally, addition: Addition, s0: State,
      acts: seq<Action>, s: State, acts': seq<Action>, s': State)
    requires Halfway(polled, rows, i, x, tally, s0, acts, s, s.db) && i < |rows|
    requires Inv(polled) && IsListingOf(rows, polled.db.orders)
    requires OnCourse(s0, acts', s', s'.db) && s'.recon == Looping(s.recon.todo[1..])
    requires Visited(rows[i], x, addition, s, s')
    ensures Halfway(polled, rows, i + 1, x, tally.With(rows[i], addition), s0, acts', s', s'.db)
  {
    SlicesOneFurther(rows, i);
    RowAtHand(polled, rows, i);
    OneRowVisited(polled, rows[..i], rows[i], x, tally, addition, s, s');
  }

  /** The loop over the snapshot. */
  method ReconcileRows(
      tables: Tables, positions: PositionTable, rows: seq<Order>, x: Exchange, ghost s0: State, ghost acts: seq<Action>,
      s: State)
    returns (tally: Tally, s': State, ghost acts': seq<Action>)
    requires OnCourse(s0, acts, s, tables.View()) && s.recon == Looping(rows) && IsListingOf(rows, s.db.orders)
    requires OnBooks(positions, s.hist.fills)
    modifies tables, positions
    ensures Halfway(s, rows, |rows|, x, tally, s0, acts', s', tables.View()) && OnBooks(positions, s'.hist.fills)
  {
    tally, s', acts' := Tally([], []), s, acts;
    var i := 0;
    HalfwayAtFirst(rows, x, s0, acts, s);
    while i < |rows|
      invariant Halfway(s, rows, i, x, tally, s0, acts', s', tables.View()) && OnBooks(positions, s'.hist.fills)
    {
      ghost var acts1, s1 := acts', s';
      var addition;
      addition, s', acts' := ReconcileOrder(tables, positions, rows[i], x, s0, acts', s');
      OneRowFurther(s, rows, i, x, tally, addition, s0, acts1, s1, acts', s');
      tally := tally.With(rows[i], addition);
      i := i + 1;
    }
  }

  /** Of the rows settled at the poll, each open one that the exchange knows has the reported status, others stay. */
  ghost predicate RowsReconciled(polled: State, db: Db, x: Exchange) {
    forall k :: k in polled.hist.settledAs ==>
      k in polled.db.orders && k in db.orders && db.orders[k] == Reconciled(polled.db.orders, x)[k]
  }

  /** The tally has the fills newly reported for orders open at the poll, once each, and nothing else. */
  ghost predicate FillsTallied(polled: Db, x: Exchange, tally: Tally) {
    && (forall o :: o in tally.added || o in tally.declined <==>
          o.intent in polled.orders && polled.orders[o.intent] == o && Unfinished(o) && Fills(o, x))
    && CountsOnce(tally)
  }

  /** What a pass has done by state `s`. */
  ghost predicate PassDone(polled: State, x: Exchange, tally: Tally, s: State) {
    && s.hist.fills == polled.hist.fills + tally.added
    && FillsTallied(polled.db, x, tally) && AllWarranted(polled, tally, s) && RowsReconciled(polled, s.db, x)
    && (Quiet(x) ==> s.db == polled.db.(orders := Reconciled(polled.db.orders, x)))
  }

  lemma HalfwayAtLast(
      polled: State, rows: seq<Order>, x: Exchange, tally: Tally, s0: State, acts: seq<Action>, s: State)
    requires Halfway(polled, rows, |rows|, x, tally, s0, acts, s, s.db) && IsListingOf(rows, polled.db.orders)
    ensures OnCourse(s0, acts, s, s.db) && s.recon == Looping([]) && PassDone(polled, x, tally, s)
  {
    assert rows[..|rows|] == rows;
    ListingIsReconciled(polled.db.orders, rows, x);
    forall k | k in polled.hist.settledAs
      ensures k in polled.db.orders && k in s.db.orders && s.db.orders[k] == Reconciled(polled.db.orders, x)[k]
    {
      assert RowDone(k, polled, s, rows, x);
    }
  }

  /** That does not depend on where the reconciler is. */
  lemma PassIsDone(polled: State, recon: Recon, x: Exchange, tally: Tally, s: State)
    requires PassDone(polled.(recon := recon), x, tally, s) && s.recon.Looping?
    ensures PassDone(polled, x, tally, DoEndPass(s)) && DoEndPass(s).db == s.db
    ensures DoEndPass(s).hist.fills == s.hist.fills && DoEndPass(s).recon.Resting?
  {
  }

  /**
   `reconcile_orders` from any reachable state, whatever the exchange reports, whichever writes fail and whatever the
   others do before each of its statements. Of the rows settled at the poll, each open one with an exchange id has the
   reported status at the end, and no other has changed. The orders handed to positions are exactly those newly
   reported as filled, each once; with positive quantities a position declines one only if its bot has no settings. The
   positions end with the fills that were added, whatever the risk monitor does in between. The pass takes steps of the
   protocol. If nobody else does anything, the tables differ in those statuses only.
   */
  method ReconcileOrders(tables: Tables, positions: PositionTable, x: Exchange, s0: State)
    returns (tally: Tally, ghost polled: State, s: State, ghost acts: seq<Action>)
    requires s0.db == tables.View() && s0.recon.Resting? && Inv(s0) && OnBooks(positions, s0.hist.fills)
    modifies tables, positions
    ensures polled == Meanwhile(s0, Reconciler, x.others(BeforePoll))
    ensures OnCourse(s0, acts, s, tables.View()) && s.recon.Resting? && OnBooks(positions, s.hist.fills)
    ensures PassDone(polled, x, tally, s) && polled.hist.fills == s0.hist.fills
    ensures Quiet(x) ==> tables.View() == old(tables.View()).(orders := Reconciled(old(tables.orders), x))
  {
    LeadsNowhere(s0);
    s, acts := Pause(tables, x.others(BeforePoll), s0, [], s0);
    polled := s;
    var rows := tables.GetOpenOrders();
    OwnStep(s0, acts, s, Poll(rows));
    s, acts := s.(recon := Looping(rows)), acts + [Reconcile(Poll(rows))];
    ghost var looping := s;
    tally, s, acts := ReconcileRows(tables, positions, rows, x, s0, acts, s);
    HalfwayAtLast(looping, rows, x, tally, s0, acts, s);
    PassIsDone(polled, looping.recon, x, tally, s);
    OwnStep(s0, acts, s, EndPass);
    s, acts := DoEndPass(s), acts + [Reconcile(EndPass)];
  }
}
