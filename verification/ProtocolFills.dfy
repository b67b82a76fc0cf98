/** What the reconciler adds to positions. */
module ProtocolFills {
  import opened Domain
  import opened Protocol
  import opened ProtocolInvariant
  import opened ProtocolTheorems

  /** `o` is the settled row under its key, up to the status, which moves on. */
  predicate RowOf(o: Order, orders: Orders, settled: Settled) {
    o.intent in settled && o.intent in orders && o == orders[o.intent].(status := o.status)
  }

  /** Orders added to positions, or about to be, are the order rows. */
  ghost predicate FillsAreRows(fills: seq<Order>, recon: Recon, orders: Orders, settled: Settled) {
    && (forall i :: 0 <= i < |fills| ==> RowOf(fills[i], orders, settled))
    && (recon.Adding? ==> RowOf(recon.order, orders, settled))
  }

  lemma RowsKeepFills(
      fills: seq<Order>, recon: Recon, orders: Orders, settled: Settled, orders': Orders, settled': Settled)
    requires FillsAreRows(fills, recon, orders, settled)
    requires forall k :: k in settled && k in orders ==>
               k in settled' && k in orders' && orders'[k] == orders[k].(status := orders'[k].status)
    ensures FillsAreRows(fills, recon, orders', settled')
  {
    forall o | RowOf(o, orders, settled) ensures RowOf(o, orders', settled') {
      assert orders'[o.intent] == orders[o.intent].(status := orders'[o.intent].status);
    }
  }

  lemma WorkerKeepsFills(s: State, w: WorkerId, step: WorkerStep)
    requires WorkerEnabled(s, w, step)
    ensures var s' := ApplyWorker(s, w, step); s'.recon == s.recon && s'.hist.fills == s.hist.fills
  {
  }

  /** A settled row changes in its status only. */
  lemma SettledRowsMoveOn(s: State, a: Action, k: IntentId)
    requires Inv(s) && Enabled(s, a) && k in s.hist.settledAs && k in s.db.orders
    ensures var s' := Apply(s, a);
            k in s'.hist.settledAs && k in s'.db.orders
            && s'.db.orders[k] == s.db.orders[k].(status := s'.db.orders[k].status)
  {
    StepRespectsWriters(s, a, k);
    if Is(a, CommitOutcome) {
      assert Apply(s, a) == DoCommitOutcome(s, a.w);
    } else {
      StepKeepsSettled(s, a);
    }
  }

  lemma AppendKeepsRows(fills: seq<Order>, recon: Recon, orders: Orders, settled: Settled)
    requires FillsAreRows(fills, recon, orders, settled) && recon.Adding?
    ensures FillsAreRows(fills + [recon.order], Looping(recon.todo), orders, settled)
  {
  }

  lemma FreshIsRow(s: State)
    requires Inv(s) && s.recon.Writing?
    ensures RowOf(s.recon.order, s.db.orders, s.hist.settledAs)
  {
  }

  lemma WriteKeepsRows(s: State, r: ReconcilerStep)
    requires Inv(s) && ReconcilerEnabled(s, r) && FillsAreRows(s.hist.fills, s.recon, s.db.orders, s.hist.settledAs)
    ensures var s' := ApplyReconciler(s, r); FillsAreRows(s'.hist.fills, s'.recon, s.db.orders, s.hist.settledAs)
  {
    match r
    case Poll(rows) =>
    case Inspect(reported) =>
    case WriteStatus(landed) => FreshIsRow(s);
    case WritePosition(landed) => AppendKeepsRows(s.hist.fills, s.recon, s.db.orders, s.hist.settledAs);
    case EndPass =>
  }

  lemma StepKeepsRows(s: State, a: Action)
    requires Inv(s) && Enabled(s, a) && FillsAreRows(s.hist.fills, s.recon, s.db.orders, s.hist.settledAs)
    ensures var s' := Apply(s, a); FillsAreRows(s'.hist.fills, s'.recon, s'.db.orders, s'.hist.settledAs)
  {
    var s' := Apply(s, a);
    assert FillsAreRows(s'.hist.fills, s'.recon, s.db.orders, s.hist.settledAs) by {
      if a.Work? { WorkerKeepsFills(s, a.w, a.step); }
      if a.Reconcile? { WriteKeepsRows(s, a.r); }
    }
    forall k | k in s.hist.settledAs && k in s.db.orders
      ensures k in s'.hist.settledAs && k in s'.db.orders
              && s'.db.orders[k] == s.db.orders[k].(status := s'.db.orders[k].status)
    {
      SettledRowsMoveOn(s, a, k);
    }
    RowsKeepFills(s'.hist.fills, s'.recon, s.db.orders, s.hist.settledAs, s'.db.orders, s'.hist.settledAs);
  }

  lemma RowsKeptAt(run: seq<State>, acts: seq<Action>, t: nat)
    requires IsRun(run, acts) && t < |acts|
    requires FillsAreRows(run[t].hist.fills, run[t].recon, run[t].db.orders, run[t].hist.settledAs)
    ensures FillsAreRows(run[t + 1].hist.fills, run[t + 1].recon, run[t + 1].db.orders, run[t + 1].hist.settledAs)
  {
    RunInv(run, acts, t);
    assert Step(run[t], acts[t], run[t + 1]);
    StepKeepsRows(run[t], acts[t]);
  }

  /** Every order added to a position is its order row, up to the status. */
  lemma {:induction false} FillsAreTheOrders(run: seq<State>, acts: seq<Action>, n: nat)
    requires IsRun(run, acts) && n < |run|
    ensures FillsAreRows(run[n].hist.fills, run[n].recon, run[n].db.orders, run[n].hist.settledAs)
    decreases n
  {
    if n > 0 {
      FillsAreTheOrders(run, acts, n - 1);
      RowsKeptAt(run, acts, n - 1);
    }
  }

  // ================================================================ exactly once

  /** Step `a` is a status write, landed or not, that moves the order of `k` to filled. */
  predicate MovesToFilled(s: State, a: Action, k: IntentId, landed: bool) {
    a == Reconcile(WriteStatus(landed)) && s.recon.Writing? && s.recon.order.intent == k && s.recon.status.Filled?
  }

  /** No write of the reconciler fails at step `a`, and it does not die between its two writes. */
  predicate Lands(s: State, a: Action) {
    && a != Reconcile(WriteStatus(false)) && a != Reconcile(WritePosition(false))
    && (a == Reconcile(EndPass) ==> !s.recon.Adding?)
  }

  lemma WorkerKeepsBooks(s: State, w: WorkerId, step: WorkerStep)
    requires WorkerEnabled(s, w, step)
    ensures var h, h' := s.hist, ApplyWorker(s, w, step).hist;
            h'.moved == h.moved && h'.unmoved == h.unmoved && h'.lost == h.lost
  {
  }

  lemma StepBooks(s: State, a: Action, k: IntentId)
    requires Enabled(s, a)
    ensures var h, h' := s.hist, Apply(s, a).hist;
            && (Lands(s, a) ==> h'.unmoved == h.unmoved && h'.lost == h.lost)
            && h'.moved[k] == h.moved[k] + (if MovesToFilled(s, a, k, true) then 1 else 0)
  {
    if a.Work? { WorkerKeepsBooks(s, a.w, a.step); }
  }

  /** The number of landed status writes that moved the order of `k` to filled. */
  function Moves(run: seq<State>, acts: seq<Action>, n: nat, k: IntentId): nat
    requires n <= |acts| && |run| == |acts| + 1
  {
    if n == 0 then 0
    else Moves(run, acts, n - 1, k) + if MovesToFilled(run[n - 1], acts[n - 1], k, true) then 1 else 0
  }

  lemma {:induction false} MovedCountsMoves(run: seq<State>, acts: seq<Action>, n: nat, k: IntentId)
    requires IsRun(run, acts) && n < |run|
    ensures run[n].hist.moved[k] == Moves(run, acts, n, k)
    decreases n
  {
    if n > 0 {
      MovedCountsMoves(run, acts, n - 1, k);
      assert Step(run[n - 1], acts[n - 1], run[n]);
      StepBooks(run[n - 1], acts[n - 1], k);
    }
  }

  lemma {:induction false} NothingLost(run: seq<State>, acts: seq<Action>, n: nat)
    requires IsRun(run, acts) && n < |run| && forall t :: 0 <= t < n ==> Lands(run[t], acts[t])
    ensures run[n].hist.lost == run[n].hist.unmoved == multiset{}
    decreases n
  {
    if n > 0 {
      NothingLost(run, acts, n - 1);
      assert Step(run[n - 1], acts[n - 1], run[n]);
      StepBooks(run[n - 1], acts[n - 1], 0);
    }
  }

  /**
   In every run, with or without failures: an order is moved to filled at most once, and the position writes of an
   order that landed, were lost or are under way match its status writes of `filled`, landed or not.
   */
  lemma FillsBalance(run: seq<State>, acts: seq<Action>, n: nat, k: IntentId)
    requires IsRun(run, acts) && n < |run|
    ensures var s := run[n];
            && Moves(run, acts, n, k) <= 1
            && Intents(s.hist.fills)[k] + s.hist.lost[k] + InFlight(s.recon)[k]
               == Moves(run, acts, n, k) + s.hist.unmoved[k]
  {
    var s := run[n];
    RunInv(run, acts, n);
    MovedCountsMoves(run, acts, n, k);
    assert s.hist.added == Intents(s.hist.fills);
    assert (s.hist.added + s.hist.lost + InFlight(s.recon))[k] == (s.hist.moved + s.hist.unmoved)[k];
  }

  /** When the writes land, each order moved to filled is added to its position exactly once, and no other is. */
  lemma AddedExactlyOnce(run: seq<State>, acts: seq<Action>, n: nat, k: IntentId)
    requires IsRun(run, acts) && n < |run| && !run[n].recon.Adding?
    requires forall t :: 0 <= t < n ==> Lands(run[t], acts[t])
    ensures Intents(run[n].hist.fills)[k] == Moves(run, acts, n, k) <= 1
  {
    FillsBalance(run, acts, n, k);
    NothingLost(run, acts, n);
  }
}
