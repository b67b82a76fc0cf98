/** The risk gate inside the protocol: what an execution rests on, and what an auto-stop prevents. */
module ProtocolGate {
  import opened Domain
  import opened RiskGate
  import opened Protocol
  import opened ProtocolInvariant
  import opened ProtocolTheorems

  // ================================================================ every execution rests on a full pass

  /** The step by which a worker came to its program counter, where there is only one. */
  lemma LoadedBy(s: State, w: WorkerId, step: WorkerStep)
    requires WorkerEnabled(s, w, step) && At(ApplyWorker(s, w, step), w).Loaded?
    ensures var before, after := At(s, w), At(ApplyWorker(s, w, step), w);
            && step.LoadSettings? && before.KnowsBot? && before.m == after.m
            && after.m.intent.bot in s.db.settings && after.settings == s.db.settings[after.m.intent.bot]
  {
  }

  lemma ClearedBy(s: State, w: WorkerId, step: WorkerStep)
    requires WorkerEnabled(s, w, step) && At(ApplyWorker(s, w, step), w).Cleared?
    ensures var before, after := At(s, w), At(ApplyWorker(s, w, step), w);
            && step == Judge(after.ticket.view)
            && before.Loaded? && before.m == after.m && before.settings == after.ticket.settings
  {
  }

  lemma ReservedBy(s: State, w: WorkerId, step: WorkerStep)
    requires WorkerEnabled(s, w, step)
    ensures var before, after := At(s, w), At(ApplyWorker(s, w, step), w);
            && (after.Holding? ==> step.Reserve? && before == Cleared(after.m, after.ticket))
            && (after.Reserved? ==> step.CommitReservation? && before == Holding(after.m, after.ticket, after.order))
  {
  }

  /** The settings a worker has loaded were in the table when it loaded them, for the message it still has. */
  lemma {:induction false} LoadedFromTable(run: seq<State>, acts: seq<Action>, n: nat, w: WorkerId) returns (i: nat)
    requires IsRun(run, acts) && n < |run| && At(run[n], w).Loaded?
    ensures var pc := At(run[n], w);
            && i < n && acts[i] == Work(w, LoadSettings)
            && pc.m.intent.bot in run[i].db.settings && run[i].db.settings[pc.m.intent.bot] == pc.settings
            && forall t :: i <= t < n ==> !Pops(acts[t], w)
    decreases n
  {
    assert n > 0;
    i := n - 1;
    assert Step(run[i], acts[i], run[n]);
    if acts[i].Work? && acts[i].w == w {
      LoadedBy(run[i], w, acts[i].step);
    } else {
      StepLeavesOthers(run[i], acts[i], w);
      i := LoadedFromTable(run, acts, i, w);
    }
  }

  ghost predicate Backed(run: seq<State>, acts: seq<Action>, n: nat, w: WorkerId, i: nat, j: nat, m: Message, t: Ticket)
    requires |run| == |acts| + 1
  {
    && i < j < n <= |acts|
    && acts[i] == Work(w, LoadSettings) && acts[j] == Work(w, Judge(t.view))
    && m.intent.bot in run[i].db.settings && run[i].db.settings[m.intent.bot] == t.settings
    && forall u :: i <= u < n ==> !Pops(acts[u], w)
  }

  lemma {:induction false} TicketBacked(run: seq<State>, acts: seq<Action>, n: nat, w: WorkerId)
    returns (i: nat, j: nat)
    requires IsRun(run, acts) && n < |run|
    requires At(run[n], w).Cleared? || At(run[n], w).Holding? || At(run[n], w).Reserved?
    ensures Backed(run, acts, n, w, i, j, At(run[n], w).m, At(run[n], w).ticket)
    decreases n
  {
    assert n > 0;
    j := n - 1;
    assert Step(run[j], acts[j], run[n]);
    if acts[j].Work? && acts[j].w == w {
      if At(run[n], w).Cleared? {
        ClearedBy(run[j], w, acts[j].step);
        i := LoadedFromTable(run, acts, j, w);
      } else {
        ReservedBy(run[j], w, acts[j].step);
        i, j := TicketBacked(run, acts, j, w);
      }
    } else {
      StepLeavesOthers(run[j], acts[j], w);
      i, j := TicketBacked(run, acts, j, w);
    }
  }

  /**
   Every call of `execute` rests on a passing verdict of all six checkers, reached by the same worker for the
   same message on settings that it read from the table.
   */
  lemma ExecutionsRestOnFullPass(run: seq<State>, acts: seq<Action>, n: nat, k: IntentId) returns (i: nat, j: nat)
    requires IsRun(run, acts) && n < |acts| && Executes(run[n], acts[n], k)
    ensures var pc := At(run[n], acts[n].w);
            && Backed(run, acts, n, acts[n].w, i, j, pc.m, pc.ticket)
            && forall c: Checker :: Check(c, pc.m.intent, pc.ticket.settings, pc.ticket.view).Pass?
  {
    var w, pc := acts[n].w, At(run[n], acts[n].w);
    i, j := TicketBacked(run, acts, n, w);
    RunInv(run, acts, n);
    assert Passed(pc.m.intent, pc.ticket);
    EveryCheckerIsListed();
  }

  // ================================================================ auto-stop

  predicate Stopped(db: Db, b: BotId) {
    b in db.settings && db.settings[b].emergencyStop
  }

  /** The control plane stores settings for bot `b` that have the flag down. */
  predicate LowersStop(a: Action, b: BotId) {
    a.Env? && a.e.Configure? && a.e.bot == b && !a.e.settings.emergencyStop
  }

  lemma WorkerKeepsStop(s: State, w: WorkerId, step: WorkerStep, b: BotId)
    requires WorkerEnabled(s, w, step)
    ensures Stopped(s.db, b) ==> Stopped(ApplyWorker(s, w, step).db, b)
  {
  }

  lemma RaisingStops(s: State, w: WorkerId, b: BotId)
    requires At(s, w).Blocked? && At(s, w).m.intent.bot == b && b in s.db.settings
    ensures Stopped(DoRaiseFlag(s, w).db, b)
  {
  }

  lemma WorkerKeepsSettings(s: State, w: WorkerId, step: WorkerStep, b: BotId)
    requires WorkerEnabled(s, w, step) && b in s.db.settings
    ensures b in ApplyWorker(s, w, step).db.settings
  {
  }

  /** Settings are rewritten, never removed. */
  lemma StepKeepsSettings(s: State, a: Action, b: BotId)
    requires Enabled(s, a) && b in s.db.settings
    ensures b in Apply(s, a).db.settings
  {
    if a.Work? { WorkerKeepsSettings(s, a.w, a.step, b); }
  }

  lemma BlockedWasLoaded(s: State, w: WorkerId, step: WorkerStep)
    requires WorkerEnabled(s, w, step) && At(ApplyWorker(s, w, step), w).Blocked?
    ensures step.Judge? && At(s, w).Loaded? && At(s, w).m == At(ApplyWorker(s, w, step), w).m
  {
  }

  /** So a worker that has loaded settings, or was blocked by them, still finds the bot's settings stored. */
  lemma {:induction false} BlockedHasSettings(run: seq<State>, acts: seq<Action>, n: nat, w: WorkerId)
    requires IsRun(run, acts) && n < |run| && (At(run[n], w).Loaded? || At(run[n], w).Blocked?)
    ensures At(run[n], w).m.intent.bot in run[n].db.settings
    decreases n
  {
    assert n > 0;
    var s, a := run[n - 1], acts[n - 1];
    assert Step(s, a, run[n]);
    if a.Work? && a.w == w {
      if At(run[n], w).Loaded? {
        LoadedBy(s, w, a.step);
        StepKeepsSettings(s, a, At(run[n], w).m.intent.bot);
      } else {
        BlockedWasLoaded(s, w, a.step);
        BlockedHasSettings(run, acts, n - 1, w);
        StepKeepsSettings(s, a, At(run[n], w).m.intent.bot);
      }
    } else {
      StepLeavesOthers(s, a, w);
      BlockedHasSettings(run, acts, n - 1, w);
      StepKeepsSettings(s, a, At(run[n], w).m.intent.bot);
    }
  }

  lemma StepKeepsStop(s: State, a: Action, b: BotId)
    requires Enabled(s, a) && Stopped(s.db, b) && !LowersStop(a, b)
    ensures Stopped(Apply(s, a).db, b)
  {
    if a.Work? { WorkerKeepsStop(s, a.w, a.step, b); }
  }

  lemma StopOutlivesStep(run: seq<State>, acts: seq<Action>, t: nat, b: BotId)
    requires IsRun(run, acts) && t < |acts| && Stopped(run[t].db, b) && !LowersStop(acts[t], b)
    ensures Stopped(run[t + 1].db, b)
  {
    assert Step(run[t], acts[t], run[t + 1]);
    StepKeepsStop(run[t], acts[t], b);
  }

  lemma {:induction false} StopPersists(run: seq<State>, acts: seq<Action>, i: nat, j: nat, b: BotId)
    requires IsRun(run, acts) && i <= j < |run| && Stopped(run[i].db, b)
    requires forall t :: i <= t < j ==> !LowersStop(acts[t], b)
    ensures Stopped(run[j].db, b)
    decreases j - i
  {
    if i < j {
      StopPersists(run, acts, i, j - 1, b);
      StopOutlivesStep(run, acts, j - 1, b);
    }
  }

  /** A worker that has read a raised flag, up to the end of its run. */
  predicate Doomed(pc: Pc) {
    || pc.Idle? || pc.Finished?
    || (pc.Loaded? && pc.settings.emergencyStop)
    || (pc.Blocked? && pc.outcome == Reject(EmergencyStopActive))
  }

  lemma WorkerStaysDoomed(s: State, w: WorkerId, step: WorkerStep)
    requires WorkerEnabled(s, w, step) && Doomed(At(s, w)) && !step.Pop?
    ensures Doomed(At(ApplyWorker(s, w, step), w))
  {
    if step.Judge? {
      EmergencyStopComesFirst(At(s, w).m.intent, At(s, w).settings, step.view);
    }
  }

  lemma {:induction false} StaysDoomed(run: seq<State>, acts: seq<Action>, i: nat, j: nat, w: WorkerId)
    requires IsRun(run, acts) && i <= j < |run| && Doomed(At(run[i], w))
    requires forall t :: i <= t < j ==> !Pops(acts[t], w)
    ensures Doomed(At(run[j], w))
    decreases j - i
  {
    if i < j {
      StaysDoomed(run, acts, i, j - 1, w);
      var s, a := run[j - 1], acts[j - 1];
      assert Step(s, a, run[j]);
      if a.Work? && a.w == w { WorkerStaysDoomed(s, w, a.step); } else { StepLeavesOthers(s, a, w); }
    }
  }

  predicate Trades(step: WorkerStep) {
    step.Reserve? || step.CommitReservation? || step.Execute?
  }

  /**
   After an auto-stop raised the flag of bot `b` at step `i`, a worker that reads the settings of `b` at step `k`
   before the control plane lowers the flag reserves and executes nothing until it pops its next message, however
   often the settings are rewritten with the flag up.
   */
  lemma AutoStopPreventsTrades(
      run: seq<State>, acts: seq<Action>, i: nat, k: nat, j: nat, v: WorkerId, w: WorkerId, b: BotId)
    requires IsRun(run, acts) && i < k < j < |acts|
    requires acts[i] == Work(v, RaiseFlag) && At(run[i], v).Blocked? && At(run[i], v).m.intent.bot == b
    requires forall t :: i < t < k ==> !LowersStop(acts[t], b)
    requires acts[k] == Work(w, LoadSettings) && At(run[k], w).KnowsBot? && At(run[k], w).m.intent.bot == b
    requires forall t :: k < t < j ==> !Pops(acts[t], w)
    ensures !(acts[j].Work? && acts[j].w == w && Trades(acts[j].step))
  {
    assert Step(run[i], acts[i], run[i + 1]) && Step(run[k], acts[k], run[k + 1]) && Step(run[j], acts[j], run[j + 1]);
    BlockedHasSettings(run, acts, i, v);
    RaisingStops(run[i], v, b);
    StopPersists(run, acts, i + 1, k, b);
    assert Doomed(At(run[k + 1], w));
    StaysDoomed(run, acts, k + 1, j, w);
  }
}
