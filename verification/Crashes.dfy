/**
 What a crash between the two commits leaves behind: exactly when it happens, and that it does. And what a status write
 of the reconciler that does not land leads to.
 */
module Crashes {
  import opened Domain
  import opened RiskGate
  import opened Protocol
  import opened ProtocolInvariant
  import opened ProtocolTheorems
  import opened ProtocolOrders
  import opened ProtocolFills
  import opened Paths

  /** Worker `w` gives up the order of `k` between reserving and settling it. */
  predicate Abandons(s: State, a: Action, k: IntentId) {
    a.Work? && a.step.Abort? && At(s, a.w).Owning() && At(s, a.w).order.intent == k
  }

  lemma AbandonedIsOrphaned(s: State, a: Action, k: IntentId)
    requires Inv(s) && Abandons(s, a, k)
    ensures Orphaned(Apply(s, a), k)
  {
    assert OwningOk(s.pcs[a.w], s.db.orders, s.hist.settledAs);
    forall v | v in Apply(s, a).pcs && Apply(s, a).pcs[v].Owning() ensures Apply(s, a).pcs[v].order.intent != k {
      assert v != a.w && s.pcs[v] == Apply(s, a).pcs[v];
    }
  }

  lemma ReservationHasOwner(s: State, w: WorkerId, k: IntentId)
    requires Inv(s) && At(s, w).Holding? && k !in s.db.orders && k in DoCommitReservation(s, w).db.orders
    ensures !Orphaned(DoCommitReservation(s, w), k)
  {
    var s' := DoCommitReservation(s, w);
    assert s'.pcs[w].Owning() && s'.pcs[w].order.intent == k;
  }

  lemma SettledStaySettled(s: State, a: Action, k: IntentId)
    requires Enabled(s, a) && k in s.hist.settledAs
    ensures k in Apply(s, a).hist.settledAs
  {
    if Is(a, CommitOutcome) {
      assert Apply(s, a) == DoCommitOutcome(s, a.w);
    } else {
      StepKeepsSettled(s, a);
    }
  }

  /** A worker that owns an order executes it, settles it or gives up. */
  lemma OwnerMoves(s: State, w: WorkerId, step: WorkerStep)
    requires WorkerEnabled(s, w, step) && At(s, w).Owning()
    ensures var s' := ApplyWorker(s, w, step);
            || step.Abort?
            || (At(s', w).Owning() && At(s', w).order.intent == At(s, w).order.intent)
            || At(s, w).order.intent in s'.hist.settledAs
  {
  }

  lemma OwnerLosesItByAbort(s: State, a: Action, w: WorkerId, k: IntentId)
    requires Inv(s) && Enabled(s, a) && At(s, w).Owning() && At(s, w).order.intent == k && Orphaned(Apply(s, a), k)
    ensures Abandons(s, a, k)
  {
    if a.Work? && a.w == w {
      OwnerMoves(s, w, a.step);
      assert OwningOk(s.pcs[w], s.db.orders, s.hist.settledAs);
    } else {
      StepLeavesOthers(s, a, w);
    }
  }

  /** An order becomes an orphan exactly when the worker that owns it gives up between the two commits. */
  lemma OrphanedIff(s: State, a: Action, k: IntentId)
    requires Inv(s) && Enabled(s, a) && !Orphaned(s, k)
    ensures Orphaned(Apply(s, a), k) <==> Abandons(s, a, k)
  {
    if Abandons(s, a, k) {
      AbandonedIsOrphaned(s, a, k);
    } else if Orphaned(Apply(s, a), k) {
      if k in s.hist.settledAs {
        SettledStaySettled(s, a, k);
      } else if k !in s.db.orders {
        NewRowsAreReserved(s, a, k);
        ReservationHasOwner(s, a.w, k);
      } else {
        var w :| w in s.pcs && s.pcs[w].Owning() && s.pcs[w].order.intent == k;
        OwnerLosesItByAbort(s, a, w, k);
      }
    }
  }

  // ================================================================ it happens

  const INTENT := OrderIntent(7, 0, Buy, 1.0, Some(100.0))
  const BOT := BotRow(Live, Some("exchange"), "BTCUSDT", false)
  const SETTINGS := RiskSettings(None, None, None, None, None, None, false)
  const VIEW := RiskView(None, None, None, None)
  const MESSAGE := Raw(INTENT)
  const TICKET := Ticket(BOT, SETTINGS, VIEW)

  /** A system with one bot and nothing done yet. */
  function Fresh(): State {
    State(Db(map[0 := BOT], map[0 := SETTINGS], map[], map[], map[], [], multiset{}, map[]),
          multiset{}, map[], Resting, 0,
          History([], map[], [], {}, multiset{}, multiset{}, multiset{}, multiset{}, []))
  }

  function WithPc(s: State, pc: Pc): State {
    Become(s, 1, pc)
  }

  /** The scanner saves and pushes the intent. */
  lemma Delivered() returns (s: State)
    ensures Leads(Fresh(), [Env(Generate(0, INTENT)), Env(PushRaw(0))], s)
    ensures s == Fresh().(db := Fresh().db.(sources := map[0 := INTENT]), queue := multiset{MESSAGE})
  {
    var s1 := Fresh().(db := Fresh().db.(sources := map[][0 := INTENT]));
    LeadsOneStep(Fresh(), Env(Generate(0, INTENT)));
    LeadsOneMore(Fresh(), [Env(Generate(0, INTENT))], s1, Env(PushRaw(0)));
    s := Apply(s1, Env(PushRaw(0)));
    assert [Env(Generate(0, INTENT))] + [Env(PushRaw(0))] == [Env(Generate(0, INTENT)), Env(PushRaw(0))];
  }

  /** A worker takes the message past the inbox. */
  lemma Taken(s: State) returns (acts: seq<Action>, s': State)
    requires s.queue == multiset{MESSAGE} && s.pcs == map[] && s.db.inbox == map[]
    ensures Leads(s, acts, s') && s' == WithPc(s.(queue := multiset{}), Unseen(MESSAGE))
  {
    var popped := WithPc(s.(queue := s.queue - multiset{MESSAGE}), Popped(MESSAGE));
    LeadsOneStep(s, Work(1, Pop(MESSAGE)));
    LeadsOneMore(s, [Work(1, Pop(MESSAGE))], popped, Work(1, CheckInbox));
    acts, s' := [Work(1, Pop(MESSAGE))] + [Work(1, CheckInbox)], DoCheckInbox(popped, 1);
    assert s'.pcs == map[1 := Unseen(MESSAGE)];
  }

  /** It reads the bot and the settings. */
  lemma Informed(s: State) returns (acts: seq<Action>, s': State)
    requires At(s, 1) == Unseen(MESSAGE) && s.pcs.Keys == {1}
    requires s.db.bots == map[0 := BOT] && s.db.settings == map[0 := SETTINGS]
    ensures Leads(s, acts, s') && s' == WithPc(s, Loaded(MESSAGE, BOT, SETTINGS))
  {
    var knowing := WithPc(s, KnowsBot(MESSAGE, BOT));
    LeadsOneStep(s, Work(1, LoadBot));
    LeadsOneMore(s, [Work(1, LoadBot)], knowing, Work(1, LoadSettings));
    acts, s' := [Work(1, LoadBot)] + [Work(1, LoadSettings)], DoLoadSettings(knowing, 1);
    assert s'.pcs == s.pcs[1 := Loaded(MESSAGE, BOT, SETTINGS)];
  }

  /** The checkers pass. */
  lemma Judged(s: State) returns (acts: seq<Action>, s': State)
    requires At(s, 1) == Loaded(MESSAGE, BOT, SETTINGS)
    ensures Leads(s, acts, s') && s' == WithPc(s, Cleared(MESSAGE, TICKET))
  {
    PassIsExact(INTENT, SETTINGS, VIEW);
    LeadsOneStep(s, Work(1, Judge(VIEW)));
    acts, s' := [Work(1, Judge(VIEW))], WithPc(s, Cleared(MESSAGE, TICKET));
  }

  const ORDER := NewOrder(0, INTENT, BOT)

  /** It reserves the order. */
  lemma ReservedIt(s: State) returns (acts: seq<Action>, s': State)
    requires At(s, 1) == Cleared(MESSAGE, TICKET) && s.pcs.Keys == {1} && s.db.orders == map[] && s.nextId == 0
    ensures Leads(s, acts, s') && s'.pcs == map[1 := Reserved(MESSAGE, TICKET, ORDER)]
    ensures s'.db.orders == map[7 := ORDER] && s'.hist == s.hist && s'.recon == s.recon
  {
    var holding := WithPc(s.(nextId := 1), Holding(MESSAGE, TICKET, ORDER));
    assert !KeyHeld(s, 7);
    LeadsOneStep(s, Work(1, Reserve));
    LeadsOneMore(s, [Work(1, Reserve)], holding, Work(1, CommitReservation));
    acts, s' := [Work(1, Reserve)] + [Work(1, CommitReservation)], DoCommitReservation(holding, 1);
  }

  /** From nothing to the reserved order. */
  lemma ReservedFromFresh() returns (acts: seq<Action>, s: State)
    ensures Leads(Fresh(), acts, s) && s.pcs == map[1 := Reserved(MESSAGE, TICKET, ORDER)]
    ensures s.db.orders == map[7 := ORDER] && s.hist == Fresh().hist && s.recon.Resting?
  {
    var s1 := Delivered();
    var acts1 := [Env(Generate(0, INTENT)), Env(PushRaw(0))];
    var acts2, s2 := Taken(s1);
    var acts3, s3 := Informed(s2);
    var acts4, s4 := Judged(s3);
    var acts5, s5 := ReservedIt(s4);
    LeadsOn(Fresh(), acts1, s1, acts2, s2);
    LeadsOn(Fresh(), acts1 + acts2, s2, acts3, s3);
    LeadsOn(Fresh(), acts1 + acts2 + acts3, s3, acts4, s4);
    LeadsOn(Fresh(), acts1 + acts2 + acts3 + acts4, s4, acts5, s5);
    acts, s := acts1 + acts2 + acts3 + acts4 + acts5, s5;
  }

  /** A run that ends with an orphaned order: the worker reserves it and dies before it settles it. */
  lemma OrphansHappen() returns (run: seq<State>, acts: seq<Action>, k: IntentId)
    ensures IsRun(run, acts) && Orphaned(run[|acts|], k)
  {
    var before, s := ReservedFromFresh();
    LeadsOneMore(Fresh(), before, s, Work(1, Abort));
    acts, k := [] + (before + [Work(1, Abort)]), INTENT.id;
    run := LeadsExtendsRun([Fresh()], [], before + [Work(1, Abort)], Become(s, 1, Idle));
  }

  // ================================================================ a fill that is added twice

  const PLACED := ORDER.(status := Submitted, exchangeId := Some("placed"))

  lemma OneRowUpdated()
    ensures UpdateReserved(map[7 := ORDER], PLACED) == map[7 := PLACED] && BuildExecution(PLACED) == None
    ensures AfterExecute(ORDER, Placed(Submitted, "placed")) == PLACED
  {
    assert UpdateReserved(map[7 := ORDER], PLACED).Keys == {7};
  }

  /** The exchange takes the order, and the worker settles it as submitted. */
  lemma SentOut(s: State) returns (acts: seq<Action>, s': State)
    requires s.pcs == map[1 := Reserved(MESSAGE, TICKET, ORDER)] && s.db.orders == map[7 := ORDER]
    ensures Leads(s, acts, s') && s'.db.orders == map[7 := PLACED] && s'.recon == s.recon
    ensures s'.hist.fills == s.hist.fills && s'.hist.moved == s.hist.moved
  {
    var answer := Placed(Submitted, "placed");
    var executed := DoExecute(s, 1, answer);
    OneRowUpdated();
    assert executed.db == s.db && At(executed, 1) == Executed(MESSAGE, PLACED, false);
    LeadsOneStep(s, Work(1, Execute(answer)));
    LeadsOneMore(s, [Work(1, Execute(answer))], executed, Work(1, CommitOutcome));
    acts, s' := [Work(1, Execute(answer))] + [Work(1, CommitOutcome)], DoCommitOutcome(executed, 1);
  }

  /** The reconciler finds the order filled at the exchange. */
  lemma FoundFilled(s: State) returns (acts: seq<Action>, s': State)
    requires s.recon.Resting? && s.db.orders == map[7 := PLACED]
    ensures Leads(s, acts, s') && s' == s.(recon := Writing(PLACED, Filled, []))
  {
    assert IsListingOf([PLACED], s.db.orders);
    assert AfterInspect(Looping([PLACED]), Some(Filled)) == Writing(PLACED, Filled, []);
    LeadsOneStep(s, Reconcile(Poll([PLACED])));
    LeadsOneMore(s, [Reconcile(Poll([PLACED]))], s.(recon := Looping([PLACED])), Reconcile(Inspect(Some(Filled))));
    acts := [Reconcile(Poll([PLACED]))] + [Reconcile(Inspect(Some(Filled)))];
    s' := s.(recon := Writing(PLACED, Filled, []));
  }

  /** It writes the status, which may land or not, and adds the fill to the position. */
  lemma AddedToPosition(s: State, landed: bool) returns (acts: seq<Action>, s': State)
    requires s.recon == Writing(PLACED, Filled, []) && s.db.orders == map[7 := PLACED]
    ensures Leads(s, acts, s') && s'.recon == Resting && s'.hist.fills == s.hist.fills + [PLACED]
    ensures s'.db.orders == map[7 := if landed then PLACED.(status := Filled) else PLACED]
    ensures s'.hist.moved[7] == s.hist.moved[7] + if landed then 1 else 0
  {
    var s1 := DoWriteStatus(s, landed);
    assert UpdateStatus(map[7 := PLACED], 0, Filled) == map[7 := PLACED.(status := Filled)];
    var s2 := DoWritePosition(s1, true);
    LeadsOneStep(s, Reconcile(WriteStatus(landed)));
    LeadsOneMore(s, [Reconcile(WriteStatus(landed))], s1, Reconcile(WritePosition(true)));
    acts := [Reconcile(WriteStatus(landed))] + [Reconcile(WritePosition(true))];
    LeadsOneMore(s, acts, s2, Reconcile(EndPass));
    acts, s' := acts + [Reconcile(EndPass)], DoEndPass(s2);
  }

  lemma TwoAreTwo(fills: seq<Order>)
    requires fills == [] + [PLACED] + [PLACED]
    ensures Intents(fills)[7] == 2
  {
    assert fills[..1] == [PLACED] && [PLACED][..0] == [];
    assert Intents([PLACED]) == multiset{} + multiset{7};
  }

  /**
   A run in which the status write of a fill does not land: the next pass finds the order open still, and adds the same
   fill to its position again.
   */
  lemma FillsAddedTwice() returns (run: seq<State>, acts: seq<Action>, k: IntentId)
    ensures IsRun(run, acts) && Moves(run, acts, |acts|, k) == 1 && Intents(run[|acts|].hist.fills)[k] == 2
  {
    var acts1, s1 := ReservedFromFresh();
    var acts2, s2 := SentOut(s1);
    var acts3, s3 := FoundFilled(s2);
    var acts4, s4 := AddedToPosition(s3, false);
    var acts5, s5 := FoundFilled(s4);
    var acts6, s6 := AddedToPosition(s5, true);
    LeadsOn(Fresh(), acts1, s1, acts2, s2);
    LeadsOn(Fresh(), acts1 + acts2, s2, acts3, s3);
    LeadsOn(Fresh(), acts1 + acts2 + acts3, s3, acts4, s4);
    LeadsOn(Fresh(), acts1 + acts2 + acts3 + acts4, s4, acts5, s5);
    LeadsOn(Fresh(), acts1 + acts2 + acts3 + acts4 + acts5, s5, acts6, s6);
    var all := acts1 + acts2 + acts3 + acts4 + acts5 + acts6;
    run := LeadsExtendsRun([Fresh()], [], all, s6);
    acts, k := [] + all, INTENT.id;
    MovedCountsMoves(run, acts, |acts|, k);
    TwoAreTwo(s6.hist.fills);
  }
}
