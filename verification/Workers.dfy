/** The loop around `process_intent`: one message of the intent consumer. */
module Workers {
  import opened Domain
  import opened Protocol
  import opened Database
  import opened Executor
  import opened Paths

  /** What became of a popped message. */
  datatype Handling =
    | CheckFailed    // the inbox could not be read
    | KnownAlready   // the inbox has it
    | Acked
    | LeftUnsaved    // not processed, or the inbox row could not be saved
    | StillWaiting   // its insert waits for the key

  /** All that happens: others first, the inbox check, the call with the others in between, and the last step. */
  function ActsOf(h: Handling, w: WorkerId, before: seq<Action>, called: seq<Action>): seq<Action> {
    match h
    case CheckFailed => before + [Work(w, Abort)]
    case KnownAlready => before + [Work(w, CheckInbox)]
    case Acked => before + [Work(w, CheckInbox)] + called + [Work(w, Acknowledge)]
    case LeftUnsaved => before + [Work(w, CheckInbox)] + called + [Work(w, Abort)]
    case StillWaiting => before + [Work(w, CheckInbox)] + called
  }

  /** How the message ends after a call that led from `t.start` to `t.now`. */
  ghost predicate EndsWell(h: Handling, t: Trace, m: Message, world: World, s: State) {
    match h
    case Acked => t.Pc() == Finished(m) && s == DoAcknowledge(t.now, t.w)
    case LeftUnsaved =>
      && s == Become(t.now, t.w, Idle)
      && (t.Pc() == Finished(m) ==> SaveInInbox in world.failing)
      && (world.failing == {} ==> t.Pc().Idle? || Stuck(t.now, t.w))
    case StillWaiting => s == t.now && t.Pc().Cleared? && KeyHeld(s, m.intent.id)
    case _ => false
  }

  /** A message that the inbox does not know: process it, and acknowledge it if that returned Ok. */
  method ProcessMessage(tables: Tables, m: Message, world: World, t: Trace) returns (h: Handling, t': Trace, s: State)
    requires OnTrack(t, tables.View(), tables.calls, world) && t.Pc() == Unseen(m)
    modifies tables
    ensures SameCall(t, t') && OnTrack(t', t'.now.db, t'.now.hist.calls, world) && EndsWell(h, t', m, world, s)
    ensures s.db == tables.View() && s.hist.calls == tables.calls && (h.Acked? ==> InboxIdOf(m) in tables.inbox)
  {
    var ending;
    ending, t' := ProcessIntent(tables, m, world, t);
    match ending
    case Waiting => h, s := StillWaiting, t'.now;
    case Errored => h, s := LeftUnsaved, Become(t'.now, t.w, Idle);
    case Succeeded =>
      t' := Yield(tables, t', world, SaveInInbox);
      if SaveInInbox in world.failing {
        h, s := LeftUnsaved, Become(t'.now, t.w, Idle);
      } else {
        tables.SaveInboxEvent(InboxIdOf(m));
        h, s := Acked, DoAcknowledge(t'.now, t.w);
      }
  }

  lemma LastStep(h: Handling, t: Trace, m: Message, world: World, s: State)
    requires EndsWell(h, t, m, world, s) && Leads(t.start, t.acts, t.now)
    ensures Leads(t.start, ActsOf(h, t.w, [], t.acts)[1..], s)
  {
    var acts := ActsOf(h, t.w, [], t.acts)[1..];
    match h
    case Acked =>
      LeadsOneMore(t.start, t.acts, t.now, Work(t.w, Acknowledge));
      assert acts == t.acts + [Work(t.w, Acknowledge)];
    case LeftUnsaved =>
      LeadsOneMore(t.start, t.acts, t.now, Work(t.w, Abort));
      assert acts == t.acts + [Work(t.w, Abort)];
    case StillWaiting =>
      assert acts == t.acts;
  }

  lemma WholeMessage(
      s0: State, before: seq<Action>, s1: State, h: Handling, t: Trace, m: Message, world: World, s: State)
    requires Leads(s0, before, s1) && At(s1, t.w).Popped? && t.start == DoCheckInbox(s1, t.w)
    requires EndsWell(h, t, m, world, s) && Leads(t.start, t.acts, t.now)
    ensures Leads(s0, ActsOf(h, t.w, before, t.acts), s)
  {
    var check, rest := Work(t.w, CheckInbox), ActsOf(h, t.w, [], t.acts)[1..];
    LeadsOneMore(s0, before, s1, check);
    LastStep(h, t, m, world, s);
    LeadsOn(s0, before + [check], t.start, rest, s);
    assert ActsOf(h, t.w, before, t.acts) == before + [check] + rest;
  }

  /**
   One message, from the inbox check to the inbox row, whatever fails and whatever the others do in between. The worker
   takes steps of the protocol until it rests or waits for a key, and the tables are as the protocol has them. A known
   message is dropped at once; an unknown one is acknowledged exactly if the call returned Ok and the row is saved.
   */
  method HandleMessage(tables: Tables, m: Message, world: World, w: WorkerId, s0: State)
    returns (h: Handling, before: seq<Action>, t: Trace, s: State)
    requires s0.db == tables.View() && s0.hist.calls == tables.calls && At(s0, w) == Popped(m)
    modifies tables
    ensures Leads(s0, ActsOf(h, w, before, t.acts), s) && s.db == tables.View() && s.hist.calls == tables.calls
    ensures NoneOwn(Worker(w), before) && t.w == w && OwnOfCall(t.acts, w, world)
    ensures h.StillWaiting? || At(s, w).Idle?
    ensures h.CheckFailed? <==> IsInInbox in world.failing
    ensures h.KnownAlready? ==> InboxIdOf(m) in tables.inbox
    ensures var atCheck := Meanwhile(s0, Worker(w), world.others(IsInInbox)).db.inbox;
            h.KnownAlready? <==> IsInInbox !in world.failing && InboxIdOf(m) in atCheck
    ensures !h.CheckFailed? && !h.KnownAlready? ==> At(t.start, w) == Unseen(m) && EndsWell(h, t, m, world, s)
    ensures h.Acked? ==> InboxIdOf(m) in tables.inbox
  {
    before, t := Happened(s0, Worker(w), world.others(IsInInbox)), Trace(s0, w, [], s0);
    LeadsNowhere(s0);
    MeanwhileLeads(s0, Worker(w), world.others(IsInInbox));
    MeanwhileKeepsPc(s0, w, world.others(IsInInbox));
    s := Meanwhile(s0, Worker(w), world.others(IsInInbox));
    tables.Become(s.db, s.hist.calls);
    if IsInInbox in world.failing {
      LeadsOneMore(s0, before, s, Work(w, Abort));
      h, s := CheckFailed, Become(s, w, Idle);
      return;
    }
    var known := tables.IsProcessed(InboxIdOf(m));
    ghost var s1 := s;
    s := DoCheckInbox(s, w);
    if known {
      h := KnownAlready;
      LeadsOneMore(s0, before, s1, Work(w, CheckInbox));
    } else {
      LeadsNowhere(s);
      h, t, s := ProcessMessage(tables, m, world, Trace(s, w, [], s));
      WholeMessage(s0, before, s1, h, t, m, world, s);
    }
  }
}
