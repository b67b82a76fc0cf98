/** The scanner's producer side: a signal and its intent saved all or nothing, then pushed once more on a fast path. */
module Scanner {
  import opened Domain
  import opened Protocol
  import opened Paths
  import opened Sizing

  datatype Signal = Signal(id: nat, bot: BotId, side: Side, price: Option<real>)

  datatype SaveStatement = InsertSignal | InsertSignalEvent | InsertIntentEvent | CommitSignal

  /** The scanner's tables: signals, and the two kinds of outbox rows it writes. */
  class Store {
    var signals: seq<Signal>
    var signalEvents: map<RowId, Signal>
    var intentEvents: map<RowId, OrderIntent>

    /** `SaveSignalWithOutbox`: three inserts and a commit; the first failure rolls everything back. */
    method SaveSignalWithOutbox(
        signal: Signal, intent: OrderIntent, signalRow: RowId, intentRow: RowId, failing: set<SaveStatement>)
      returns (ok: bool)
      modifies this
      ensures ok <==> failing == {}
      ensures ok ==> signals == old(signals) + [signal] && signalEvents == old(signalEvents)[signalRow := signal]
                     && intentEvents == old(intentEvents)[intentRow := intent]
      ensures !ok ==> unchanged(this)
    {
      ok := false;
      var tx1, tx2, tx3 := signals, signalEvents, intentEvents;
      if InsertSignal in failing { return; }
      tx1 := tx1 + [signal];
      if InsertSignalEvent in failing { return; }
      tx2 := tx2[signalRow := signal];
      if InsertIntentEvent in failing { return; }
      tx3 := tx3[intentRow := intent];
      if CommitSignal in failing { return; }
      assert forall f: SaveStatement :: f !in failing by {
        forall f: SaveStatement ensures f !in failing {
          match f case InsertSignal => case InsertSignalEvent => case InsertIntentEvent => case CommitSignal =>
        }
      }
      signals, signalEvents, intentEvents := tx1, tx2, tx3;
      ok := true;
    }
  }

  class Queue {
    var messages: multiset<Message>

    method Push(m: Message)
      modifies this
      ensures messages == old(messages) + multiset{m}
    {
      messages := messages + multiset{m};
    }
  }

  /** What `generateSignal` does in terms of the protocol: nothing, or the saved row, then perhaps the raw push. */
  function GenerationSteps(intent: Option<OrderIntent>, row: RowId, saved: bool, pushed: bool): seq<Action> {
    if intent.None? || !saved then []
    else [Env(Generate(row, intent.value))] + if pushed then [Env(PushRaw(row))] else []
  }

  /**
   `generateSignal`: the raw message is pushed only after the intent's outbox row is committed, so the row's own
   delivery is a second one for the same intent, under another inbox id.
   */
  method GenerateSignal(
      store: Store, queue: Queue, signal: Signal, capital: real, config: Config, id: IntentId,
      signalRow: RowId, intentRow: RowId, failing: set<SaveStatement>, pushed: bool, ghost s0: State)
    returns (built: Option<OrderIntent>, ghost s: State)
    requires s0.db.sources == store.intentEvents && s0.queue == queue.messages && intentRow !in store.intentEvents
    modifies store, queue
    ensures built == BuildOrderIntent(id, signal.bot, capital, config, signal.side, signal.price)
    ensures Leads(s0, GenerationSteps(built, intentRow, failing == {}, pushed), s)
    ensures s.db.sources == store.intentEvents && s.queue == queue.messages
    ensures if built.Some? && failing == {} then
              && store.signals == old(store.signals) + [signal]
              && store.signalEvents == old(store.signalEvents)[signalRow := signal]
              && store.intentEvents == old(store.intentEvents)[intentRow := built.value]
            else
              && store.signals == old(store.signals) && store.signalEvents == old(store.signalEvents)
              && store.intentEvents == old(store.intentEvents)
    ensures queue.messages == old(queue.messages) +
              if built.Some? && failing == {} && pushed then multiset{Raw(built.value)} else multiset{}
  {
    built, s := BuildOrderIntent(id, signal.bot, capital, config, signal.side, signal.price), s0;
    LeadsNowhere(s0);
    if built.None? { return; }
    var intent := built.value;
    var saved := store.SaveSignalWithOutbox(signal, intent, signalRow, intentRow, failing);
    if !saved { return; }
    LeadsOneStep(s0, Env(Generate(intentRow, intent)));
    s := Apply(s0, Env(Generate(intentRow, intent)));
    if pushed {
      queue.Push(Raw(intent));
      LeadsOneStep(s, Env(PushRaw(intentRow)));
      LeadsOn(s0, [Env(Generate(intentRow, intent))], s, [Env(PushRaw(intentRow))], Apply(s, Env(PushRaw(intentRow))));
      s := Apply(s, Env(PushRaw(intentRow)));
    }
  }
}
