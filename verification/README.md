# Trading spine: model and proofs

This project models the path of a trade through the platform, from the scanner's order size to the position row, and
the services around it. It proves what holds over every run, however often a message is delivered and wherever a
process dies.

- `Domain`, `Protocol`: rows, messages and the intent execution protocol as a state machine. The shared database, a bag
  of queued messages, any number of workers and one reconciler take steps in any order. Each database statement that
  other connections can see is a step of its own; a worker can abort between any two steps, and the writes of an open
  transaction show only with its commit.
- `ProtocolInvariant`, `ProtocolTheorems`, `ProtocolOrders`, `ProtocolReports`, `ProtocolGate`, `ProtocolFills`: the
  inductive invariant and what it yields: at most one execution per intent, and for the order it asks for; rows,
  execution rows and events that say what the exchange answered; one writer per order row, final statuses, sound
  acknowledgement, trades only after a full pass, no trade after an auto-stop, each fill added once.
- `Crashes`: exactly when an order is left pending for good, a run in which one is, and a run in which a fill is added
  twice because a status write did not land.
- `Database`, `Paths`, `Executor`, `Workers`, `Reconciliation`, `Scanner`: the code itself over mutable tables, buffered
  transactions and mutable orders. Before each statement of `process_intent`, of its consumer and of the reconciler
  the rest of the system may take any steps of the protocol that are possible. Every method is proved to take steps of
  the protocol too, with every call of `execute` logged, and to leave the tables and that log as the protocol has them,
  whichever statement fails, so the theorems about runs hold of it.
- `Positions`, `TrailingStop`, `PositionHistory`, `PositionLedger`, `PositionStore`: the position rows
  between the reconciler's fills and the risk monitor, against rules on the whole price history and on all fills.
- `Outbox`, `OutboxRuns`, `OutboxHistory`: batches, bounded retries, 64-bit backoff, absence of starvation, and rows
  that tell what became of the attempts on their event.
- `Hub`: bounded client queues, removal on overflow, gapless streams.
- `Bots`, `RiskPolicy`, `RiskGate`, `Sizing`: bot lifecycle and plan limits, risk settings as the API keeps them, the
  checkers that read them, order sizing.

Results of queries to the exchange, risk queries, plan lookups, fresh ids, times, and which statements fail are
parameters of the steps and methods; nothing is assumed about them beyond what the contracts say. Amounts are reals.
Inbox ids of raw and enveloped deliveries are distinct by construction, as their UUIDs are in practice.

Where the code and its comments differ, the model follows the code. `update_bot_status` and `update_emergency_stop` run
outside the transaction that records the rejection, so they stay when it fails. An update of risk settings writes all
columns back, so it can undo an emergency stop raised since its read (`RiskPolicy.UpdateLowersStopIff`,
`RiskPolicy.StopCanBeLost`). A fill on an existing position adds its quantity whatever its side
(`PositionHistory.QuantityIsExposureIff`).

## Model

| member | source | states |
|---|---|---|
| ProtocolInvariant.StepKeepsInv | services/executor-rust/src/app.rs:46-281 | every step of every worker, of the reconciler and of the environment keeps the joint invariant of reservations, worker positions, order rows, snapshot, ledger, inbox and fills |
| ProtocolTheorems.RunInv | services/executor-rust/src/app.rs:46-281 | the invariant holds in every state of every run from an empty database |
| ProtocolTheorems.ExecutedAtMostOnce | services/executor-rust/src/app.rs:135-185 | no two steps of any run, with any number of workers, lost, repeated and doubled messages, aborts and crashes, call `execute` for the same intent |
| ProtocolTheorems.InboxCountsAcknowledgements | services/executor-rust/src/postgres/inbox.rs:15-47 | an inbox row exists exactly if its id was acknowledged, and its delivery attempts are the number of acknowledgements |
| ProtocolTheorems.InboxIgnoresOtherDelivery | services/executor-rust/src/redis/consumer.rs:117-143 | an envelope gets past the inbox exactly if no envelope of its outbox row was acknowledged, whatever happened to the raw message of the same intent |
| ProtocolTheorems.KnownMessagesAreDropped | services/executor-rust/src/redis/consumer.rs:117-134 | any delivery gets past the inbox exactly if its own id, that of the intent for a raw message and that of the outbox row for an envelope, was not acknowledged |
| ProtocolTheorems.OneWriterAtATime | services/executor-rust/src/postgres/orders.rs:119-184 | each change of an existing order row is either the one settlement by its reserving worker, while the row is as reserved, or a status write of the reconciler on a settled open row that it holds exactly as stored |
| ProtocolTheorems.SnapshotNeverStale | services/executor-rust/src/execution/reconciliation.rs:32-53 | every snapshot row with an exchange id still to be visited, and the row being written, equals the row in the table |
| ProtocolTheorems.TerminalOrdersAreFinal | services/executor-rust/src/postgres/orders.rs:145-162 | an order row that is filled, rejected, cancelled or failed is the same in every later state |
| ProtocolTheorems.DecisionsHaveSteps | services/executor-rust/src/app.rs:187-272 | an intent counts as decided only after a step that committed its rejection or its second transaction |
| ProtocolTheorems.FinishedByOwnStep | services/executor-rust/src/app.rs:156-272 | a worker that has finished a message got there by its own commit of the rejection, its own second commit, or its own read of the existing row as no longer pending, with no message taken since |
| ProtocolTheorems.AcknowledgementIsEarned | services/executor-rust/src/redis/consumer.rs:136-162 | every acknowledgement, of whichever delivery, follows such a conclusion by the same worker on the same message |
| ProtocolTheorems.AcknowledgedMeansDecided | services/executor-rust/src/redis/consumer.rs:136-162 | for every inbox id some worker acknowledged it, having concluded that same message in the same run of its loop, and an earlier step committed the rejection of its intent or the second transaction of its order |
| ProtocolTheorems.OnePassPerOrder | services/executor-rust/src/app.rs:80-179 | in every committed state an intent has one `risk.check.passed` event if its order row exists and none otherwise |
| ProtocolTheorems.OneExecutionPerOrder | services/executor-rust/src/app.rs:353-379 | each execution row belongs to a settled order that no other execution row belongs to, and its filled quantity is the order quantity or zero according to the status the second transaction wrote |
| ProtocolOrders.OrdersAreTrue | services/executor-rust/src/app.rs:113-133 | in every run the order in a worker hand, reserved or executed, has bot, side, quantity and price of its intent and the symbol of the bot that was read; each call of `execute` was for such an order, which is the row in the table; every row was asked for by a generated intent |
| ProtocolReports.SettledAsAnswered | services/executor-rust/src/app.rs:181-213 | the row settles with the status and exchange id that the exchange answered to the call of `execute`, as failed and without id if placing failed, and as filled on paper |
| ProtocolReports.ExecutionIff | services/executor-rust/src/app.rs:353-379 | a settled order has an execution row exactly if its settled status is final or a partial fill, and the row has order, price, quantity and execution status that belong to it |
| ProtocolReports.EventsMatchOrders | services/executor-rust/src/app.rs:283-345 | in every run each intent has exactly the events that its row and the status of its settlement call for, kind by kind |
| ProtocolReports.RefusalsAreTold | services/executor-rust/src/app.rs:236-272 | each committed rejection has its `risk.check.failed`; an intent row exists exactly for intents with an order or a rejection, and says which |
| ProtocolReports.RedeliveryEndsInOkIff | services/executor-rust/src/app.rs:156-171 | a delivery that finds the key taken ends in Ok exactly if the order has left pending |
| ProtocolTheorems.OrphansStayPending | services/executor-rust/src/app.rs:164-170 | an order whose worker died between the two commits stays pending for good, is never executed again and is never settled |
| Crashes.OrphanedIff | services/executor-rust/src/app.rs:179-187 | a step orphans an order exactly if it is the abort of the worker that reserved it, before its second commit |
| Crashes.OrphansHappen | services/executor-rust/src/app.rs:164-170 | a run that ends with such an order |
| Crashes.FillsAddedTwice | services/executor-rust/src/execution/reconciliation.rs:53-76 | a run in which the status write of a fill does not land, so that the next pass adds the same fill again: moved once, added twice |
| ProtocolGate.LoadedFromTable | services/executor-rust/src/app.rs:61-69 | settings that a worker holds were in the table at an earlier step at which it loaded them for the message it still works on |
| ProtocolGate.ExecutionsRestOnFullPass | services/executor-rust/src/app.rs:77-185 | every call of `execute` was preceded, in the same run of the same worker, by loading the stored settings and by a verdict for which all six checkers pass |
| ProtocolGate.StopPersists | services/executor-rust/src/postgres/risk.rs:30-43 | a raised emergency flag stays raised until the control plane stores settings of that bot with the flag down; rewrites that leave it up do not count |
| ProtocolGate.StaysDoomed | services/executor-rust/src/app.rs:61-78 | a worker that has read a raised flag neither passes the checkers nor reserves before it takes its next message |
| ProtocolGate.AutoStopPreventsTrades | services/executor-rust/src/app.rs:241-245 | after an auto-stop, a worker that reads the settings before the control plane lowers the flag, however often it rewrites other settings, reserves and executes nothing for that message |
| ProtocolFills.FillsAreTheOrders | services/executor-rust/src/execution/reconciliation.rs:101-125 | every order handed to a position is its own settled order row, up to the status |
| ProtocolFills.FillsBalance | services/executor-rust/src/execution/reconciliation.rs:53-76 | an order is moved to filled at most once, and its position writes that landed, were lost or are under way match its status writes of `filled` one for one, failures included |
| ProtocolFills.AddedExactlyOnce | services/executor-rust/src/execution/reconciliation.rs:62-76 | when the writes land, an order is added to its position once if it was moved to filled and not at all otherwise |
| PositionLedger.AddedOrdersWereMoved | services/executor-rust/src/execution/reconciliation.rs:62-76 | when the writes land, the orders added to one position are distinct order rows of its bot and symbol, each moved to filled once |
| PositionLedger.AddedIffMoved | services/executor-rust/src/execution/reconciliation.rs:62-76 | when the writes land, an order is among those added to a position exactly if its row has that bot and symbol and reconciliation moved it to filled |
| PositionLedger.PositionHoldsMovedOrders | services/executor-rust/src/postgres/positions.rs:70-76 | when the writes land, the orders added to a position are exactly those of its bot and symbol that reconciliation moved to filled, and it holds the latest of them: quantity is the sum of theirs, average times quantity the sum of quantity times own price, within any bounds on those prices; the side is that of the first order ever added |
| PositionLedger.FirstFillSetsSide | services/executor-rust/src/postgres/positions.rs:70-76 | a row exists once there was a fill and keeps the side of the first one |
| PositionStore.PositionTable.UpsertOnFill | services/executor-rust/src/postgres/positions.rs:41-90 | a new row has side, quantity and price of the order and its stop and target at the percentages of the settings; an existing one adds quantity and cost; it fails exactly if the quantities cancel out; no other row changes |
| PositionStore.UpsertGoesThrough | services/executor-rust/src/postgres/positions.rs:70-76 | the division is never by zero for an order with a positive quantity, if those added before had one |
| PositionStore.RowsHoldMovedOrders | services/executor-rust/src/postgres/positions.rs:70-76 | the same of every row of the table that the reconciler writes, with the risk monitor at work on it |
| RiskGate.FirstVerdict | services/executor-rust/src/risk/mod.rs:51-64 | the verdict is Pass exactly if every listed checker passes, and otherwise that of the first checker that does not |
| RiskGate.PassIsExact | services/executor-rust/src/risk/mod.rs:38-64 | the gate passes exactly on acceptable settings with no stop raised, a loss of today within its limit, a total loss within its share of the capital, and a position within its size; a query without an answer counts as zero |
| RiskGate.VerdictIsFirstReason | services/executor-rust/src/risk/mod.rs:38-64 | a verdict gives the first reason that holds, in the order emergency, daily loss, drawdown, size, stop, trailing, target; it stops the bot exactly for a loss or a drawdown |
| RiskGate.EmergencyStopComesFirst | services/executor-rust/src/risk/emergency_stop.rs:10-22 | with the flag raised the verdict is the emergency rejection, whatever the other checkers would say |
| RiskGate.AcceptableSettingsAreNotBlamed | services/executor-rust/src/risk/stop_loss.rs:16-31 | on acceptable settings no rejection blames a stored setting |
| RiskGate.TighteningNeverUnblocks | services/executor-rust/src/risk/drawdown.rs:16-69 | tightening any limits of acceptable settings never turns a blocked intent into a pass |
| RiskGate.TighteningIsSafeIff | services/executor-rust/src/risk/stop_loss.rs:16-31 | tightening never unblocks an intent exactly on acceptable settings and on settings beyond repair: stop raised, or a daily-loss, drawdown, stop, trailing or target value of at most zero |
| RiskGate.TighteningCanUnblock | services/executor-rust/src/risk/stop_loss.rs:16-31 | an input where it does: a stop loss of 150 percent lowered to 10, which the API never stores |
| Database.CommitsAreTheirStatements | services/executor-rust/src/app.rs:80-272 | executed statement by statement, each of the three transactions amounts to the commit step of the protocol |
| Database.Tables.SaveInboxEvent | services/executor-rust/src/postgres/inbox.rs:15-47 | inserts the inbox row or bumps its delivery attempts; nothing else changes |
| Database.Tables.UpdateEmergencyStop | services/executor-rust/src/postgres/risk.rs:30-43 | raises the flag in the row of that bot, if there is one, and changes nothing else |
| Database.Tables.UpdateBotStatus | services/executor-rust/src/postgres/bot.rs:27-38 | pauses that bot, if it exists, and changes nothing else |
| Database.Tables.GetOpenOrders | services/executor-rust/src/postgres/orders.rs:145-162 | every row that is pending, submitted, accepted or partially filled exactly once, and no other row |
| Database.Tables.UpdateOrderStatus | services/executor-rust/src/postgres/orders.rs:164-184 | the row with that id takes the status and keeps its exchange id; all else stays |
| Database.Transaction.Commit | services/executor-rust/src/app.rs:179 | only now do the buffered statements take effect, all of them and in order |
| Paths.LeadsExtendsRun | services/executor-rust/src/app.rs:46-281 | steps taken from a state that a run reaches continue that run, so the theorems about runs hold of what the methods do |
| Paths.MeanwhileLeads | services/executor-rust/src/app.rs:46-281 | whatever the others want to do meanwhile, what they do is a path of the protocol without steps of the actor |
| Executor.ExecuteOnPaper | services/executor-rust/src/execution/engine.rs:14-24 | one call of `execute` is logged; the order is filled with a paper exchange id |
| Executor.ExecuteLive | services/executor-rust/src/execution/engine.rs:40-69 | one call of `execute` is logged; the order takes status and exchange id of the answer, and is untouched if placing it fails |
| Executor.Yield | services/executor-rust/src/app.rs:46-281 | before a statement the others act; the worker stays where it is, and the tables and the logged calls of `execute` are as the protocol has them |
| Executor.ReadSettings | services/executor-rust/src/app.rs:51-69 | reads bot and settings, each as stored at that moment; without failures it returns nothing only if one of them is unknown |
| Executor.RunGate | services/executor-rust/src/app.rs:51-78 | additionally the verdict of the checkers on what was read |
| Executor.StopBot | services/executor-rust/src/app.rs:241-245 | flag, then pause, each visible at once; it stops in between if a statement fails |
| Executor.RecordRefusal | services/executor-rust/src/app.rs:236-272 | the rejection commits as one protocol step or the worker stays where it was |
| Executor.RefuseIntent | services/executor-rust/src/app.rs:229-272 | stop the bot if the outcome says so, then the rejection; Ok exactly if the worker ends as finished |
| Executor.OpenReservation | services/executor-rust/src/app.rs:80-135 | intent and pass event wait in the open transaction, whatever the others commit meanwhile; a bot without exchange ends the call |
| Executor.AwaitKey | services/executor-rust/src/app.rs:138-152 | the insert blocks while another open transaction holds the key and goes on once it is free, after any number of turns of the others |
| Executor.TryInsert | services/executor-rust/src/postgres/orders.rs:64-97 | the order has bot, side, quantity and price of the intent and the symbol of the bot, is pending without exchange id, and claims the key exactly if no row has it |
| Executor.InsertOrSkip | services/executor-rust/src/app.rs:135-177 | on a key that nobody else holds: without failures it reserves exactly a free key; on a taken one the existing row decides |
| Executor.SkipOrFail | services/executor-rust/src/app.rs:156-171 | on a taken key the call is Ok if the existing row has left pending, without failures exactly then, and else the worker drops the message |
| Executor.CommitReserving | services/executor-rust/src/app.rs:138-179 | the reservation commits as one protocol step or the key is still only held |
| Executor.ReserveOrder | services/executor-rust/src/app.rs:80-179 | the first transaction as protocol steps: reserved with the order that the intent asks for, already settled, failed, or still waiting for a key that is held when the turns of the others run out |
| Executor.ExecuteOrder | services/executor-rust/src/app.rs:182-185 | exactly one step and exactly one logged call of `execute`, for the order reserved: a paper order is filled under the paper id, a live one takes the answer of the exchange |
| Executor.OutcomeStatements | services/executor-rust/src/app.rs:187-223 | the statements of the second transaction are buffered in order while the others go on |
| Executor.Settle | services/executor-rust/src/app.rs:187-223 | the second transaction commits as one protocol step; after a failed execution it commits and the call still reports the error |
| Executor.TradeIntent | services/executor-rust/src/app.rs:80-228 | reserve, execute, settle by protocol steps, with the same four ends as the whole call; the logged calls of `execute` are those of the protocol at every point |
| Executor.ProcessIntent | services/executor-rust/src/app.rs:46-281 | whatever fails and whatever the others do between any two statements, the call takes steps of the protocol, only its own, and tables and calls of `execute` are as the protocol has them; Ok exactly if the worker ends as finished; without failures it goes on until then, until the message is dropped, until the worker is stuck, or while its insert waits, for any number of turns, for a key that is still held |
| Executor.CalledOncePerIntent | services/executor-rust/src/app.rs:135-185 | started from any reachable state, wherever the call has got to: the calls of `execute` actually made, by all workers, are for distinct intents, each for the order row in the table with bot, side, quantity and price of the intent and the symbol of the bot |
| Workers.ProcessMessage | services/executor-rust/src/redis/consumer.rs:143-162 | the message is acknowledged exactly if processing returned Ok and the inbox row is saved; tables and calls of `execute` stay those of the protocol |
| Workers.HandleMessage | services/executor-rust/src/redis/consumer.rs:117-163 | one message from inbox check to inbox row, others in between, is a path of the protocol with exactly its calls of `execute`, after which the worker rests or waits for a key; it is dropped exactly if the inbox knows it at the check |
| Reconciliation.MeanwhileKeepsSettled | services/executor-rust/src/execution/reconciliation.rs:32-99 | whatever the others do, settled rows, the snapshot and the fills stay as the reconciler left them |
| Reconciliation.WriteReported | services/executor-rust/src/execution/reconciliation.rs:53-65 | the status write of a changed order: the row is the snapshot row with the reported status, and no other settled row changes |
| Reconciliation.AddFill | services/executor-rust/src/execution/reconciliation.rs:66-125 | the settings are read and the position row upserted, whether or not the status write landed; the table then has this fill after the earlier ones and the row shows side, quantity and price of the order, with the stops of the settings when undisturbed; or the write is counted as declined, which with positive quantities takes missing settings |
| Reconciliation.ReconcileOrder | services/executor-rust/src/execution/reconciliation.rs:44-93 | one snapshot row as protocol steps, with the others acting before each statement and the position written exactly on a newly reported fill |
| Reconciliation.ReconcileRows | services/executor-rust/src/execution/reconciliation.rs:44-96 | after any number of rows the settled rows, the fills, the position table and the protocol state agree |
| Reconciliation.ReconcileOrders | services/executor-rust/src/execution/reconciliation.rs:32-99 | a whole pass from any reachable state, others and risk monitor in between: of the rows settled at the poll each open one with an exchange id has the reported status and no other has changed; the orders handed to positions are exactly those newly reported as filled, each once; with positive quantities a position declines one only if its bot has no settings; the position rows then have exactly the fills of the orders added; undisturbed, the tables differ in those statuses only |
| Scanner.Store.SaveSignalWithOutbox | services/scanner-go/internal/repository/repository.go:55-88 | signal and both outbox rows are saved, or nothing is, on any failing statement |
| Scanner.GenerateSignal | services/scanner-go/internal/scanner/scanner.go:103-153 | the raw message is pushed only after the outbox row of its intent is saved with the signal; in protocol terms nothing, a generation, or a generation and a raw push |
| Sizing.RoundDownIsGreatest | services/scanner-go/internal/scanner/order_intent.go:110-117 | rounding down gives the greatest multiple of 10^-precision not above the value |
| Sizing.RoundDownIsClose | services/scanner-go/internal/scanner/order_intent.go:110-117 | and falls short of the value by less than one step |
| Sizing.RoundingIsMonotone | services/scanner-go/internal/scanner/order_intent.go:110-117 | more digits never round to less |
| Sizing.FineThenCoarse | services/scanner-go/internal/scanner/order_intent.go:110-117 | rounding to a finer precision first makes no difference |
| Sizing.Precision | services/scanner-go/internal/scanner/order_intent.go:73-76 | the precision is between 0 and 12 for every configuration |
| Sizing.PrecisionIsConfigured | services/scanner-go/internal/scanner/order_intent.go:73-108 | it is the configured number without its fraction if that lies between 0 and 12, and 6 otherwise |
| Sizing.StepsAreDecimal | services/scanner-go/internal/scanner/order_intent.go:110-117 | a step is one unit in the last decimal place: 1 without digits, a tenth with each further digit, 0.000001 with 6 |
| Sizing.DerivedIsGreatestAffordable | services/scanner-go/internal/scanner/order_intent.go:52-82 | a derived quantity is positive, a multiple of the step of the configured precision, costs at most the configured share of the capital (1 percent by default) and the cap, and one step more is not affordable |
| Sizing.SizingFailsIff | services/scanner-go/internal/scanner/order_intent.go:52-82 | each error occurs exactly under its condition; the last one exactly if not even one step is affordable |
| Sizing.IntentCarriesSizing | services/scanner-go/internal/scanner/order_intent.go:19-50 | an intent is built exactly if there is a positive price, capital and one affordable step, and carries the price and the greatest affordable quantity |
| Positions.MonitoredPosition.Check | services/executor-rust/src/risk/monitor.rs:70-126 | pnl is value less cost, signed by side; on a new best price the stop is the tighter one of the old stop and the price moved back by the trailing percentage; the stop closes before the target, each when the price reaches it |
| Positions.PositionRow.UpsertOnFill | services/executor-rust/src/postgres/positions.rs:41-90 | a first fill opens a row with stop and target at their percentages from its price, below and above for a long, the reverse for a short; a later one adds quantity and cost; it fails exactly if the quantities cancel out |
| Positions.PositionRow.Poll | services/executor-rust/src/risk/monitor.rs:57-140 | one poll: marks and pnl of the checked copy are written back only on a new best price, a close zeroes quantity and pnl, and quantity, average and side are never written back |
| TrailingStop.HistoryStep | services/executor-rust/src/risk/monitor.rs:78-102 | the history-based mark and stop move with one more price exactly as the incremental ratchet does; the stop is the tighter one of the first stop and the best price moved back by the percentage |
| TrailingStop.StopHitIffDue | services/executor-rust/src/risk/monitor.rs:80-112 | for a long the last price hits the historic stop exactly if it is at or below the first stop, or at or below (100 - t) percent of the best price once that beat the mark; for a short the mirror image |
| TrailingStop.StopNeverLoosens | services/executor-rust/src/risk/monitor.rs:80-102 | the history-based stop never moves against the position |
| TrailingStop.VerdictMatchesHistory | services/executor-rust/src/risk/monitor.rs:104-136 | from any copy with the marks of the row the monitor closes at the stop exactly if the prices call for it, and at all exactly if they call for stop or target; the marks left behind are those of the history, and a failed write forgets the price |
| TrailingStop.WatchPrices | services/executor-rust/src/risk/monitor.rs:42-140 | polled with any prices, with fills landing between read and check and with writes that may fail, the monitor closes at exactly the first price at which the rule on the prices whose polls could write closes and the close lands |
| PositionHistory.RowsAreBanded | services/executor-rust/src/risk/monitor.rs:78-136 | in every reachable row and monitor copy stop < mark < target for longs and the reverse for shorts, over fills, changing percentages, closes and reopens |
| PositionHistory.StopAndTargetNeverBothHit | services/executor-rust/src/risk/monitor.rs:104-126 | no tick hits stop-loss and take-profit together, so their order does not matter |
| PositionHistory.CopyHasTheMarks | services/executor-rust/src/postgres/positions.rs:21-39 | the copy of the monitor always has the marks of the row, whatever fills came in between |
| PositionHistory.StopOnlyTightens | services/executor-rust/src/risk/monitor.rs:78-102 | once a row has a stop, no later event removes it or moves it against the position |
| PositionHistory.MeanIsBetween | services/executor-rust/src/postgres/positions.rs:70-76 | the incremental average weighs as much as its parts and lies between them |
| PositionHistory.RowMatchesFills | services/executor-rust/src/postgres/positions.rs:70-76 | whatever the monitor writes in between, quantity is the sum of the fills since the last zeroing, quantity x average the sum of quantity x price, and the average lies within any bounds on their prices |
| PositionHistory.CopyLagsByFillsSinceRead | services/executor-rust/src/risk/monitor.rs:42-55 | while the monitor holds a copy, the row is ahead of it by exactly the fills since the read |
| PositionHistory.CloseDropsFillsSinceRead | services/executor-rust/src/risk/monitor.rs:172-178 | a close zeroes the row, and the quantity it held beyond what was sold is exactly that of the fills since the copy was read |
| PositionHistory.CloseCanDropAFill | services/executor-rust/src/risk/monitor.rs:172-178 | a history in which a close drops a fill of quantity two unsold |
| PositionHistory.QuantityIsExposureIff | services/executor-rust/src/postgres/positions.rs:70-76 | the quantity of a row is the side-signed sum of its fills since the last zeroing exactly if they all have the side of the row |
| PositionHistory.OppositeFillsAddUp | services/executor-rust/src/postgres/positions.rs:70-76 | buying one and selling one leaves a row of quantity two |
| Outbox.BackoffOverflowsAfter31 | apps/api-go/internal/platform/outbox/processor.go:197-206 | the 64-bit nanosecond product is exact exactly up to attempt 31 |
| Outbox.DelayDoublesUpToCap | apps/api-go/internal/platform/outbox/processor.go:197-206 | up to attempt 31 the delay is 5 s doubled per attempt, capped at 5 min, and never outside that range |
| Outbox.DelayIsMonotone | apps/api-go/internal/platform/outbox/processor.go:197-206 | up to attempt 31 the delay never falls |
| Outbox.DelayCanBeNegative | apps/api-go/internal/platform/outbox/processor.go:197-206 | at attempt 32 the wrapped delay is negative |
| Outbox.BatchIsOldestDue | apps/api-go/internal/platform/outbox/processor.go:47-54 | a batch has at most 50 rows, all due, in creation order, and leaves a due row out only if 50 older ones are due |
| Outbox.Processor.FetchBatch | apps/api-go/internal/platform/outbox/processor.go:47-60 | the scan finds that batch |
| Outbox.Processor.MarkRetry | apps/api-go/internal/platform/outbox/processor.go:167-195 | the row counts one more failure and is rescheduled, or fails for good at the fifth |
| Outbox.Processor.ProcessEvents | apps/api-go/internal/platform/outbox/processor.go:46-100 | one poll attempts the rows of the batch in order, each with the retry count read with the batch; what that means for an event is OutboxHistory.RowsTellAttempts |
| OutboxRuns.RetriesAreBoundedAndSpaced | apps/api-go/internal/platform/outbox/processor.go:21-26 | in every run a pending event has fewer than 5 recorded failures, a failed one exactly 5, and it failed no sooner than 75 s after its first failure |
| OutboxHistory.RowsTellAttempts | apps/api-go/internal/platform/outbox/processor.go:78-97 | in every run the row of an event tells the attempts made on it: retry count, next retry at 5, 10, 20, 40 s after the last failure, the times of the first and the fifth failure, and that nothing follows a success |
| OutboxHistory.StatusSaysWhatHappened | apps/api-go/internal/platform/outbox/processor.go:83-97 | an event is processed exactly if one landed attempt was published, failed exactly after five landed attempts that were not, and its retry count is their number |
| OutboxRuns.NoStarvation | apps/api-go/internal/platform/outbox/processor.go:46-100 | when bookkeeping lands, an event with e older ones is passed over by at most e/10 polls |
| OutboxRuns.StepCosts | apps/api-go/internal/platform/outbox/processor.go:46-100 | a poll that passes an event over uses up 50 attempts of older events |
| Hub.StepKeepsConsistent | apps/api-go/internal/bus/hub.go:49-87 | clients are in the table exactly while their channel is open, queues stay within 256, no user has an empty entry |
| Hub.HubTreatsClientsAlone | apps/api-go/internal/bus/hub.go:49-87 | each step treats every client as if it were alone: the shared table never makes one client affect another |
| Hub.StreamsAreGapless | apps/api-go/internal/bus/hub.go:71-84 | in every run what a client received followed by its queue is exactly what was broadcast to its user since it registered, up to now or to the unregistration or full queue that ended its stream |
| Hub.OtherUsersUntouched | apps/api-go/internal/bus/hub.go:71-84 | a broadcast changes neither clients nor table entries of other users |
| Hub.Connection.TrySend | apps/api-go/internal/bus/client.go:40-47 | the send succeeds exactly if fewer than 256 messages are queued; it is never called on a closed channel |
| Hub.Connection.Close | apps/api-go/internal/bus/hub.go:59-63 | ends the stream; it is never called twice |
| Hub.Connection.WriteBatch | apps/api-go/internal/bus/client.go:78-98 | one write takes the first message and all that are queued behind it, in order |
| Hub.Hub.Register | apps/api-go/internal/bus/hub.go:52-57 | the registered state is that of the specified step |
| Hub.Hub.Unregister | apps/api-go/internal/bus/hub.go:59-69 | removal, close and removal of an empty user entry, and nothing on an unregistered client |
| Hub.Hub.Offer | apps/api-go/internal/bus/hub.go:73-82 | one client is offered the message, and closed and removed if it is full |
| Hub.Hub.Broadcast | apps/api-go/internal/bus/hub.go:71-84 | in whatever order the members are walked while they are removed, the result is that of offering to all at once |
| Bots.RepositoryKeepsLog | apps/api-go/internal/trading/bots/repository.go:99-148 | a committed transaction keeps the log a chain that matches the events and ends at the current status |
| Bots.LogIsAlwaysTrue | apps/api-go/internal/trading/bots/repository.go:99-148 | under any interleaving of calls each bot has a log that is a chain from draft to its current status and matches the status events entry by entry |
| Bots.EntitledIffBelowLimit | apps/api-go/internal/identity/subscription/service.go:21-46 | a call is entitled exactly if the count is below the limit in force: 1 paper bot and no live bot when the lookup fails |
| Bots.StoppedIsForGood | apps/api-go/internal/trading/bots/service.go:165-180 | with calls run one at a time a stopped bot stays stopped |
| Bots.LivePendingIsEarned | apps/api-go/internal/trading/bots/service.go:114-146 | a bot pending live approval was paper active earlier and has an exchange account; the API alone reaches neither live trading nor live mode |
| Bots.CallRespectsLimit | apps/api-go/internal/trading/bots/service.go:129-145 | a call adds to a count only if its own lookup allows the new count |
| Bots.LimitsHold | apps/api-go/internal/trading/bots/service.go:40-55 | live-pending plus live-active bots never exceed the largest live limit found so far, paper bots never the largest paper limit |
| Bots.LimitsInPlainTerms | apps/api-go/internal/trading/bots/service.go:40-55 | the same of the bots in paper mode, and of those that trade live or wait for it |
| Bots.PaperLimitCountsAll | apps/api-go/internal/trading/bots/service.go:40-55 | the paper limit bounds all bots of the user |
| Bots.Repository.InsertNew | apps/api-go/internal/trading/bots/repository.go:20-63 | inserts the draft, or nothing |
| Bots.Repository.UpdateBotStatus | apps/api-go/internal/trading/bots/repository.go:99-148 | row, log entry and event of the kind that belongs to the status together, with the old status as stored, or nothing |
| Bots.Repository.ListBotsByUserID | apps/api-go/internal/trading/bots/repository.go:150-177 | every bot of the user exactly once |
| Bots.CountBots | apps/api-go/internal/trading/bots/service.go:46-51 | the loop counts the bots that the limit counts |
| Bots.BotService.CreateBot | apps/api-go/internal/trading/bots/service.go:27-95 | succeeds exactly on a valid request with room below the paper limit (none yet if the lookup fails), and inserts a paper draft; otherwise nothing changes |
| Bots.BotService.ActivatePaper | apps/api-go/internal/trading/bots/service.go:97-112 | succeeds exactly from draft or paused, and the bot is paper active; otherwise nothing changes |
| Bots.BotService.RequestLiveActivation | apps/api-go/internal/trading/bots/service.go:114-146 | succeeds exactly for the owner, with an account, from paper active or paused, below the live limit of a plan, and the bot is pending live approval |
| Bots.BotService.PauseBot | apps/api-go/internal/trading/bots/service.go:148-163 | succeeds exactly from an active state, and the bot is paused |
| Bots.BotService.StopBot | apps/api-go/internal/trading/bots/service.go:165-180 | succeeds exactly on a bot that is not stopped, and the bot is stopped |
| RiskPolicy.RequestPassesIff | apps/api-go/internal/trading/risk/policy.go:31-91 | a request passes exactly if its values alone would be settings in range and its target, if it names both, lies above its stop |
| RiskPolicy.FirstErrorIsFirst | apps/api-go/internal/trading/risk/policy.go:31-91 | a complaint is about the first field that is not positive or above its bound, and says which; the target is compared with the stop last |
| RiskPolicy.CreateStoresLimits | apps/api-go/internal/trading/bots/service.go:27-84 | a new bot starts with the limits of its request, if they pass, without drawdown limit, trailing stop and emergency stop |
| RiskPolicy.MergeKeepsRange | apps/api-go/internal/trading/risk/policy.go:93-119 | merging a request that passed takes exactly the values it names and keeps settings in range; merging again changes nothing |
| RiskPolicy.InRangeIsAcceptable | apps/api-go/internal/trading/risk/policy.go:8-15 | the ranges of the API lie within what the executor accepts |
| RiskPolicy.SettingsStayInRange | apps/api-go/internal/trading/risk/service.go:21-37 | over any interleaving of creates, reads and writes of updates, toggles and auto-stops all stored settings are in range |
| RiskPolicy.StoredSettingsAreNeverBlamed | services/executor-rust/src/risk/stop_loss.rs:16-31 | so no rejection of the executor ever blames a stored setting |
| RiskPolicy.StoredSettingsTightenSafely | apps/api-go/internal/trading/risk/service.go:21-37 | on every row the API stores in any run, no tightening ever unblocks an intent |
| RiskPolicy.UpdateLowersStopIff | apps/api-go/internal/trading/risk/service.go:26-34 | an update that lands on a raised stop lowers it exactly if it asks for that, or says nothing of the stop and read the row while the stop was down |
| RiskPolicy.StopCanBeLost | apps/api-go/internal/trading/risk/service.go:26-34 | a run of four steps in which a stop raised between the read and the write of an unrelated update is lost |
| RiskPolicy.MergeSettings | apps/api-go/internal/trading/risk/policy.go:93-119 | the field-by-field copy takes exactly the values that the request names |
| RiskPolicy.RiskService.UpdateRiskSettings | apps/api-go/internal/trading/risk/service.go:21-37 | one call is its read followed by its write, succeeds exactly on a valid request for a stored row, and takes the values it names |
| RiskPolicy.RiskService.ToggleEmergencyStop | apps/api-go/internal/trading/risk/service.go:39-48 | succeeds exactly if the row exists and the stop changes, and changes the stop only |
| RiskPolicy.RiskService.GlobalEmergencyStop | apps/api-go/internal/trading/risk/service.go:50-55 | sets the stop of exactly the bots of the user and changes nothing else |

## Left out

- Exchange adapters, HTTP handlers, Redis and Postgres clients, JSON, metrics, logging, encryption, the AI agent, the Telegram bot and the user interface: input and output, or thin wrappers.
- Floating point and NUMERIC rounding: prices, quantities and percentages are reals.
- Exactly-once execution: it does not hold; `ProtocolTheorems.OrphansStayPending` says what happens instead.
- That an intent stays validated once its order exists: it does not hold, a redelivery whose risk check fails rewrites the intent row.
- That each position is closed once: `close_position` executes before it saves, and its made-up intent id has no row in `order_intents`; the model has the zeroing of the row, which may fail, but not the closing order.
- That positions equal all fills: fills reported at once by `execute`, paper fills among them, never reach the position table; the position theorems are about fills found by reconciliation.
- A take-profit above the stop-loss percentage in stored settings: it is checked inside one request only, so a partial update can break it.
- Lifecycle legality under overlapping calls, or with the executor's unlogged status write: the guards are read outside the transaction; only the log theorem covers overlapping calls.
- A second reconciler: one is deployed; with two, a snapshot can be stale.
- Row locks on the intent row: the machine lets more interleavings happen than the database does; only the wait on a taken idempotency key is modelled.
- Executor.AwaitKey: that the key gets free; the method goes on for as many turns of the others as it is given.
- Interruptions of the scanner: `Scanner.GenerateSignal` runs against tables that nobody else changes between its save and its push.
- The loop of `monitor_positions` over all positions: each check reads and writes its own row only, so the model follows one row.
- Outbox rows that fail to scan are skipped like attempts whose bookkeeping does not land.
- TrailingStop.HistoryStep: for longs with a trailing percentage of at most 100 and shorts with one of at least -100; beyond that the factor is negative and the best price gives the worst stop. For shorts no price is zero, because a mark of zero counts as none.
- PositionHistory.RowMatchesFills: for fills of positive quantity, as every sized intent has (`Sizing.IntentCarriesSizing`); prices and percentages may be anything.
- PositionLedger.PositionHoldsMovedOrders: when the reconciler's writes land; `ProtocolFills.FillsBalance` says what is lost and doubled when they do not, and `Crashes.FillsAddedTwice` is a run with a doubled fill.
- OutboxRuns.NoStarvation: when the bookkeeping writes land; an event whose writes never land can hold its place in every batch.
- Bots.LimitsHold: for calls run one at a time; the count and the insert are separate transactions.
- Creation of intents by anything but the scanner, cancelling orders, the event consumer that only logs: no state of the model depends on them.
- Validation of names and lengths when a bot is created: one flag of the call.
- Conversion of huge floating-point configuration values to integers: the target's behaviour is not portable; the model truncates.
