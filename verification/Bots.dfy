/** The bot lifecycle: the repository's transactions, the service's guarded calls, plan limits. */
module Bots {
  import opened Domain

  datatype BotStatus = Draft | PaperActive | LivePendingApproval | LiveActive | Paused | Stopped | Faulty

  datatype Bot = Bot(id: BotId, user: UserId, account: Option<string>, mode: BotMode, status: BotStatus)

  datatype Transition = Transition(bot: BotId, from: BotStatus, to: BotStatus)

  datatype StatusEventKind = BotActivatedEvent | BotPausedEvent | BotStoppedEvent | BotErrorEvent

  datatype StatusEvent = StatusEvent(kind: StatusEventKind, bot: BotId, user: UserId, from: BotStatus, to: BotStatus)

  /** The bots, the transition log and the status events in the outbox. */
  datatype BotTables = BotTables(bots: map<BotId, Bot>, log: seq<Transition>, events: seq<StatusEvent>)

  function EventKindFor(status: BotStatus): StatusEventKind {
    match status
    case Paused => BotPausedEvent
    case Stopped => BotStoppedEvent
    case Faulty => BotErrorEvent
    case _ => BotActivatedEvent
  }

  // ================================================================ the repository

  /** What one committed transaction of the repository does; statuses are whatever the caller decided on earlier. */
  datatype RepositoryStep = InsertBot(bot: Bot) | ChangeStatus(id: BotId, status: BotStatus)

  function StatusChanged(s: BotTables, id: BotId, status: BotStatus): BotTables
    requires id in s.bots
  {
    var bot := s.bots[id];
    BotTables(s.bots[id := bot.(status := status)],
              s.log + [Transition(id, bot.status, status)],
              s.events + [StatusEvent(EventKindFor(status), id, bot.user, bot.status, status)])
  }

  function RepositoryStepped(s: BotTables, step: RepositoryStep): BotTables {
    match step
    case InsertBot(bot) =>
      if bot.id in s.bots || !bot.status.Draft? then s else s.(bots := s.bots[bot.id := bot])
    case ChangeStatus(id, status) => if id in s.bots then StatusChanged(s, id, status) else s
  }

  /** The status of bot `b` after the logged transitions: draft, then wherever the last one led. */
  function StatusAfter(log: seq<Transition>, b: BotId): BotStatus {
    if log == [] then Draft
    else if log[|log| - 1].bot == b then log[|log| - 1].to
    else StatusAfter(log[..|log| - 1], b)
  }

  /** Each entry starts where the bot's previous entry ended. */
  ghost predicate IsChain(log: seq<Transition>) {
    forall i :: 0 <= i < |log| ==> log[i].from == StatusAfter(log[..i], log[i].bot)
  }

  predicate Announces(e: StatusEvent, t: Transition) {
    && e.bot == t.bot && e.from == t.from && e.to == t.to
    && (e.kind == BotPausedEvent <==> t.to == Paused)
    && (e.kind == BotStoppedEvent <==> t.to == Stopped)
    && (e.kind == BotErrorEvent <==> t.to == Faulty)
  }

  ghost predicate LogIsTrue(s: BotTables) {
    && IsChain(s.log)
    && (forall b :: b in s.bots ==> s.bots[b].id == b && s.bots[b].status == StatusAfter(s.log, b))
    && (forall i :: 0 <= i < |s.log| ==> s.log[i].bot in s.bots)
    && |s.events| == |s.log|
    && (forall i :: 0 <= i < |s.log| ==>
          Announces(s.events[i], s.log[i]) && s.events[i].user == s.bots[s.log[i].bot].user)
  }

  lemma {:induction false} UnloggedIsDraft(log: seq<Transition>, b: BotId)
    requires forall i :: 0 <= i < |log| ==> log[i].bot != b
    ensures StatusAfter(log, b) == Draft
  {
    if log != [] { UnloggedIsDraft(log[..|log| - 1], b); }
  }

  lemma OneMoreTransition(log: seq<Transition>, t: Transition)
    requires IsChain(log) && t.from == StatusAfter(log, t.bot)
    ensures IsChain(log + [t])
    ensures forall b :: StatusAfter(log + [t], b) == if b == t.bot then t.to else StatusAfter(log, b)
  {
    var log' := log + [t];
    assert log'[..|log|] == log;
    forall i | 0 <= i < |log'| ensures log'[i].from == StatusAfter(log'[..i], log'[i].bot) {
      if i < |log| { assert log'[..i] == log[..i]; }
    }
  }

  lemma ChangeKeepsLog(s: BotTables, id: BotId, status: BotStatus)
    requires LogIsTrue(s) && id in s.bots
    ensures LogIsTrue(StatusChanged(s, id, status))
  {
    var s' := StatusChanged(s, id, status);
    OneMoreTransition(s.log, s'.log[|s.log|]);
    forall i | 0 <= i < |s'.log|
      ensures Announces(s'.events[i], s'.log[i])
      ensures s'.log[i].bot in s'.bots && s'.events[i].user == s'.bots[s'.log[i].bot].user
    {
      if i < |s.log| { assert s'.log[i] == s.log[i] && s'.events[i] == s.events[i]; }
    }
  }

  lemma RepositoryKeepsLog(s: BotTables, step: RepositoryStep)
    requires LogIsTrue(s)
    ensures LogIsTrue(RepositoryStepped(s, step))
  {
    match step
    case InsertBot(bot) => if bot.id !in s.bots { UnloggedIsDraft(s.log, bot.id); }
    case ChangeStatus(id, status) => if id in s.bots { ChangeKeepsLog(s, id, status); }
  }

  const NO_BOTS := BotTables(map[], [], [])

  function AfterSteps(steps: seq<RepositoryStep>): BotTables {
    if steps == [] then NO_BOTS else RepositoryStepped(AfterSteps(steps[..|steps| - 1]), steps[|steps| - 1])
  }

  /**
   Whatever calls overlap, and whatever they decided on stale reads: each bot's log is a chain from draft to its
   current status, and the status events match the log entry by entry.
   */
  lemma {:induction false} LogIsAlwaysTrue(steps: seq<RepositoryStep>)
    ensures LogIsTrue(AfterSteps(steps))
  {
    if steps != [] {
      LogIsAlwaysTrue(steps[..|steps| - 1]);
      RepositoryKeepsLog(AfterSteps(steps[..|steps| - 1]), steps[|steps| - 1]);
    }
  }

  // ================================================================ plan limits

  datatype Plan = Plan(maxLive: int, maxPaper: int)

  /** What a plan lookup allows; None is a failed lookup, also when there is no subscription. */
  function Limit(plan: Option<Plan>, mode: BotMode): int {
    match mode
    case Live => if plan.Some? then plan.value.maxLive else 0
    case Paper => if plan.Some? then plan.value.maxPaper else 1
  }

  /** `CheckEntitlement`. */
  predicate Entitled(plan: Option<Plan>, mode: BotMode, count: nat) {
    if plan.None? then mode.Paper? && count < 1
    else if mode.Live? then count < plan.value.maxLive
    else count < plan.value.maxPaper
  }

  lemma EntitledIffBelowLimit(plan: Option<Plan>, mode: BotMode, count: nat)
    ensures Entitled(plan, mode, count) <==> count < Limit(plan, mode)
  {
  }

  /** The bots that a limit counts. */
  predicate CountsAs(b: Bot, mode: BotMode) {
    match mode
    case Paper => b.mode.Paper?
    case Live => b.status.LivePendingApproval? || b.status.LiveActive?
  }

  function Counted(bots: map<BotId, Bot>, user: UserId, mode: BotMode): set<BotId> {
    set b | b in bots && bots[b].user == user && CountsAs(bots[b], mode)
  }

  // ================================================================ the service, call by call

  /** A call, with what its plan lookup finds and whether its transaction commits. */
  datatype ServiceCall =
    | CreateBot(id: BotId, user: UserId, account: Option<string>, valid: bool, plan: Option<Plan>, landed: bool)
    | ActivatePaper(id: BotId, landed: bool)
    | RequestLive(user: UserId, id: BotId, plan: Option<Plan>, landed: bool)
    | PauseBot(id: BotId, landed: bool)
    | StopBot(id: BotId, landed: bool)

  predicate HasAccount(b: Bot) {
    b.account.Some? && b.account.value != ""
  }

  /** The guard of a call, all read before its transaction. */
  predicate Allowed(s: BotTables, call: ServiceCall) {
    match call
    case CreateBot(id, user, _, valid, plan, _) =>
      valid && id !in s.bots && Entitled(plan, Paper, |Counted(s.bots, user, Paper)|)
    case ActivatePaper(id, _) => id in s.bots && (s.bots[id].status.Draft? || s.bots[id].status.Paused?)
    case RequestLive(user, id, plan, _) =>
      && id in s.bots && s.bots[id].user == user && HasAccount(s.bots[id])
      && (s.bots[id].status.PaperActive? || s.bots[id].status.Paused?)
      && Entitled(plan, Live, |Counted(s.bots, user, Live)|)
    case PauseBot(id, _) => id in s.bots && (s.bots[id].status.PaperActive? || s.bots[id].status.LiveActive?)
    case StopBot(id, _) => id in s.bots && !s.bots[id].status.Stopped?
  }

  function StepOf(call: ServiceCall): RepositoryStep {
    match call
    case CreateBot(id, user, account, _, _, _) => InsertBot(Bot(id, user, account, Paper, Draft))
    case ActivatePaper(id, _) => ChangeStatus(id, PaperActive)
    case RequestLive(_, id, _, _) => ChangeStatus(id, LivePendingApproval)
    case PauseBot(id, _) => ChangeStatus(id, Paused)
    case StopBot(id, _) => ChangeStatus(id, Stopped)
  }

  function Called(s: BotTables, call: ServiceCall): BotTables {
    if Allowed(s, call) && call.landed then RepositoryStepped(s, StepOf(call)) else s
  }

  /** The tables after the calls, run one at a time. */
  function AfterCalls(calls: seq<ServiceCall>): BotTables {
    if calls == [] then NO_BOTS else Called(AfterCalls(calls[..|calls| - 1]), calls[|calls| - 1])
  }

  /** Calls run one at a time are a run of the repository, so their log is true as well. */
  lemma {:induction false} CallsKeepLog(calls: seq<ServiceCall>)
    ensures LogIsTrue(AfterCalls(calls))
  {
    if calls != [] {
      CallsKeepLog(calls[..|calls| - 1]);
      RepositoryKeepsLog(AfterCalls(calls[..|calls| - 1]), StepOf(calls[|calls| - 1]));
    }
  }

  // ---------------------------------------------------------------- lifecycle

  /** A stopped bot stays stopped. */
  lemma {:induction false} StoppedIsForGood(calls: seq<ServiceCall>, n: nat, b: BotId)
    requires n <= |calls| && b in AfterCalls(calls[..n]).bots && AfterCalls(calls[..n]).bots[b].status.Stopped?
    ensures b in AfterCalls(calls).bots && AfterCalls(calls).bots[b].status.Stopped?
    decreases |calls| - n
  {
    if n == |calls| {
      assert calls[..n] == calls;
    } else {
      assert calls[..n + 1][..n] == calls[..n];
      StoppedIsForGood(calls, n + 1, b);
    }
  }

  predicate Logged(log: seq<Transition>, b: BotId, to: BotStatus) {
    exists i :: 0 <= i < |log| && log[i].bot == b && log[i].to == to
  }

  /** Where the API alone can have brought a bot. */
  ghost predicate Lawful(s: BotTables) {
    forall b :: b in s.bots ==>
      var bot := s.bots[b];
      && bot.mode.Paper? && !bot.status.LiveActive? && !bot.status.Faulty?
      && (bot.status.Paused? || bot.status.LivePendingApproval? || bot.status.PaperActive? ==>
            Logged(s.log, b, PaperActive))
      && (bot.status.LivePendingApproval? ==> HasAccount(bot))
  }

  lemma LogGrows(s: BotTables, step: RepositoryStep, b: BotId, to: BotStatus)
    requires Logged(s.log, b, to)
    ensures Logged(RepositoryStepped(s, step).log, b, to)
  {
    var i :| 0 <= i < |s.log| && s.log[i].bot == b && s.log[i].to == to;
    assert RepositoryStepped(s, step).log[i] == s.log[i];
  }

  lemma CallKeepsLawful(s: BotTables, call: ServiceCall)
    requires Lawful(s)
    ensures Lawful(Called(s, call))
  {
    var s' := Called(s, call);
    forall b | b in s'.bots && Logged(s.log, b, PaperActive) ensures Logged(s'.log, b, PaperActive) {
      LogGrows(s, StepOf(call), b, PaperActive);
    }
    if s' != s && call.ActivatePaper? {
      assert s'.log[|s.log|] == Transition(call.id, s.bots[call.id].status, PaperActive);
    }
  }

  /**
   With calls run one at a time, a bot is pending live approval only if its log shows it as paper active earlier and
   it has an exchange account; live trading itself is out of the API's reach, and the mode stays paper.
   */
  lemma {:induction false} LivePendingIsEarned(calls: seq<ServiceCall>)
    ensures Lawful(AfterCalls(calls))
  {
    if calls != [] {
      LivePendingIsEarned(calls[..|calls| - 1]);
      CallKeepsLawful(AfterCalls(calls[..|calls| - 1]), calls[|calls| - 1]);
    }
  }

  // ---------------------------------------------------------------- limits

  function Max(a: int, b: int): int {
    if a > b then a else b
  }

  /** The plan lookup of a call that counts for `user` in `mode`. */
  predicate LooksUp(call: ServiceCall, user: UserId, mode: BotMode) {
    match mode
    case Paper => call.CreateBot? && call.user == user
    case Live => call.RequestLive? && call.user == user
  }

  /** The largest limit that any call so far found in force for the user, at least zero. */
  function LargestLimit(calls: seq<ServiceCall>, user: UserId, mode: BotMode): int {
    if calls == [] then 0
    else
      var before, call := LargestLimit(calls[..|calls| - 1], user, mode), calls[|calls| - 1];
      if LooksUp(call, user, mode) then Max(before, Limit(call.plan, mode)) else before
  }

  /** Two sets that differ in at most one element. */
  lemma CountsDiffer(before: set<BotId>, after: set<BotId>, x: BotId)
    requires forall c :: c != x ==> (c in after <==> c in before)
    ensures |after| == |before| + (if x in after then 1 else 0) - (if x in before then 1 else 0)
  {
    var others := before - {x};
    assert before == if x in before then others + {x} else others;
    assert after == if x in after then others + {x} else others;
  }

  /** Storing one bot adds at most that bot to a count, and nothing if it does not count or already did. */
  lemma GrowsByOne(bots: map<BotId, Bot>, b: Bot, user: UserId, mode: BotMode)
    ensures var before, after := Counted(bots, user, mode), Counted(bots[b.id := b], user, mode);
            if (b.user == user && CountsAs(b, mode)) && b.id !in before then |after| == |before| + 1
            else |after| <= |before|
  {
    CountsDiffer(Counted(bots, user, mode), Counted(bots[b.id := b], user, mode), b.id);
  }

  /** A call adds to a count only after its lookup found the count below the limit. */
  lemma CallRespectsLimit(s: BotTables, call: ServiceCall, user: UserId, mode: BotMode)
    requires forall b :: b in s.bots ==> s.bots[b].id == b
    ensures var before, after := |Counted(s.bots, user, mode)|, |Counted(Called(s, call).bots, user, mode)|;
            after <= before || (LooksUp(call, user, mode) && after <= Limit(call.plan, mode))
  {
    if Allowed(s, call) && call.landed {
      match StepOf(call)
      case InsertBot(bot) => GrowsByOne(s.bots, bot, user, mode);
      case ChangeStatus(id, status) => GrowsByOne(s.bots, s.bots[id].(status := status), user, mode);
    }
  }

  /**
   With calls run one at a time, a user's live-pending plus live-active bots never exceed the largest live limit found
   in force so far, and the user's paper bots never exceed the largest paper limit (1 when the lookup failed).
   */
  lemma {:induction false} LimitsHold(calls: seq<ServiceCall>, user: UserId, mode: BotMode)
    ensures |Counted(AfterCalls(calls).bots, user, mode)| <= LargestLimit(calls, user, mode)
  {
    if calls == [] {
      assert Counted(NO_BOTS.bots, user, mode) == {};
    } else {
      var before := calls[..|calls| - 1];
      LimitsHold(before, user, mode);
      CallsKeepLog(before);
      CallRespectsLimit(AfterCalls(before), calls[|calls| - 1], user, mode);
    }
  }

  function BotsOf(bots: map<BotId, Bot>, user: UserId): set<BotId> {
    set b | b in bots && bots[b].user == user
  }

  function PaperBots(bots: map<BotId, Bot>, user: UserId): set<BotId> {
    set b | b in bots && bots[b].user == user && bots[b].mode == Paper
  }

  /** Bots that trade live or wait for it. */
  function LiveBots(bots: map<BotId, Bot>, user: UserId): set<BotId> {
    set b | b in bots && bots[b].user == user && bots[b].status in {LivePendingApproval, LiveActive}
  }

  lemma CountedAre(bots: map<BotId, Bot>, user: UserId)
    ensures Counted(bots, user, Paper) == PaperBots(bots, user) && Counted(bots, user, Live) == LiveBots(bots, user)
  {
  }

  /** In plain terms. */
  lemma LimitsInPlainTerms(calls: seq<ServiceCall>, user: UserId)
    ensures |PaperBots(AfterCalls(calls).bots, user)| <= LargestLimit(calls, user, Paper)
    ensures |LiveBots(AfterCalls(calls).bots, user)| <= LargestLimit(calls, user, Live)
  {
    LimitsHold(calls, user, Paper);
    LimitsHold(calls, user, Live);
    CountedAre(AfterCalls(calls).bots, user);
  }

  /** All bots that the API created count as paper bots, so the paper limit is one on all the user's bots. */
  lemma PaperLimitCountsAll(calls: seq<ServiceCall>, user: UserId)
    ensures var bots := AfterCalls(calls).bots;
            |BotsOf(bots, user)| <= LargestLimit(calls, user, Paper)
  {
    LivePendingIsEarned(calls);
    LimitsHold(calls, user, Paper);
    var bots := AfterCalls(calls).bots;
    assert BotsOf(bots, user) == Counted(bots, user, Paper);
  }

  // ================================================================ in place

  /** `rows` lists the user's bots, each once. */
  ghost predicate IsListing(rows: seq<Bot>, bots: map<BotId, Bot>, user: UserId) {
    && (forall i :: 0 <= i < |rows| ==> rows[i].id in bots && bots[rows[i].id] == rows[i] && rows[i].user == user)
    && (forall i, j :: 0 <= i < j < |rows| ==> rows[i].id != rows[j].id)
    && (forall b :: b in bots && bots[b].user == user ==> bots[b] in rows)
  }

  function CountedIn(rows: seq<Bot>, mode: BotMode): set<BotId> {
    set i | 0 <= i < |rows| && CountsAs(rows[i], mode) :: rows[i].id
  }

  lemma ListingCounts(rows: seq<Bot>, bots: map<BotId, Bot>, user: UserId, mode: BotMode)
    requires IsListing(rows, bots, user) && forall b :: b in bots ==> bots[b].id == b
    ensures CountedIn(rows, mode) == Counted(bots, user, mode)
  {
    forall b | b in Counted(bots, user, mode) ensures b in CountedIn(rows, mode) {
      assert bots[b] in rows;
    }
  }

  /** The bot has the new status, log and events have one entry more, and all else is as before. */
  predicate StatusMoved(s: BotTables, s': BotTables, id: BotId, to: BotStatus) {
    && id in s.bots && s'.bots == s.bots[id := s.bots[id].(status := to)]
    && s'.log == s.log + [Transition(id, s.bots[id].status, to)]
    && |s'.events| == |s.events| + 1 && s.events <= s'.events
    && Announces(s'.events[|s.events|], s'.log[|s.log|]) && s'.events[|s.events|].user == s.bots[id].user
  }

  /** The call succeeds exactly if it may, and then moves the status; otherwise nothing happens. */
  predicate MovesIf(may: bool, ok: bool, s: BotTables, s': BotTables, id: BotId, to: BotStatus) {
    ok == may && if ok then StatusMoved(s, s', id, to) else s' == s
  }

  predicate HasStatus(s: BotTables, id: BotId, statuses: set<BotStatus>) {
    id in s.bots && s.bots[id].status in statuses
  }

  class Repository {
    var bots: map<BotId, Bot>
    var log: seq<Transition>
    var events: seq<StatusEvent>

    ghost function View(): BotTables
      reads this
    {
      BotTables(bots, log, events)
    }

    method InsertNew(bot: Bot, landed: bool) returns (ok: bool)
      requires bot.status.Draft?
      modifies this
      ensures ok == (landed && bot.id !in old(bots))
      ensures View() == if ok then RepositoryStepped(old(View()), InsertBot(bot)) else old(View())
      ensures bots == if ok then old(bots)[bot.id := bot] else old(bots)
    {
      ok := landed && bot.id !in bots;
      if ok { bots := bots[bot.id := bot]; }
    }

    /** Row, log entry and event in one transaction; the old status is read under the row's lock. */
    method UpdateBotStatus(id: BotId, status: BotStatus, landed: bool) returns (ok: bool)
      modifies this
      ensures ok == (landed && id in old(bots))
      ensures View() == if ok then RepositoryStepped(old(View()), ChangeStatus(id, status)) else old(View())
      ensures ok ==> StatusMoved(old(View()), View(), id, status)
    {
      ok := landed && id in bots;
      if ok {
        var previous := bots[id];
        bots := bots[id := previous.(status := status)];
        log := log + [Transition(id, previous.status, status)];
        events := events + [StatusEvent(EventKindFor(status), id, bots[id].user, previous.status, status)];
      }
    }

    method ListBotsByUserID(user: UserId) returns (rows: seq<Bot>)
      requires forall b :: b in bots ==> bots[b].id == b
      ensures IsListing(rows, bots, user)
    {
      rows := [];
      var todo := bots.Keys;
      while todo != {}
        invariant todo <= bots.Keys
        invariant forall i :: 0 <= i < |rows| ==>
                    rows[i].id in bots && rows[i].id !in todo && bots[rows[i].id] == rows[i] && rows[i].user == user
        invariant forall i, j :: 0 <= i < j < |rows| ==> rows[i].id != rows[j].id
        invariant forall b :: b in bots && b !in todo && bots[b].user == user ==> bots[b] in rows
      {
        var b :| b in todo;
        todo := todo - {b};
        if bots[b].user == user { rows := rows + [bots[b]]; }
      }
    }
  }

  lemma OneMoreCounted(rows: seq<Bot>, b: Bot, mode: BotMode)
    requires forall i :: 0 <= i < |rows| ==> rows[i].id != b.id
    ensures |CountedIn(rows + [b], mode)| == |CountedIn(rows, mode)| + if CountsAs(b, mode) then 1 else 0
  {
    var before, after := CountedIn(rows, mode), CountedIn(rows + [b], mode);
    assert b.id !in before;
    assert b.id in after <==> CountsAs(b, mode) by {
      assert (rows + [b])[|rows|] == b;
    }
    forall c | c != b.id ensures c in after <==> c in before {
      if c in before {
        var i :| 0 <= i < |rows| && CountsAs(rows[i], mode) && rows[i].id == c;
        assert (rows + [b])[i] == rows[i];
      }
    }
    CountsDiffer(before, after, b.id);
  }

  /** The counting loop of `CreateBot` and `RequestLiveActivation`. */
  method CountBots(rows: seq<Bot>, mode: BotMode) returns (count: nat)
    requires forall i, j :: 0 <= i < j < |rows| ==> rows[i].id != rows[j].id
    ensures count == |CountedIn(rows, mode)|
  {
    count := 0;
    var i := 0;
    assert CountedIn(rows[..0], mode) == {};
    while i < |rows|
      invariant i <= |rows| && count == |CountedIn(rows[..i], mode)|
    {
      OneMoreCounted(rows[..i], rows[i], mode);
      assert rows[..i + 1] == rows[..i] + [rows[i]];
      if CountsAs(rows[i], mode) { count := count + 1; }
      i := i + 1;
    }
    assert rows[..i] == rows;
  }

  class BotService {
    const repo: Repository

    constructor (repo: Repository)
      ensures this.repo == repo
    {
      this.repo := repo;
    }

    ghost predicate Valid()
      reads repo
    {
      forall b :: b in repo.bots ==> repo.bots[b].id == b
    }

    method CountFor(user: UserId, mode: BotMode) returns (count: nat)
      requires Valid()
      ensures count == |Counted(repo.bots, user, mode)|
    {
      var rows := repo.ListBotsByUserID(user);
      count := CountBots(rows, mode);
      ListingCounts(rows, repo.bots, user, mode);
    }

    /** `id` is a fresh id; `valid` says whether the request passes its validators. */
    method CreateBot(id: BotId, user: UserId, account: Option<string>, valid: bool, plan: Option<Plan>, landed: bool)
      returns (ok: bool)
      requires Valid()
      modifies repo
      ensures var call := ServiceCall.CreateBot(id, user, account, valid, plan, landed);
              repo.View() == Called(old(repo.View()), call) && ok == (Allowed(old(repo.View()), call) && landed)
      ensures var bots := old(repo.bots);
              var papers := |PaperBots(bots, user)|;
              var room := if plan.Some? then papers < plan.value.maxPaper else papers == 0;
              && ok == (valid && landed && id !in bots && room)
              && repo.View() == old(repo.View()).(bots := if ok then bots[id := Bot(id, user, account, Paper, Draft)]
                                                          else bots)
      ensures Valid()
    {
      ok := false;
      CountedAre(repo.bots, user);
      if !valid { return; }
      var count := CountFor(user, Paper);
      if !Entitled(plan, Paper, count) { return; }
      ok := repo.InsertNew(Bot(id, user, account, Paper, Draft), landed);
    }

    method ActivatePaper(id: BotId, landed: bool) returns (ok: bool)
      requires Valid()
      modifies repo
      ensures var call := ServiceCall.ActivatePaper(id, landed);
              repo.View() == Called(old(repo.View()), call) && ok == (Allowed(old(repo.View()), call) && landed)
      ensures MovesIf(landed && HasStatus(old(repo.View()), id, {Draft, Paused}), ok,
                      old(repo.View()), repo.View(), id, PaperActive)
      ensures Valid()
    {
      ok := false;
      if id !in repo.bots { return; }
      var bot := repo.bots[id];
      if bot.status != Draft && bot.status != Paused { return; }
      ok := repo.UpdateBotStatus(id, PaperActive, landed);
    }

    method RequestLiveActivation(user: UserId, id: BotId, plan: Option<Plan>, landed: bool) returns (ok: bool)
      requires Valid()
      modifies repo
      ensures var call := RequestLive(user, id, plan, landed);
              repo.View() == Called(old(repo.View()), call) && ok == (Allowed(old(repo.View()), call) && landed)
      ensures var bots := old(repo.bots);
              MovesIf(&& landed && HasStatus(old(repo.View()), id, {PaperActive, Paused}) && bots[id].user == user
                      && bots[id].account != None && bots[id].account != Some("")
                      && plan.Some? && |LiveBots(bots, user)| < plan.value.maxLive,
                      ok, old(repo.View()), repo.View(), id, LivePendingApproval)
      ensures Valid()
    {
      ok := false;
      CountedAre(repo.bots, user);
      if id !in repo.bots { return; }
      var bot := repo.bots[id];
      if bot.user != user || bot.account.None? || bot.account.value == "" { return; }
      if bot.status != PaperActive && bot.status != Paused { return; }
      var count := CountFor(user, Live);
      if !Entitled(plan, Live, count) { return; }
      ok := repo.UpdateBotStatus(id, LivePendingApproval, landed);
    }

    method PauseBot(id: BotId, landed: bool) returns (ok: bool)
      requires Valid()
      modifies repo
      ensures var call := ServiceCall.PauseBot(id, landed);
              repo.View() == Called(old(repo.View()), call) && ok == (Allowed(old(repo.View()), call) && landed)
      ensures MovesIf(landed && HasStatus(old(repo.View()), id, {PaperActive, LiveActive}), ok,
                      old(repo.View()), repo.View(), id, Paused)
      ensures Valid()
    {
      ok := false;
      if id !in repo.bots { return; }
      var bot := repo.bots[id];
      if bot.status != PaperActive && bot.status != LiveActive { return; }
      ok := repo.UpdateBotStatus(id, Paused, landed);
    }

    method StopBot(id: BotId, landed: bool) returns (ok: bool)
      requires Valid()
      modifies repo
      ensures var call := ServiceCall.StopBot(id, landed);
              repo.View() == Called(old(repo.View()), call) && ok == (Allowed(old(repo.View()), call) && landed)
      ensures MovesIf(landed && id in old(repo.bots) && old(repo.bots)[id].status != Stopped, ok,
                      old(repo.View()), repo.View(), id, Stopped)
      ensures Valid()
    {
      ok := false;
      if id !in repo.bots { return; }
      if repo.bots[id].status == Stopped { return; }
      ok := repo.UpdateBotStatus(id, Stopped, landed);
    }
  }
}
