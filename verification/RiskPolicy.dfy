/** The control plane's risk settings: what the API lets through, merges and stores. */
module RiskPolicy {
  import opened Domain
  import opened RiskGate

  const MAX_POSITION_SIZE := 1.0
  const MAX_DAILY_LOSS := 5000.0
  const MAX_DRAWDOWN := 50.0
  const MAX_STOP_LOSS := 20.0
  const MAX_TAKE_PROFIT := 50.0
  const MAX_TRAILING_STOP := 10.0

  datatype Request = Request(
    maxPositionSize: Option<real>,
    maxDailyLoss: Option<real>,
    maxDrawdownPercent: Option<real>,
    stopLossPercent: Option<real>,
    takeProfitPercent: Option<real>,
    trailingStopPercent: Option<real>,
    emergencyStop: Option<bool>)

  datatype Field =
    | PositionSizeField | DailyLossField | DrawdownField | StopLossField | TakeProfitField | TrailingStopField

  datatype PolicyError = NotPositive(field: Field) | TooLarge(field: Field) | TargetNotAboveStop

  // ================================================================ one request

  function FieldError(field: Field, value: Option<real>, most: real): Option<PolicyError> {
    if value.None? then None
    else if value.value <= 0.0 then Some(NotPositive(field))
    else if value.value > most then Some(TooLarge(field))
    else None
  }

  /** `ValidateRiskUpdateRequest`: the first complaint, if any. */
  function FirstError(req: Request): Option<PolicyError> {
    var e1 := FieldError(PositionSizeField, req.maxPositionSize, MAX_POSITION_SIZE);
    var e2 := FieldError(DailyLossField, req.maxDailyLoss, MAX_DAILY_LOSS);
    var e3 := FieldError(DrawdownField, req.maxDrawdownPercent, MAX_DRAWDOWN);
    var e4 := FieldError(StopLossField, req.stopLossPercent, MAX_STOP_LOSS);
    var e5 := FieldError(TakeProfitField, req.takeProfitPercent, MAX_TAKE_PROFIT);
    var e6 := FieldError(TrailingStopField, req.trailingStopPercent, MAX_TRAILING_STOP);
    if e1.Some? then e1 else if e2.Some? then e2 else if e3.Some? then e3
    else if e4.Some? then e4 else if e5.Some? then e5 else if e6.Some? then e6
    else if req.stopLossPercent.Some? && req.takeProfitPercent.Some?
            && req.takeProfitPercent.value <= req.stopLossPercent.value then Some(TargetNotAboveStop)
    else None
  }

  predicate Between(value: Option<real>, most: real) {
    value.Some? ==> 0.0 < value.value <= most
  }

  /** What the API means to allow in the table. */
  predicate InRange(s: RiskSettings) {
    && Between(s.maxPositionSize, MAX_POSITION_SIZE) && Between(s.maxDailyLoss, MAX_DAILY_LOSS)
    && Between(s.maxDrawdownPercent, MAX_DRAWDOWN) && Between(s.stopLossPercent, MAX_STOP_LOSS)
    && Between(s.takeProfitPercent, MAX_TAKE_PROFIT) && Between(s.trailingStopPercent, MAX_TRAILING_STOP)
  }

  function Override<T>(current: T, change: Option<T>): T {
    if change.Some? then change.value else current
  }

  function OverrideLimit(current: Option<real>, change: Option<real>): Option<real> {
    if change.Some? then change else current
  }

  function Merged(s: RiskSettings, req: Request): RiskSettings {
    RiskSettings(
      OverrideLimit(s.maxPositionSize, req.maxPositionSize), OverrideLimit(s.maxDailyLoss, req.maxDailyLoss),
      OverrideLimit(s.maxDrawdownPercent, req.maxDrawdownPercent),
      OverrideLimit(s.stopLossPercent, req.stopLossPercent),
      OverrideLimit(s.takeProfitPercent, req.takeProfitPercent),
      OverrideLimit(s.trailingStopPercent, req.trailingStopPercent), Override(s.emergencyStop, req.emergencyStop))
  }

  /** Every value that the request names replaces the stored one; the others stay. */
  predicate Takes(m: RiskSettings, s: RiskSettings, req: Request) {
    && m.maxPositionSize == (if req.maxPositionSize == None then s.maxPositionSize else req.maxPositionSize)
    && m.maxDailyLoss == (if req.maxDailyLoss == None then s.maxDailyLoss else req.maxDailyLoss)
    && m.maxDrawdownPercent == (if req.maxDrawdownPercent == None then s.maxDrawdownPercent else req.maxDrawdownPercent)
    && m.stopLossPercent == (if req.stopLossPercent == None then s.stopLossPercent else req.stopLossPercent)
    && m.takeProfitPercent == (if req.takeProfitPercent == None then s.takeProfitPercent else req.takeProfitPercent)
    && m.trailingStopPercent
       == (if req.trailingStopPercent == None then s.trailingStopPercent else req.trailingStopPercent)
    && (m.emergencyStop <==> req.emergencyStop == Some(true) || (req.emergencyStop == None && s.emergencyStop))
  }

  const NO_SETTINGS := RiskSettings(None, None, None, None, None, None, false)

  /**
   A request passes exactly if its values alone would be settings in range and its target, if it names both, lies
   above its stop.
   */
  lemma RequestPassesIff(req: Request)
    ensures FirstError(req).None? <==>
              && InRange(Merged(NO_SETTINGS, req))
              && (req.stopLossPercent.Some? && req.takeProfitPercent.Some? ==>
                    req.takeProfitPercent.value > req.stopLossPercent.value)
  {
  }

  function ValueOf(req: Request, field: Field): Option<real> {
    match field
    case PositionSizeField => req.maxPositionSize
    case DailyLossField => req.maxDailyLoss
    case DrawdownField => req.maxDrawdownPercent
    case StopLossField => req.stopLossPercent
    case TakeProfitField => req.takeProfitPercent
    case TrailingStopField => req.trailingStopPercent
  }

  /** The most that the API lets a request ask for. */
  function Most(field: Field): real {
    match field
    case PositionSizeField => 1.0
    case DailyLossField => 5000.0
    case DrawdownField => 50.0
    case StopLossField => 20.0
    case TakeProfitField => 50.0
    case TrailingStopField => 10.0
  }

  function FieldRank(field: Field): nat {
    match field
    case PositionSizeField => 0
    case DailyLossField => 1
    case DrawdownField => 2
    case StopLossField => 3
    case TakeProfitField => 4
    case TrailingStopField => 5
  }

  /** The value of the field is one that the API lets through. */
  predicate Fits(req: Request, field: Field) {
    match ValueOf(req, field)
    case None => true
    case Some(value) => value > 0.0 && value <= Most(field)
  }

  /** What the complaint about a field says of it. */
  predicate Blames(e: PolicyError, req: Request, field: Field) {
    && ValueOf(req, field).Some?
    && (e == NotPositive(field) || e == TooLarge(field))
    && (e == NotPositive(field) ==> ValueOf(req, field).value <= 0.0)
    && (e == TooLarge(field) ==> ValueOf(req, field).value > Most(field))
  }

  lemma FieldErrorBlames(req: Request, field: Field)
    ensures var e := FieldError(field, ValueOf(req, field), Most(field));
            (e.None? <==> Fits(req, field)) && (e.Some? ==> Blames(e.value, req, field))
  {
  }

  /** The complaint is about the first field that does not fit and says what is wrong with it. */
  lemma FirstErrorIsFirst(req: Request)
    ensures match FirstError(req)
            case None => forall field :: Fits(req, field)
            case Some(TargetNotAboveStop) =>
              && (forall field :: Fits(req, field)) && req.stopLossPercent.Some? && req.takeProfitPercent.Some?
              && req.takeProfitPercent.value <= req.stopLossPercent.value
            case Some(e) =>
              Blames(e, req, e.field) && forall other :: FieldRank(other) < FieldRank(e.field) ==> Fits(req, other)
  {
    FieldErrorBlames(req, PositionSizeField);
    FieldErrorBlames(req, DailyLossField);
    FieldErrorBlames(req, DrawdownField);
    FieldErrorBlames(req, StopLossField);
    FieldErrorBlames(req, TakeProfitField);
    FieldErrorBlames(req, TrailingStopField);
  }

  /** Merging a request that passed keeps settings in range; merging it again changes nothing. */
  lemma MergeKeepsRange(s: RiskSettings, req: Request)
    requires InRange(s) && FirstError(req).None?
    ensures InRange(Merged(s, req)) && Takes(Merged(s, req), s, req)
    ensures Merged(Merged(s, req), req) == Merged(s, req)
  {
    RequestPassesIff(req);
  }

  /** The executor accepts all settings that the API allows. */
  lemma InRangeIsAcceptable(s: RiskSettings)
    requires InRange(s)
    ensures Acceptable(s)
  {
  }

  /** The four limits that `CreateBot` takes; drawdown and trailing stop start unset, the stop starts lowered. */
  datatype InitialLimits = InitialLimits(
    maxPositionSize: Option<real>,
    maxDailyLoss: Option<real>,
    stopLossPercent: Option<real>,
    takeProfitPercent: Option<real>)

  function AsRequest(limits: InitialLimits): Request {
    Request(
      limits.maxPositionSize, limits.maxDailyLoss, None, limits.stopLossPercent, limits.takeProfitPercent, None, None)
  }

  // ================================================================ any interleaving of calls

  type CallId = nat

  /** An update between its read and its write. */
  datatype Draft = Draft(bot: BotId, req: Request, copy: RiskSettings)

  datatype PolicyState = PolicyState(
    rows: map<BotId, RiskSettings>,
    owners: map<BotId, UserId>,
    drafts: map<CallId, Draft>)

  datatype PolicyStep =
    | Create(bot: BotId, user: UserId, limits: InitialLimits)
    | ReadForUpdate(call: CallId, bot: BotId, req: Request)
    | WriteUpdate(call: CallId, landed: bool)
    | SetStop(bot: BotId, stop: bool)       // toggle, or the executor's auto-stop
    | SetAllStops(user: UserId, stop: bool)

  function WithStops(rows: map<BotId, RiskSettings>, owners: map<BotId, UserId>, user: UserId, stop: bool)
    : map<BotId, RiskSettings>
  {
    map b | b in rows :: if b in owners && owners[b] == user then rows[b].(emergencyStop := stop) else rows[b]
  }

  function PolicyStepped(s: PolicyState, step: PolicyStep): PolicyState {
    match step
    case Create(bot, user, limits) =>
      if bot in s.rows || FirstError(AsRequest(limits)).Some? then s
      else s.(rows := s.rows[bot := Merged(NO_SETTINGS, AsRequest(limits))], owners := s.owners[bot := user])
    case ReadForUpdate(call, bot, req) =>
      if FirstError(req).Some? || bot !in s.rows || call in s.drafts then s
      else s.(drafts := s.drafts[call := Draft(bot, req, s.rows[bot])])
    case WriteUpdate(call, landed) =>
      if call !in s.drafts then s
      else
        var d := s.drafts[call];
        PolicyState(if landed && d.bot in s.rows then s.rows[d.bot := Merged(d.copy, d.req)] else s.rows,
                    s.owners, s.drafts - {call})
    case SetStop(bot, stop) =>
      if bot in s.rows then s.(rows := s.rows[bot := s.rows[bot].(emergencyStop := stop)]) else s
    case SetAllStops(user, stop) => s.(rows := WithStops(s.rows, s.owners, user, stop))
  }

  /** A new bot starts with the limits of its request, if they fit, and with no stop raised. */
  lemma CreateStoresLimits(s: PolicyState, bot: BotId, user: UserId, limits: InitialLimits)
    requires bot !in s.rows
    ensures var s' := PolicyStepped(s, Create(bot, user, limits));
            if FirstError(AsRequest(limits)).Some? then s' == s
            else
              && s'.rows == s.rows[bot := RiskSettings(limits.maxPositionSize, limits.maxDailyLoss, None,
                                                       limits.stopLossPercent, limits.takeProfitPercent, None, false)]
              && s'.owners == s.owners[bot := user] && s'.drafts == s.drafts
  {
  }

  predicate IsPolicyRun(run: seq<PolicyState>, steps: seq<PolicyStep>) {
    && |run| == |steps| + 1 && run[0] == PolicyState(map[], map[], map[])
    && forall i :: 0 <= i < |steps| ==> run[i + 1] == PolicyStepped(run[i], steps[i])
  }

  ghost predicate AllInRange(s: PolicyState) {
    && (forall b :: b in s.rows ==> InRange(s.rows[b]))
    && (forall c :: c in s.drafts ==>
          InRange(s.drafts[c].copy) && FirstError(s.drafts[c].req).None? && s.drafts[c].bot in s.rows)
  }

  lemma StepKeepsRange(s: PolicyState, step: PolicyStep)
    requires AllInRange(s)
    ensures AllInRange(PolicyStepped(s, step))
  {
    match step
    case Create(bot, user, limits) => RequestPassesIff(AsRequest(limits));
    case ReadForUpdate(call, bot, req) =>
    case WriteUpdate(call, landed) =>
      if call in s.drafts { MergeKeepsRange(s.drafts[call].copy, s.drafts[call].req); }
    case SetStop(bot, stop) =>
    case SetAllStops(user, stop) =>
  }

  lemma {:induction false} SettingsStayInRange(run: seq<PolicyState>, steps: seq<PolicyStep>, n: nat)
    requires IsPolicyRun(run, steps) && n < |run|
    ensures AllInRange(run[n])
  {
    if n > 0 {
      SettingsStayInRange(run, steps, n - 1);
      StepKeepsRange(run[n - 1], steps[n - 1]);
    }
  }

  /**
   Whatever creates, updates, toggles and auto-stops run in whatever order and overlap, no rejection of the executor
   ever blames a stored setting.
   */
  lemma StoredSettingsAreNeverBlamed(
      run: seq<PolicyState>, steps: seq<PolicyStep>, n: nat, b: BotId, intent: OrderIntent, view: RiskView)
    requires IsPolicyRun(run, steps) && n < |run| && b in run[n].rows
    ensures var r := Validate(intent, run[n].rows[b], view); r.Pass? || !r.reason.BlamesSetting()
  {
    SettingsStayInRange(run, steps, n);
    InRangeIsAcceptable(run[n].rows[b]);
    AcceptableSettingsAreNotBlamed(intent, run[n].rows[b], view);
  }

  /** Nor does any tightening of a stored row unblock an intent: the API stores none of the rows that allow it. */
  lemma StoredSettingsTightenSafely(run: seq<PolicyState>, steps: seq<PolicyStep>, n: nat, b: BotId)
    requires IsPolicyRun(run, steps) && n < |run| && b in run[n].rows
    ensures TighteningIsSafe(run[n].rows[b])
  {
    SettingsStayInRange(run, steps, n);
    InRangeIsAcceptable(run[n].rows[b]);
    TighteningIsSafeIff(run[n].rows[b]);
  }

  // ================================================================ when an update lowers a raised stop

  /** A draft holds the row as it was when its call read it. */
  lemma {:induction false} DraftWasRead(run: seq<PolicyState>, steps: seq<PolicyStep>, n: nat, c: CallId)
    returns (i: nat)
    requires IsPolicyRun(run, steps) && n < |run| && c in run[n].drafts
    ensures var d := run[n].drafts[c];
            i < n && steps[i] == ReadForUpdate(c, d.bot, d.req) && d.bot in run[i].rows && d.copy == run[i].rows[d.bot]
  {
    assert n > 0;
    i := n - 1;
    assert run[n] == PolicyStepped(run[i], steps[i]);
    if c in run[i].drafts {
      i := DraftWasRead(run, steps, i, c);
    }
  }

  /**
   An update that lands on a bot whose emergency stop is up lowers it exactly if it asks for that, or does not
   mention the stop and read the row while the stop was still down: a stop raised between the read and the write of
   an update that is about something else is lost.
   */
  lemma UpdateLowersStopIff(run: seq<PolicyState>, steps: seq<PolicyStep>, n: nat, c: CallId) returns (i: nat)
    requires IsPolicyRun(run, steps) && n < |steps| && steps[n] == WriteUpdate(c, true) && c in run[n].drafts
    ensures var d := run[n].drafts[c];
            && i < n && steps[i] == ReadForUpdate(c, d.bot, d.req)
            && d.bot in run[i].rows && d.bot in run[n].rows && d.bot in run[n + 1].rows
            && (run[n].rows[d.bot].emergencyStop ==>
                  (!run[n + 1].rows[d.bot].emergencyStop <==>
                     || d.req.emergencyStop == Some(false)
                     || (d.req.emergencyStop.None? && !run[i].rows[d.bot].emergencyStop)))
  {
    SettingsStayInRange(run, steps, n);
    i := DraftWasRead(run, steps, n, c);
    assert run[n + 1] == PolicyStepped(run[n], steps[n]);
  }

  /** It happens: a stop raised between the read and the write of an update of the stop loss is lost. */
  lemma StopCanBeLost() returns (run: seq<PolicyState>, steps: seq<PolicyStep>)
    ensures IsPolicyRun(run, steps) && |steps| == 4
    ensures steps[1].ReadForUpdate? && steps[1].req.emergencyStop.None? && steps[2] == SetStop(0, true)
    ensures steps[3] == WriteUpdate(steps[1].call, true)
    ensures 0 in run[3].rows && run[3].rows[0].emergencyStop && 0 in run[4].rows && !run[4].rows[0].emergencyStop
  {
    var req := Request(None, None, None, Some(5.0), None, None, None);
    steps := [Create(0, 0, InitialLimits(None, None, None, None)), ReadForUpdate(0, 0, req),
              SetStop(0, true), WriteUpdate(0, true)];
    var s0 := PolicyState(map[], map[], map[]);
    var s1 := PolicyStepped(s0, steps[0]);
    var s2 := PolicyStepped(s1, steps[1]);
    var s3 := PolicyStepped(s2, steps[2]);
    run := [s0, s1, s2, s3, PolicyStepped(s3, steps[3])];
    assert s2.drafts[0] == Draft(0, req, s1.rows[0]);
  }

  // ================================================================ the service, in place

  /** `MergeRiskSettings`: field by field on a copy. */
  method MergeSettings(current: RiskSettings, req: Request) returns (updated: RiskSettings)
    ensures updated == Merged(current, req) && Takes(updated, current, req)
  {
    updated := current;
    if req.maxPositionSize.Some? { updated := updated.(maxPositionSize := req.maxPositionSize); }
    if req.maxDailyLoss.Some? { updated := updated.(maxDailyLoss := req.maxDailyLoss); }
    if req.maxDrawdownPercent.Some? { updated := updated.(maxDrawdownPercent := req.maxDrawdownPercent); }
    if req.stopLossPercent.Some? { updated := updated.(stopLossPercent := req.stopLossPercent); }
    if req.takeProfitPercent.Some? { updated := updated.(takeProfitPercent := req.takeProfitPercent); }
    if req.trailingStopPercent.Some? { updated := updated.(trailingStopPercent := req.trailingStopPercent); }
    if req.emergencyStop.Some? { updated := updated.(emergencyStop := req.emergencyStop.value); }
  }

  class RiskService {
    var rows: map<BotId, RiskSettings>
    var owners: map<BotId, UserId>

    ghost function View(): PolicyState
      reads this
    {
      PolicyState(rows, owners, map[])
    }

    /** One call on its own is its read followed by its write. */
    method UpdateRiskSettings(bot: BotId, req: Request, landed: bool) returns (ok: bool)
      modifies this
      ensures View() == PolicyStepped(PolicyStepped(old(View()), ReadForUpdate(0, bot, req)), WriteUpdate(0, landed))
      ensures ok <==> FirstError(req).None? && bot in old(rows) && landed
      ensures !ok ==> rows == old(rows)
      ensures ok ==> rows == old(rows)[bot := rows[bot]] && Takes(rows[bot], old(rows)[bot], req)
    {
      ok := false;
      if FirstError(req).None? && bot in rows {
        var updated := MergeSettings(rows[bot], req);
        ok := landed;
        if ok { rows := rows[bot := updated]; }
      }
      if bot in old(rows) { assert map[0 := Draft(bot, req, old(rows)[bot])] - {0} == map[]; }
    }

    method ToggleEmergencyStop(bot: BotId, stop: bool, landed: bool) returns (ok: bool)
      modifies this
      ensures ok <==> bot in old(rows) && old(rows)[bot].emergencyStop != stop && landed
      ensures View() == if ok then PolicyStepped(old(View()), SetStop(bot, stop)) else old(View())
      ensures rows == if ok then old(rows)[bot := old(rows)[bot].(emergencyStop := stop)] else old(rows)
    {
      ok := bot in rows && rows[bot].emergencyStop != stop && landed;
      if ok { rows := rows[bot := rows[bot].(emergencyStop := stop)]; }
    }

    /** None stands for the empty user id. */
    method GlobalEmergencyStop(user: Option<UserId>, stop: bool, landed: bool) returns (ok: bool)
      modifies this
      ensures ok <==> user.Some? && landed
      ensures View() == if ok then PolicyStepped(old(View()), SetAllStops(user.value, stop)) else old(View())
      ensures rows.Keys == old(rows).Keys && owners == old(owners)
      ensures forall b :: b in rows ==>
                if ok && b in owners && owners[b] == user.value then rows[b] == old(rows)[b].(emergencyStop := stop)
                else rows[b] == old(rows)[b]
    {
      ok := user.Some? && landed;
      if ok {
        var todo := rows.Keys;
        while todo != {}
          invariant todo <= rows.Keys && rows.Keys == old(rows).Keys && owners == old(owners)
          invariant forall b :: b in rows ==>
                      rows[b] == if b in todo then old(rows)[b] else WithStops(old(rows), owners, user.value, stop)[b]
        {
          var b :| b in todo;
          todo := todo - {b};
          if b in owners && owners[b] == user.value { rows := rows[b := rows[b].(emergencyStop := stop)]; }
        }
        assert rows == WithStops(old(rows), owners, user.value, stop);
      }
    }
  }
}
