/** The executor's pre-trade gate: six checkers run in a fixed order, first non-pass wins. */
module RiskGate {
  import opened Domain

  datatype RiskSettings = RiskSettings(
    maxPositionSize: Option<real>,
    maxDailyLoss: Option<real>,
    maxDrawdownPercent: Option<real>,
    stopLossPercent: Option<real>,
    takeProfitPercent: Option<real>,
    trailingStopPercent: Option<real>,
    emergencyStop: bool)

  /** What the checkers' queries return; None is a query that failed. */
  datatype RiskView = RiskView(
    dailyPnl: Option<real>,
    capital: Option<real>,
    totalPnl: Option<real>,
    openQuantity: Option<real>)

  datatype Reason =
    | EmergencyStopActive
    | InvalidDailyLoss
    | DailyLossReached
    | InvalidDrawdown
    | DrawdownReached
    | PositionTooLarge
    | InvalidStopLoss
    | InvalidTrailingStop
    | InvalidTakeProfit
  {
    /** The rejections that blame a stored setting rather than the market or the intent. */
    predicate BlamesSetting() {
      InvalidDailyLoss? || InvalidDrawdown? || InvalidStopLoss? || InvalidTrailingStop? || InvalidTakeProfit?
    }
  }

  datatype RiskOutcome = Pass | Reject(reason: Reason) | AutoStop(reason: Reason)

  datatype Checker = EmergencyStop | DailyLoss | Drawdown | PositionLimit | StopLoss | TakeProfit

  const CHECKERS := [EmergencyStop, DailyLoss, Drawdown, PositionLimit, StopLoss, TakeProfit]

  function OrZero(x: Option<real>): real {
    if x.Some? then x.value else 0.0
  }

  function LossPercent(capital: real, totalPnl: real): real {
    var current := capital + totalPnl;
    if capital > 0.0 then ((capital - current) / capital) * 100.0 else 0.0
  }

  function Check(c: Checker, intent: OrderIntent, settings: RiskSettings, view: RiskView): RiskOutcome {
    match c
    case EmergencyStop =>
      if settings.emergencyStop then Reject(EmergencyStopActive) else Pass
    case DailyLoss =>
      (match settings.maxDailyLoss
       case None => Pass
       case Some(limit) =>
         if limit <= 0.0 then Reject(InvalidDailyLoss)
         else if OrZero(view.dailyPnl) < -limit then AutoStop(DailyLossReached)
         else Pass)
    case Drawdown =>
      (match settings.maxDrawdownPercent
       case None => Pass
       case Some(limit) =>
         if limit <= 0.0 || limit > 100.0 then Reject(InvalidDrawdown)
         else if view.capital.None? then Pass
         else if LossPercent(view.capital.value, OrZero(view.totalPnl)) > limit then AutoStop(DrawdownReached)
         else Pass)
    case PositionLimit =>
      (match settings.maxPositionSize
       case None => Pass
       case Some(limit) =>
         if intent.quantity + OrZero(view.openQuantity) > limit then Reject(PositionTooLarge) else Pass)
    case StopLoss =>
      if settings.stopLossPercent.Some? && !(0.0 < settings.stopLossPercent.value <= 100.0) then
        Reject(InvalidStopLoss)
      else if settings.trailingStopPercent.Some? && !(0.0 < settings.trailingStopPercent.value <= 100.0) then
        Reject(InvalidTrailingStop)
      else Pass
    case TakeProfit =>
      if settings.takeProfitPercent.Some? && settings.takeProfitPercent.value <= 0.0 then
        Reject(InvalidTakeProfit)
      else Pass
  }

  /** The verdict of the first checker of the list that does not pass. */
  function FirstVerdict(checkers: seq<Checker>, intent: OrderIntent, settings: RiskSettings, view: RiskView)
    : (r: RiskOutcome)
    ensures r.Pass? <==> forall c :: c in checkers ==> Check(c, intent, settings, view).Pass?
    ensures !r.Pass? ==> exists i :: 0 <= i < |checkers| && r == Check(checkers[i], intent, settings, view)
                                     && forall j :: 0 <= j < i ==> Check(checkers[j], intent, settings, view).Pass?
  {
    if checkers == [] then Pass
    else
      var first := Check(checkers[0], intent, settings, view);
      if !first.Pass? then
        assert first == Check(checkers[0], intent, settings, view);
        first
      else
        var rest := FirstVerdict(checkers[1..], intent, settings, view);
        assert forall i :: 1 <= i < |checkers| ==> checkers[i] == checkers[1..][i - 1];
        assert forall c :: c in checkers <==> c == checkers[0] || c in checkers[1..];
        assert !rest.Pass? ==>
            exists i ::
              && 1 <= i < |checkers| && rest == Check(checkers[i], intent, settings, view)
              && forall j :: 0 <= j < i ==> Check(checkers[j], intent, settings, view).Pass?
        by {
          if !rest.Pass? {
            var i :| 0 <= i < |checkers[1..]| && rest == Check(checkers[1..][i], intent, settings, view)
                     && forall j :: 0 <= j < i ==> Check(checkers[1..][j], intent, settings, view).Pass?;
            assert rest == Check(checkers[i + 1], intent, settings, view);
            assert forall j :: 1 <= j < i + 1 ==> checkers[j] == checkers[1..][j - 1];
          }
        }
        rest
  }

  function Validate(intent: OrderIntent, settings: RiskSettings, view: RiskView): RiskOutcome {
    FirstVerdict(CHECKERS, intent, settings, view)
  }

  /** Every stored percentage and limit is one the executor accepts. */
  predicate Acceptable(settings: RiskSettings) {
    && (settings.maxDailyLoss.Some? ==> settings.maxDailyLoss.value > 0.0)
    && (settings.maxDrawdownPercent.Some? ==> 0.0 < settings.maxDrawdownPercent.value <= 100.0)
    && (settings.stopLossPercent.Some? ==> 0.0 < settings.stopLossPercent.value <= 100.0)
    && (settings.trailingStopPercent.Some? ==> 0.0 < settings.trailingStopPercent.value <= 100.0)
    && (settings.takeProfitPercent.Some? ==> settings.takeProfitPercent.value > 0.0)
  }

  /** Today's loss is above the limit; without an answer there was none. */
  predicate LostTooMuch(limit: real, dailyPnl: Option<real>) {
    match dailyPnl
    case Some(pnl) => pnl + limit < 0.0
    case None => limit < 0.0
  }

  /** All profits and losses together are a loss of more than so many per cent of a positive capital. */
  predicate DrawnTooFar(percent: real, capital: Option<real>, totalPnl: Option<real>) {
    match capital
    case None => false
    case Some(c) =>
      if c <= 0.0 then percent < 0.0
      else
        match totalPnl
        case Some(pnl) => -100.0 * pnl > percent * c
        case None => 0.0 > percent * c
  }

  /** The intent would take the open quantity above the limit; without an answer none is open. */
  predicate OverLimit(limit: real, quantity: real, openQuantity: Option<real>) {
    match openQuantity
    case Some(open) => quantity + open > limit
    case None => quantity > limit
  }

  /** The market and the intent stay within every limit that is set. */
  predicate WithinLimits(intent: OrderIntent, settings: RiskSettings, view: RiskView) {
    && !settings.emergencyStop
    && (settings.maxDailyLoss.Some? ==> !LostTooMuch(settings.maxDailyLoss.value, view.dailyPnl))
    && (settings.maxDrawdownPercent.Some? ==>
          !DrawnTooFar(settings.maxDrawdownPercent.value, view.capital, view.totalPnl))
    && (settings.maxPositionSize.Some? ==>
          !OverLimit(settings.maxPositionSize.value, intent.quantity, view.openQuantity))
  }

  lemma LossPercentIs(capital: real, totalPnl: real, percent: real)
    requires capital > 0.0
    ensures LossPercent(capital, totalPnl) > percent <==> -100.0 * totalPnl > percent * capital
  {
    var loss := (capital - (capital + totalPnl)) / capital * 100.0;
    assert loss * capital == -100.0 * totalPnl;
    if loss > percent {
      assert (loss - percent) * capital > 0.0;
    } else {
      assert (percent - loss) * capital >= 0.0;
    }
  }

  lemma DrawdownIsDrawn(limit: real, view: RiskView)
    requires view.capital.Some?
    ensures LossPercent(view.capital.value, OrZero(view.totalPnl)) > limit
        <==> DrawnTooFar(limit, view.capital, view.totalPnl)
  {
    if view.capital.value > 0.0 { LossPercentIs(view.capital.value, OrZero(view.totalPnl), limit); }
  }

  lemma EveryCheckerIsListed()
    ensures forall c: Checker :: c in CHECKERS
  {
    forall c: Checker ensures c in CHECKERS {
      match c
      case EmergencyStop => assert CHECKERS[0] == c;
      case DailyLoss => assert CHECKERS[1] == c;
      case Drawdown => assert CHECKERS[2] == c;
      case PositionLimit => assert CHECKERS[3] == c;
      case StopLoss => assert CHECKERS[4] == c;
      case TakeProfit => assert CHECKERS[5] == c;
    }
  }

  /** The gate passes exactly the intents that stay within acceptable limits; each checker is needed. */
  lemma PassIsExact(intent: OrderIntent, settings: RiskSettings, view: RiskView)
    ensures Validate(intent, settings, view).Pass? <==> Acceptable(settings) && WithinLimits(intent, settings, view)
  {
    EveryCheckerIsListed();
    if settings.maxDrawdownPercent.Some? && view.capital.Some? {
      DrawdownIsDrawn(settings.maxDrawdownPercent.value, view);
    }
    if Validate(intent, settings, view).Pass? {
      assert Check(EmergencyStop, intent, settings, view).Pass? && Check(DailyLoss, intent, settings, view).Pass?;
      assert Check(Drawdown, intent, settings, view).Pass? && Check(PositionLimit, intent, settings, view).Pass?;
      assert Check(StopLoss, intent, settings, view).Pass? && Check(TakeProfit, intent, settings, view).Pass?;
    }
  }

  // ---------------------------------------------------------------- what the verdict says

  predicate OutOfRange(percent: Option<real>) {
    match percent
    case Some(p) => p <= 0.0 || p > 100.0
    case None => false
  }

  predicate NotPositive(limit: Option<real>) {
    limit.Some? && limit.value <= 0.0
  }

  /** What a verdict with this reason says is so. */
  predicate Applies(reason: Reason, intent: OrderIntent, s: RiskSettings, view: RiskView) {
    match reason
    case EmergencyStopActive => s.emergencyStop
    case InvalidDailyLoss => NotPositive(s.maxDailyLoss)
    case DailyLossReached =>
      s.maxDailyLoss.Some? && s.maxDailyLoss.value > 0.0 && LostTooMuch(s.maxDailyLoss.value, view.dailyPnl)
    case InvalidDrawdown => OutOfRange(s.maxDrawdownPercent)
    case DrawdownReached =>
      && s.maxDrawdownPercent.Some? && !OutOfRange(s.maxDrawdownPercent)
      && DrawnTooFar(s.maxDrawdownPercent.value, view.capital, view.totalPnl)
    case PositionTooLarge =>
      s.maxPositionSize.Some? && OverLimit(s.maxPositionSize.value, intent.quantity, view.openQuantity)
    case InvalidStopLoss => OutOfRange(s.stopLossPercent)
    case InvalidTrailingStop => OutOfRange(s.trailingStopPercent)
    case InvalidTakeProfit => NotPositive(s.takeProfitPercent)
  }

  /** The order in which reasons are looked at. */
  function Rank(reason: Reason): nat {
    match reason
    case EmergencyStopActive => 0
    case InvalidDailyLoss => 1
    case DailyLossReached => 1
    case InvalidDrawdown => 2
    case DrawdownReached => 2
    case PositionTooLarge => 3
    case InvalidStopLoss => 4
    case InvalidTrailingStop => 5
    case InvalidTakeProfit => 6
  }

  function CheckerOf(reason: Reason): Checker {
    match reason
    case EmergencyStopActive => EmergencyStop
    case InvalidDailyLoss => DailyLoss
    case DailyLossReached => DailyLoss
    case InvalidDrawdown => Drawdown
    case DrawdownReached => Drawdown
    case PositionTooLarge => PositionLimit
    case InvalidStopLoss => StopLoss
    case InvalidTrailingStop => StopLoss
    case InvalidTakeProfit => TakeProfit
  }

  lemma CheckersAreRanked(i: nat, j: nat, early: Reason, late: Reason)
    requires i < j < |CHECKERS| && CHECKERS[i] == CheckerOf(early) && CHECKERS[j] == CheckerOf(late)
    ensures Rank(early) < Rank(late)
  {
  }

  lemma CheckTellsTruth(c: Checker, intent: OrderIntent, s: RiskSettings, view: RiskView)
    ensures var r := Check(c, intent, s, view);
            !r.Pass? ==>
              && CheckerOf(r.reason) == c && Applies(r.reason, intent, s, view)
              && (r.AutoStop? <==> r.reason == DailyLossReached || r.reason == DrawdownReached)
  {
    if s.maxDrawdownPercent.Some? && view.capital.Some? {
      DrawdownIsDrawn(s.maxDrawdownPercent.value, view);
    }
  }

  lemma ReasonIsSeen(reason: Reason, intent: OrderIntent, s: RiskSettings, view: RiskView)
    requires Applies(reason, intent, s, view)
    ensures var r := Check(CheckerOf(reason), intent, s, view); !r.Pass? && Rank(r.reason) <= Rank(reason)
  {
    if reason.DrawdownReached? { DrawdownIsDrawn(s.maxDrawdownPercent.value, view); }
  }

  /**
   Unless it passes, the verdict gives the first reason that holds, in the order emergency stop, daily loss, drawdown,
   position size, stop loss, trailing stop, target; and it stops the bot exactly for a loss or a drawdown.
   */
  lemma VerdictIsFirstReason(intent: OrderIntent, s: RiskSettings, view: RiskView)
    ensures var r := Validate(intent, s, view);
            && (r.Pass? <==> forall reason :: !Applies(reason, intent, s, view))
            && (!r.Pass? ==>
                  && Applies(r.reason, intent, s, view)
                  && (forall reason :: Applies(reason, intent, s, view) ==> Rank(r.reason) <= Rank(reason))
                  && (r.AutoStop? <==> r.reason == DailyLossReached || r.reason == DrawdownReached))
  {
    var r := Validate(intent, s, view);
    EveryCheckerIsListed();
    if !r.Pass? {
      var i :| 0 <= i < |CHECKERS| && r == Check(CHECKERS[i], intent, s, view)
               && forall j :: 0 <= j < i ==> Check(CHECKERS[j], intent, s, view).Pass?;
      CheckTellsTruth(CHECKERS[i], intent, s, view);
      forall reason | Applies(reason, intent, s, view) ensures Rank(r.reason) <= Rank(reason) {
        ReasonIsSeen(reason, intent, s, view);
        assert CheckerOf(reason) in CHECKERS;
        var j :| 0 <= j < |CHECKERS| && CHECKERS[j] == CheckerOf(reason);
        if i < j { CheckersAreRanked(i, j, r.reason, reason); }
      }
    }
    forall reason | Applies(reason, intent, s, view) ensures !r.Pass? {
      ReasonIsSeen(reason, intent, s, view);
    }
  }

  /** An operator's stop outranks every other verdict. */
  lemma EmergencyStopComesFirst(intent: OrderIntent, settings: RiskSettings, view: RiskView)
    requires settings.emergencyStop
    ensures Validate(intent, settings, view) == Reject(EmergencyStopActive)
  {
    EveryCheckerIsListed();
    assert !Check(EmergencyStop, intent, settings, view).Pass?;
    var i :| 0 <= i < |CHECKERS| && Validate(intent, settings, view) == Check(CHECKERS[i], intent, settings, view)
             && forall j :: 0 <= j < i ==> Check(CHECKERS[j], intent, settings, view).Pass?;
    assert CHECKERS[0] == EmergencyStop && !(0 < i);
  }

  /** On acceptable settings no rejection ever blames a setting. */
  lemma AcceptableSettingsAreNotBlamed(intent: OrderIntent, settings: RiskSettings, view: RiskView)
    requires Acceptable(settings)
    ensures var r := Validate(intent, settings, view); r.Pass? || !r.reason.BlamesSetting()
  {
    var r := Validate(intent, settings, view);
    if !r.Pass? {
      var i :| 0 <= i < |CHECKERS| && r == Check(CHECKERS[i], intent, settings, view);
    }
  }

  /** `tight` is nowhere looser than `loose`: a limit may be lowered or added, the stop may be raised. */
  predicate NoLooser(tight: Option<real>, loose: Option<real>) {
    loose.Some? ==> tight.Some? && tight.value <= loose.value
  }

  predicate Tightens(tight: RiskSettings, loose: RiskSettings) {
    && NoLooser(tight.maxPositionSize, loose.maxPositionSize)
    && NoLooser(tight.maxDailyLoss, loose.maxDailyLoss)
    && NoLooser(tight.maxDrawdownPercent, loose.maxDrawdownPercent)
    && NoLooser(tight.stopLossPercent, loose.stopLossPercent)
    && NoLooser(tight.takeProfitPercent, loose.takeProfitPercent)
    && NoLooser(tight.trailingStopPercent, loose.trailingStopPercent)
    && (loose.emergencyStop ==> tight.emergencyStop)
  }

  /** Tightening acceptable settings never turns a blocked intent into a pass. */
  lemma TighteningNeverUnblocks(intent: OrderIntent, tight: RiskSettings, loose: RiskSettings, view: RiskView)
    requires Acceptable(loose) && Tightens(tight, loose)
    requires !Validate(intent, loose, view).Pass?
    ensures !Validate(intent, tight, view).Pass?
  {
    PassIsExact(intent, loose, view);
    PassIsExact(intent, tight, view);
  }

  /** No tightening of these settings turns an intent that they block into a pass. */
  ghost predicate TighteningIsSafe(loose: RiskSettings) {
    forall intent: OrderIntent, tight: RiskSettings, view: RiskView ::
      Tightens(tight, loose) && !Validate(intent, loose, view).Pass? ==> !Validate(intent, tight, view).Pass?
  }

  /** A limit that no lower limit can repair, or a raised stop. */
  predicate BeyondRepair(s: RiskSettings) {
    || s.emergencyStop
    || NotPositive(s.maxDailyLoss) || NotPositive(s.maxDrawdownPercent) || NotPositive(s.stopLossPercent)
    || NotPositive(s.trailingStopPercent) || NotPositive(s.takeProfitPercent)
  }

  function AtMost100(limit: Option<real>): Option<real> {
    if limit.Some? && limit.value > 100.0 then Some(100.0) else limit
  }

  function Capped(s: RiskSettings): RiskSettings {
    s.(maxDrawdownPercent := AtMost100(s.maxDrawdownPercent), stopLossPercent := AtMost100(s.stopLossPercent),
       trailingStopPercent := AtMost100(s.trailingStopPercent))
  }

  /** A market in which an intent of quantity one stays within every positive limit. */
  function QuietMarket(s: RiskSettings): RiskView {
    RiskView(None, None, None, Some(if s.maxPositionSize.Some? then s.maxPositionSize.value - 1.0 else 0.0))
  }

  /** Percentages above 100 that nothing else spoils: capping them at 100 unblocks an intent in a quiet market. */
  lemma CappingUnblocks(loose: RiskSettings) returns (intent: OrderIntent, tight: RiskSettings, view: RiskView)
    requires !Acceptable(loose) && !BeyondRepair(loose)
    ensures Tightens(tight, loose)
    ensures !Validate(intent, loose, view).Pass? && Validate(intent, tight, view).Pass?
  {
    intent, tight, view := OrderIntent(0, 0, Buy, 1.0, None), Capped(loose), QuietMarket(loose);
    PassIsExact(intent, loose, view);
    PassIsExact(intent, tight, view);
  }

  lemma BeyondRepairStaysBlocked(intent: OrderIntent, tight: RiskSettings, loose: RiskSettings, view: RiskView)
    requires BeyondRepair(loose) && Tightens(tight, loose)
    ensures !Validate(intent, tight, view).Pass?
  {
    PassIsExact(intent, tight, view);
  }

  /**
   Exactly when tightening is safe: on settings the executor accepts, and on settings that stay unacceptable or stopped
   however they are tightened. It fails just for a percentage above 100 among otherwise acceptable settings.
   */
  lemma TighteningIsSafeIff(loose: RiskSettings)
    ensures TighteningIsSafe(loose) <==> Acceptable(loose) || BeyondRepair(loose)
  {
    if Acceptable(loose) || BeyondRepair(loose) {
      forall intent: OrderIntent, tight: RiskSettings, view: RiskView
        | Tightens(tight, loose) && !Validate(intent, loose, view).Pass?
        ensures !Validate(intent, tight, view).Pass?
      {
        if Acceptable(loose) {
          TighteningNeverUnblocks(intent, tight, loose, view);
        } else {
          BeyondRepairStaysBlocked(intent, tight, loose, view);
        }
      }
    } else {
      var intent, tight, view := CappingUnblocks(loose);
    }
  }

  /** An input: a stop loss of 150 percent lowered to 10. */
  lemma TighteningCanUnblock() returns (intent: OrderIntent, tight: RiskSettings, loose: RiskSettings, view: RiskView)
    ensures Tightens(tight, loose) && loose.stopLossPercent == Some(150.0)
    ensures !Validate(intent, loose, view).Pass? && Validate(intent, tight, view).Pass?
  {
    intent := OrderIntent(0, 0, Buy, 1.0, None);
    loose := RiskSettings(None, None, None, Some(150.0), None, None, false);
    tight := loose.(stopLossPercent := Some(10.0));
    view := RiskView(None, None, None, None);
    assert !Acceptable(loose) by { assert loose.stopLossPercent.value > 100.0; }
    assert Acceptable(tight) && WithinLimits(intent, tight, view);
    PassIsExact(intent, loose, view);
    PassIsExact(intent, tight, view);
  }
}
