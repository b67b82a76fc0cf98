/** Run-level guarantees of the outbox processor: no starvation, bounded retries, spaced retries. */
module OutboxRuns {
  import opened Domain
  import opened Outbox

  /** A producer's transaction makes row `row` visible, or the processor polls. */
  datatype OutboxStep = Save(row: nat) | Poll(now: int, outcomes: seq<Outcome>)

  const ABSENT := Row(EventUnsaved, 0, None, None, None)

  /** Rows are indexed by creation time; one may become visible after younger ones. */
  predicate StepEnabled(rows: seq<Row>, step: OutboxStep) {
    match step
    case Save(row) => row < |rows| && rows[row].status.EventUnsaved?
    case Poll(now, outcomes) =>
      |outcomes| == BATCH_SIZE && forall i :: 0 <= i < |outcomes| ==> outcomes[i].at >= now
  }

  function Stepped(rows: seq<Row>, step: OutboxStep): seq<Row>
    requires StepEnabled(rows, step)
  {
    match step
    case Save(row) => rows[row := rows[row].(status := EventPending)]
    case Poll(now, outcomes) => Polled(rows, now, outcomes)
  }

  predicate IsOutboxRun(run: seq<seq<Row>>, steps: seq<OutboxStep>) {
    && |run| == |steps| + 1
    && (forall e :: 0 <= e < |run[0]| ==> run[0][e] == ABSENT)
    && forall i :: 0 <= i < |steps| ==> StepEnabled(run[i], steps[i]) && run[i + 1] == Stepped(run[i], steps[i])
  }

  // ================================================================ retries are bounded and spaced

  /** The backoffs of the first `n` failures, added up. */
  function TotalBackoff(n: nat): int {
    if n == 0 then 0 else TotalBackoff(n - 1) + RetryDelay(n)
  }

  predicate WellTimed(r: Row) {
    match r.status
    case EventUnsaved => r == ABSENT
    case EventPending =>
      && r.retries < MAX_RETRIES
      && (r.retries == 0 ==> r.nextRetry.None? && r.firstFailure.None?)
      && (r.retries > 0 ==> r.nextRetry.Some? && r.firstFailure.Some?
                            && r.nextRetry.value >= r.firstFailure.value + TotalBackoff(r.retries))
    case EventProcessed => r.retries < MAX_RETRIES
    case EventFailed =>
      && r.retries == MAX_RETRIES && r.firstFailure.Some? && r.failedAt.Some?
      && r.failedAt.value >= r.firstFailure.value + TotalBackoff(MAX_RETRIES - 1)
  }

  predicate AllWellTimed(rows: seq<Row>) {
    forall e :: 0 <= e < |rows| ==> WellTimed(rows[e])
  }

  lemma FirstDelays()
    ensures RetryDelay(1) == 5 * SECOND && RetryDelay(2) == 10 * SECOND
    ensures RetryDelay(3) == 20 * SECOND && RetryDelay(4) == 40 * SECOND
  {
    DelayDoublesUpToCap(1);
    DelayDoublesUpToCap(2);
    DelayDoublesUpToCap(3);
    DelayDoublesUpToCap(4);
    assert Pow2(0) == 1 && Pow2(1) == 2 && Pow2(2) == 4 && Pow2(3) == 8;
  }

  lemma TotalIs75Seconds()
    ensures TotalBackoff(MAX_RETRIES - 1) == 75 * SECOND
  {
    FirstDelays();
    assert TotalBackoff(4) == TotalBackoff(3) + RetryDelay(4);
    assert TotalBackoff(3) == TotalBackoff(2) + RetryDelay(3);
    assert TotalBackoff(2) == TotalBackoff(1) + RetryDelay(2);
    assert TotalBackoff(1) == TotalBackoff(0) + RetryDelay(1);
  }

  lemma AttemptKeepsTiming(r: Row, now: int, o: Outcome)
    requires WellTimed(r) && Due(r, now) && o.at >= now
    ensures WellTimed(Attempted(r, o))
  {
    assert TotalBackoff(r.retries + 1) == TotalBackoff(r.retries) + RetryDelay(r.retries + 1);
    assert TotalBackoff(0) == 0;
  }

  lemma {:induction false} ProcessingKeepsTiming(
      rows: seq<Row>, now: int, batch: seq<nat>, outcomes: seq<Outcome>, n: nat)
    requires AllWellTimed(rows) && n <= |batch| <= |outcomes| && InRange(batch, rows)
    requires forall j :: 0 <= j < |batch| ==> Due(rows[batch[j]], now)
    requires forall i, j :: 0 <= i < j < |batch| ==> batch[i] < batch[j]
    requires forall i :: 0 <= i < |outcomes| ==> outcomes[i].at >= now
    ensures AllWellTimed(Processing(rows, batch, outcomes, n))
  {
    if n > 0 {
      ProcessingKeepsTiming(rows, now, batch, outcomes, n - 1);
      BatchRowsUntouched(rows, batch, outcomes, n - 1, n - 1);
      AttemptKeepsTiming(rows[batch[n - 1]], now, outcomes[n - 1]);
    }
  }

  lemma {:induction false} RunIsWellTimed(run: seq<seq<Row>>, steps: seq<OutboxStep>, n: nat)
    requires IsOutboxRun(run, steps) && n < |run|
    ensures AllWellTimed(run[n])
  {
    if n > 0 {
      RunIsWellTimed(run, steps, n - 1);
      match steps[n - 1]
      case Save(row) =>
      case Poll(now, outcomes) =>
        BatchIsOldestDue(run[n - 1], now);
        ProcessingKeepsTiming(run[n - 1], now, Batch(run[n - 1], now), outcomes, |Batch(run[n - 1], now)|);
    }
  }

  /**
   In every run, writes landing or not: a pending event has fewer than 5 recorded failures, a failed one exactly 5,
   and it failed for good no sooner than 75 s after its first failure.
   */
  lemma RetriesAreBoundedAndSpaced(run: seq<seq<Row>>, steps: seq<OutboxStep>, n: nat, e: nat)
    requires IsOutboxRun(run, steps) && n < |run| && e < |run[n]|
    ensures var r := run[n][e];
            && r.retries <= 5
            && (r.status.EventPending? ==> r.retries < 5)
            && (r.status.EventFailed? <==> r.retries == 5)
            && (r.status.EventFailed? ==> r.failedAt.Some? && r.firstFailure.Some?
                                          && r.failedAt.value >= r.firstFailure.value + 75 * SECOND)
  {
    RunIsWellTimed(run, steps, n);
    TotalIs75Seconds();
  }

  // ================================================================ no starvation

  /** The attempts that an event still has before it leaves pending. */
  function Credit(r: Row): nat {
    match r.status
    case EventUnsaved => MAX_RETRIES
    case EventPending => if r.retries < MAX_RETRIES then MAX_RETRIES - r.retries else 1
    case _ => 0
  }

  /** The credits of the `e` oldest events. */
  function Credits(rows: seq<Row>, e: nat): nat
    requires e <= |rows|
  {
    if e == 0 then 0 else Credits(rows, e - 1) + Credit(rows[e - 1])
  }

  lemma {:induction false} CreditsUpdate(rows: seq<Row>, e: nat, i: nat, r: Row)
    requires e <= |rows| && i < |rows|
    ensures Credits(rows[i := r], e) == Credits(rows, e) + (if i < e then Credit(r) - Credit(rows[i]) else 0)
  {
    if e > 0 { CreditsUpdate(rows, e - 1, i, r); }
  }

  /** Every attempt whose write lands uses up a credit. */
  lemma AttemptCosts(r: Row, o: Outcome)
    requires r.status.EventPending? && o.landed
    ensures Credit(Attempted(r, o)) <= Credit(r) - 1
  {
  }

  lemma {:induction false} ProcessingCosts(rows: seq<Row>, batch: seq<nat>, outcomes: seq<Outcome>, n: nat, e: nat)
    requires n <= |batch| <= |outcomes| && InRange(batch, rows) && e <= |rows|
    requires forall j :: 0 <= j < |batch| ==> rows[batch[j]].status.EventPending?
    requires forall i, j :: 0 <= i < j < |batch| ==> batch[i] < batch[j]
    requires forall i :: 0 <= i < |outcomes| ==> outcomes[i].landed
    ensures Credits(Processing(rows, batch, outcomes, n), e) <= Credits(rows, e)
    ensures (forall j :: 0 <= j < |batch| ==> batch[j] < e) ==>
              Credits(Processing(rows, batch, outcomes, n), e) + n <= Credits(rows, e)
  {
    if n > 0 {
      ProcessingCosts(rows, batch, outcomes, n - 1, e);
      BatchRowsUntouched(rows, batch, outcomes, n - 1, n - 1);
      var before, i := Processing(rows, batch, outcomes, n - 1), batch[n - 1];
      AttemptCosts(rows[i], outcomes[n - 1]);
      CreditsUpdate(before, e, i, Attempted(before[i], outcomes[n - 1]));
    }
  }

  predicate Landed(step: OutboxStep) {
    step.Poll? ==> forall i :: 0 <= i < |step.outcomes| ==> step.outcomes[i].landed
  }

  /** The poll leaves event `e` out although it is due. */
  predicate PassesOver(rows: seq<Row>, step: OutboxStep, e: nat) {
    step.Poll? && e < |rows| && Due(rows[e], step.now) && e !in Batch(rows, step.now)
  }

  lemma StepCosts(rows: seq<Row>, step: OutboxStep, e: nat)
    requires StepEnabled(rows, step) && Landed(step) && e < |rows|
    ensures |Stepped(rows, step)| == |rows|
    ensures Credits(Stepped(rows, step), e) + (if PassesOver(rows, step, e) then BATCH_SIZE else 0) <= Credits(rows, e)
  {
    match step
    case Save(row) => CreditsUpdate(rows, e, row, rows[row].(status := EventPending));
    case Poll(now, outcomes) =>
      BatchIsOldestDue(rows, now);
      ProcessingCosts(rows, Batch(rows, now), outcomes, |Batch(rows, now)|, e);
  }

  /** How many of the first `n` steps pass over event `e`. */
  function TimesPassedOver(run: seq<seq<Row>>, steps: seq<OutboxStep>, n: nat, e: nat): nat
    requires n <= |steps| && |run| == |steps| + 1
  {
    if n == 0 then 0
    else TimesPassedOver(run, steps, n - 1, e) + if PassesOver(run[n - 1], steps[n - 1], e) then 1 else 0
  }

  lemma {:induction false} FullCredits(rows: seq<Row>, e: nat)
    requires e <= |rows| && forall i :: 0 <= i < |rows| ==> rows[i] == ABSENT
    ensures Credits(rows, e) == MAX_RETRIES * e
  {
    if e > 0 { FullCredits(rows, e - 1); }
  }

  lemma {:induction false} PassesAreCharged(run: seq<seq<Row>>, steps: seq<OutboxStep>, n: nat, e: nat)
    requires IsOutboxRun(run, steps) && n < |run| && e < |run[0]|
    requires forall i :: 0 <= i < |steps| ==> Landed(steps[i])
    ensures |run[n]| == |run[0]|
    ensures Credits(run[n], e) + BATCH_SIZE * TimesPassedOver(run, steps, n, e) <= MAX_RETRIES * e
  {
    if n == 0 {
      FullCredits(run[0], e);
    } else {
      PassesAreCharged(run, steps, n - 1, e);
      StepCosts(run[n - 1], steps[n - 1], e);
    }
  }

  /**
   When the bookkeeping lands, an event with `e` older ones is passed over by at most `e / 10` polls, whatever the
   outcomes of the attempts and in whatever order the events became visible.
   */
  lemma NoStarvation(run: seq<seq<Row>>, steps: seq<OutboxStep>, n: nat, e: nat)
    requires IsOutboxRun(run, steps) && n < |run| && e < |run[0]|
    requires forall i :: 0 <= i < |steps| ==> Landed(steps[i])
    ensures TimesPassedOver(run, steps, n, e) <= e / 10
  {
    PassesAreCharged(run, steps, n, e);
  }
}
