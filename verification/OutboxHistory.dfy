/** What an outbox row says about its event: the attempts made on it, told from the run alone. */
module OutboxHistory {
  import opened Domain
  import opened Outbox
  import opened OutboxRuns

  // ================================================================ the attempts on an event

  function IndexOf(batch: seq<nat>, e: nat): (j: nat)
    requires e in batch
    ensures j < |batch| && batch[j] == e
  {
    if batch[0] == e then 0 else 1 + IndexOf(batch[1..], e)
  }

  /** The outcome of the attempt that a step makes on event `e`, if it makes one. */
  function AttemptOn(rows: seq<Row>, step: OutboxStep, e: nat): Option<Outcome>
    requires StepEnabled(rows, step)
  {
    if step.Poll? && e in Batch(rows, step.now) then
      BatchIsOldestDue(rows, step.now);
      Some(step.outcomes[IndexOf(Batch(rows, step.now), e)])
    else None
  }

  /** The attempts of the first `n` steps on event `e` whose bookkeeping landed, in order. */
  function Landings(run: seq<seq<Row>>, steps: seq<OutboxStep>, n: nat, e: nat): seq<Outcome>
    requires IsOutboxRun(run, steps) && n <= |steps|
  {
    if n == 0 then []
    else
      var attempt := AttemptOn(run[n - 1], steps[n - 1], e);
      Landings(run, steps, n - 1, e) + if attempt.Some? && attempt.value.landed then [attempt.value] else []
  }

  /** How many of them were published, or were not. */
  function Count(landings: seq<Outcome>, published: bool): nat {
    if landings == [] then 0
    else Count(landings[..|landings| - 1], published) + if landings[|landings| - 1].published == published then 1 else 0
  }

  /** Each attempt comes at least 5 s after the first, 10 s after the second, 20 s, 40 s after the ones that follow. */
  predicate Spaced(landings: seq<Outcome>) {
    forall i :: 0 <= i < |landings| - 1 ==> landings[i + 1].at >= landings[i].at + 5 * SECOND * Pow2(i)
  }

  /** The row tells what came of the attempts. */
  predicate Tells(r: Row, landings: seq<Outcome>) {
    && Spaced(landings)
    && r.retries == Count(landings, false)
    && (landings != [] && !landings[0].published ==> r.firstFailure == Some(landings[0].at))
    && match r.status
       case EventUnsaved => landings == [] && r == ABSENT
       case EventPending =>
         && |landings| < 5 && Count(landings, true) == 0 && (landings == [] ==> r.firstFailure == None)
         && r.nextRetry == if landings == [] then None
                           else Some(landings[|landings| - 1].at + 5 * SECOND * Pow2(|landings| - 1))
       case EventProcessed => landings != [] && landings[|landings| - 1].published && Count(landings, true) == 1
       case EventFailed => |landings| == 5 && Count(landings, true) == 0 && r.failedAt == Some(landings[4].at)
  }

  lemma OneMoreLanding(landings: seq<Outcome>, o: Outcome, published: bool)
    ensures Count(landings + [o], published) == Count(landings, published) + if o.published == published then 1 else 0
  {
    assert (landings + [o])[..|landings|] == landings;
  }

  lemma {:induction false} CountsAddUp(landings: seq<Outcome>)
    ensures Count(landings, true) + Count(landings, false) == |landings|
  {
    if landings != [] { CountsAddUp(landings[..|landings| - 1]); }
  }

  lemma {:induction false} NoneSent(landings: seq<Outcome>, i: nat)
    requires Count(landings, true) == 0 && i < |landings|
    ensures !landings[i].published
  {
    if i < |landings| - 1 { NoneSent(landings[..|landings| - 1], i); }
  }

  lemma DelayIs(attempt: nat)
    requires 1 <= attempt <= 4
    ensures RetryDelay(attempt) == 5 * SECOND * Pow2(attempt - 1)
  {
    FirstDelays();
    assert Pow2(0) == 1 && Pow2(1) == 2 && Pow2(2) == 4 && Pow2(3) == 8;
  }

  /** A landed attempt on a due row. */
  lemma AttemptIsTold(r: Row, landings: seq<Outcome>, now: int, o: Outcome)
    requires Tells(r, landings) && Due(r, now) && o.at >= now && o.landed
    ensures Tells(Attempted(r, o), landings + [o])
  {
    var all := landings + [o];
    OneMoreLanding(landings, o, true);
    OneMoreLanding(landings, o, false);
    CountsAddUp(landings);
    assert forall i :: 0 <= i < |landings| ==> all[i] == landings[i];
    if landings != [] { NoneSent(landings, 0); }
    if |all| <= 4 { DelayIs(|all|); }
  }

  // ================================================================ what a poll does to one row

  lemma {:induction false} RowInBatch(rows: seq<Row>, batch: seq<nat>, outcomes: seq<Outcome>, n: nat, j: nat)
    requires j < n <= |batch| <= |outcomes| && InRange(batch, rows)
    requires forall i, k :: 0 <= i < k < |batch| ==> batch[i] < batch[k]
    ensures Processing(rows, batch, outcomes, n)[batch[j]] == Attempted(rows[batch[j]], outcomes[j])
  {
    if j == n - 1 {
      BatchRowsUntouched(rows, batch, outcomes, j, j);
    } else {
      RowInBatch(rows, batch, outcomes, n - 1, j);
    }
  }

  lemma {:induction false} RowOutsideBatch(rows: seq<Row>, batch: seq<nat>, outcomes: seq<Outcome>, n: nat, e: nat)
    requires n <= |batch| <= |outcomes| && InRange(batch, rows) && e < |rows| && e !in batch
    ensures Processing(rows, batch, outcomes, n)[e] == rows[e]
  {
    if n > 0 { RowOutsideBatch(rows, batch, outcomes, n - 1, e); }
  }

  lemma PollOfRow(rows: seq<Row>, step: OutboxStep, e: nat)
    requires StepEnabled(rows, step) && step.Poll? && e < |rows|
    ensures var attempt := AttemptOn(rows, step, e);
            && Stepped(rows, step)[e] == (if attempt.Some? then Attempted(rows[e], attempt.value) else rows[e])
            && (attempt.Some? ==> Due(rows[e], step.now) && attempt.value.at >= step.now)
  {
    var batch := Batch(rows, step.now);
    BatchIsOldestDue(rows, step.now);
    if e in batch {
      RowInBatch(rows, batch, step.outcomes, |batch|, IndexOf(batch, e));
    } else {
      RowOutsideBatch(rows, batch, step.outcomes, |batch|, e);
    }
  }

  lemma RunKeepsLength(run: seq<seq<Row>>, steps: seq<OutboxStep>, n: nat)
    requires IsOutboxRun(run, steps) && n < |steps|
    ensures |run[n + 1]| == |run[n]|
  {
    assert run[n + 1] == Stepped(run[n], steps[n]);
  }

  /**
   In every run: an event is processed exactly if an attempt on it was published and its bookkeeping landed, and then
   only one; its retry count is the number of landed attempts that were not published; it fails for good exactly at the
   fifth of these, none being published; and its landed attempts are 5, 10, 20 and 40 seconds apart or more.
   */
  lemma {:induction false} RowsTellAttempts(run: seq<seq<Row>>, steps: seq<OutboxStep>, n: nat, e: nat)
    requires IsOutboxRun(run, steps) && n < |run| && e < |run[n]|
    ensures Tells(run[n][e], Landings(run, steps, n, e))
  {
    if n > 0 {
      RunKeepsLength(run, steps, n - 1);
      RowsTellAttempts(run, steps, n - 1, e);
      var landings := Landings(run, steps, n - 1, e);
      if steps[n - 1].Poll? {
        PollOfRow(run[n - 1], steps[n - 1], e);
        var attempt := AttemptOn(run[n - 1], steps[n - 1], e);
        if attempt.Some? && attempt.value.landed {
          AttemptIsTold(run[n - 1][e], landings, steps[n - 1].now, attempt.value);
        } else {
          assert Landings(run, steps, n, e) == landings;
        }
      } else {
        assert Landings(run, steps, n, e) == landings;
      }
    }
  }

  /** Whether an event was sent and whether it was given up can be read off its row. */
  lemma StatusSaysWhatHappened(run: seq<seq<Row>>, steps: seq<OutboxStep>, n: nat, e: nat)
    requires IsOutboxRun(run, steps) && n < |run| && e < |run[n]|
    ensures var r, sent, failed :=
              run[n][e], Count(Landings(run, steps, n, e), true), Count(Landings(run, steps, n, e), false);
            && sent <= 1 && r.retries == failed <= 5
            && (r.status.EventProcessed? <==> sent == 1)
            && (r.status.EventFailed? <==> failed == 5)
            && (sent == 1 ==> failed < 5)
  {
    RowsTellAttempts(run, steps, n, e);
    RetriesAreBoundedAndSpaced(run, steps, n, e);
  }
}
