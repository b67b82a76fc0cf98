/** The outbox processor: batches of due events in creation order, bounded retries with exponential backoff. */
module Outbox {
  import opened Domain

  const BATCH_SIZE: nat := 50
  const MAX_RETRIES: nat := 5
  const SECOND := 1_000_000_000
  const BASE_BACKOFF := 5 * SECOND
  const MAX_BACKOFF := 300 * SECOND

  // ================================================================ the retry delay

  function Pow2(n: nat): (p: int)
    ensures p >= 1
  {
    if n == 0 then 1 else 2 * Pow2(n - 1)
  }

  /** Two's complement wrap-around of a 64-bit signed integer. */
  function Wrap64(x: int): int {
    var r := x % 0x1_0000_0000_0000_0000;
    if r >= 0x8000_0000_0000_0000 then r - 0x1_0000_0000_0000_0000 else r
  }

  /** `1 << n` on 64 bits; a shift past the width gives zero. */
  function ShiftedOne(n: nat): int {
    if n >= 64 then 0 else Wrap64(Pow2(n))
  }

  /** `outboxRetryDelay`, in nanoseconds on 64 bits. */
  function RetryDelay(attempt: int): int {
    var a := if attempt < 1 then 1 else attempt;
    var delay := Wrap64(BASE_BACKOFF * ShiftedOne(a - 1));
    if delay > MAX_BACKOFF then MAX_BACKOFF else delay
  }

  lemma {:induction false} Pow2Monotone(m: nat, n: nat)
    requires m <= n
    ensures Pow2(m) <= Pow2(n)
  {
    if m < n { Pow2Monotone(m, n - 1); }
  }

  lemma Pow2At30And63()
    ensures Pow2(30) == 0x4000_0000 && Pow2(31) == 0x8000_0000 && Pow2(63) == 0x8000_0000_0000_0000
  {
    assert Pow2(10) == 1024;
    assert Pow2(20) == 1024 * Pow2(10) by { assert Pow2(15) == 32 * Pow2(10); }
    assert Pow2(30) == 1024 * Pow2(20) by { assert Pow2(25) == 32 * Pow2(20); }
    assert Pow2(40) == 1024 * Pow2(30) by { assert Pow2(35) == 32 * Pow2(30); }
    assert Pow2(50) == 1024 * Pow2(40) by { assert Pow2(45) == 32 * Pow2(40); }
    assert Pow2(60) == 1024 * Pow2(50) by { assert Pow2(55) == 32 * Pow2(50); }
  }

  /** Two's complement keeps a value that fits, and no other. */
  lemma WrapIsExactIff(x: int)
    ensures Wrap64(x) == x <==> -0x8000_0000_0000_0000 <= x < 0x8000_0000_0000_0000
  {
  }

  lemma ProductFitsIff(p: int)
    requires p >= 1
    ensures 0 < BASE_BACKOFF * p
    ensures BASE_BACKOFF * p < 0x8000_0000_0000_0000 <==> p <= 1_844_674_407
  {
    assert BASE_BACKOFF * p == 5_000_000_000 * p;
  }

  lemma ExactProductFitsIff(n: nat)
    ensures 0 < BASE_BACKOFF * Pow2(n)
    ensures BASE_BACKOFF * Pow2(n) < 0x8000_0000_0000_0000 <==> n <= 30
  {
    ProductFitsIff(Pow2(n));
    Pow2At30And63();
    if n <= 30 { Pow2Monotone(n, 30); } else { Pow2Monotone(31, n); }
  }

  lemma ShiftFitsIff(n: nat)
    ensures n <= 62 ==> ShiftedOne(n) == Pow2(n)
    ensures n >= 63 ==> ShiftedOne(n) <= 0
  {
    Pow2At30And63();
    if n <= 62 {
      Pow2Monotone(n, 62);
      assert Pow2(63) == 2 * Pow2(62);
      WrapIsExactIff(Pow2(n));
    }
  }

  /** The 64-bit product is exact up to attempt 31 and for no later attempt. */
  lemma BackoffOverflowsAfter31(attempt: nat)
    requires 1 <= attempt
    ensures Wrap64(BASE_BACKOFF * ShiftedOne(attempt - 1)) == BASE_BACKOFF * Pow2(attempt - 1) <==> attempt <= 31
  {
    var n := attempt - 1;
    ExactProductFitsIff(n);
    ShiftFitsIff(n);
    WrapIsExactIff(BASE_BACKOFF * Pow2(n));
    if n >= 63 {
      assert Wrap64(BASE_BACKOFF * ShiftedOne(n)) < 0x8000_0000_0000_0000 <= BASE_BACKOFF * Pow2(n);
    }
  }

  /** 5 s doubled `n` times, capped at 5 min, on unbounded integers. */
  function CappedBackoff(n: nat): int {
    var exact := BASE_BACKOFF * Pow2(n);
    if exact > MAX_BACKOFF then MAX_BACKOFF else exact
  }

  /** Up to attempt 31 the delay doubles from 5 s and is capped at 5 min. */
  lemma DelayDoublesUpToCap(attempt: int)
    requires attempt <= 31
    ensures RetryDelay(attempt) == CappedBackoff(if attempt < 1 then 0 else attempt - 1)
    ensures BASE_BACKOFF <= RetryDelay(attempt) <= MAX_BACKOFF
  {
    BackoffOverflowsAfter31(if attempt < 1 then 1 else attempt);
  }

  lemma CappedBackoffIsMonotone(m: nat, n: nat)
    requires m <= n
    ensures CappedBackoff(m) <= CappedBackoff(n)
  {
    Pow2Monotone(m, n);
  }

  lemma DelayIsMonotone(a: int, b: int)
    requires a <= b <= 31
    ensures RetryDelay(a) <= RetryDelay(b)
  {
    var m: nat, n: nat := if a < 1 then 0 else a - 1, if b < 1 then 0 else b - 1;
    assert RetryDelay(a) == CappedBackoff(m) by { DelayDoublesUpToCap(a); }
    assert RetryDelay(b) == CappedBackoff(n) by { DelayDoublesUpToCap(b); }
    CappedBackoffIsMonotone(m, n);
  }

  /** Past that the wrapped product can be negative, and is not capped. */
  lemma DelayCanBeNegative()
    ensures RetryDelay(32) < 0
  {
    Pow2At30And63();
  }

  // ================================================================ rows and attempts

  datatype Status = EventUnsaved | EventPending | EventProcessed | EventFailed

  /** An outbox row; `firstFailure` and `failedAt` record when things happened. */
  datatype Row = Row(
    status: Status, retries: nat, nextRetry: Option<int>, firstFailure: Option<int>, failedAt: Option<int>)

  /** What becomes of one attempt, at which time, and whether the bookkeeping write lands. */
  datatype Outcome = Outcome(published: bool, at: int, landed: bool)

  predicate Due(r: Row, now: int) {
    r.status.EventPending? && (r.nextRetry.None? || r.nextRetry.value <= now)
  }

  function Recorded(first: Option<int>, at: int): Option<int> {
    if first.Some? then first else Some(at)
  }

  function Retried(r: Row, at: int): Row {
    var next := r.retries + 1;
    if next >= MAX_RETRIES then Row(EventFailed, next, None, Recorded(r.firstFailure, at), Some(at))
    else Row(EventPending, next, Some(at + RetryDelay(next)), Recorded(r.firstFailure, at), None)
  }

  function Attempted(r: Row, o: Outcome): Row {
    if !o.landed then r
    else if o.published then r.(status := EventProcessed, nextRetry := None)
    else Retried(r, o.at)
  }

  /** The first due rows from index `i` on, oldest first, at most `room` of them. */
  function Fetch(rows: seq<Row>, now: int, i: nat, room: nat): seq<nat>
    requires i <= |rows|
    decreases |rows| - i
  {
    if i == |rows| || room == 0 then []
    else if Due(rows[i], now) then [i] + Fetch(rows, now, i + 1, room - 1)
    else Fetch(rows, now, i + 1, room)
  }

  predicate InRange(batch: seq<nat>, rows: seq<Row>) {
    forall j :: 0 <= j < |batch| ==> batch[j] < |rows|
  }

  /** The table after the first `n` rows of the batch were attempted. */
  function Processing(rows: seq<Row>, batch: seq<nat>, outcomes: seq<Outcome>, n: nat): (r: seq<Row>)
    requires n <= |batch| <= |outcomes| && InRange(batch, rows)
    ensures |r| == |rows|
  {
    if n == 0 then rows
    else
      var before := Processing(rows, batch, outcomes, n - 1);
      before[batch[n - 1] := Attempted(before[batch[n - 1]], outcomes[n - 1])]
  }

  function Batch(rows: seq<Row>, now: int): seq<nat> {
    Fetch(rows, now, 0, BATCH_SIZE)
  }

  lemma {:induction false} FetchTakesDue(rows: seq<Row>, now: int, i: nat, room: nat)
    requires i <= |rows|
    ensures var batch := Fetch(rows, now, i, room);
            && |batch| <= room
            && (forall j :: 0 <= j < |batch| ==> i <= batch[j] < |rows| && Due(rows[batch[j]], now))
            && (forall j, k :: 0 <= j < k < |batch| ==> batch[j] < batch[k])
    decreases |rows| - i
  {
    if i < |rows| && room > 0 {
      FetchTakesDue(rows, now, i + 1, if Due(rows[i], now) then room - 1 else room);
    }
  }

  /** A due row is left out only if older ones fill the batch. */
  lemma {:induction false} FetchLeavesYounger(rows: seq<Row>, now: int, i: nat, room: nat, e: nat)
    requires i <= e < |rows| && Due(rows[e], now) && e !in Fetch(rows, now, i, room)
    ensures var batch := Fetch(rows, now, i, room); |batch| == room && forall j :: 0 <= j < |batch| ==> batch[j] < e
    decreases |rows| - i
  {
    if room > 0 {
      if Due(rows[i], now) {
        var rest := Fetch(rows, now, i + 1, room - 1);
        assert Fetch(rows, now, i, room) == [i] + rest;
        assert e != [i][0] && e !in rest;
        FetchLeavesYounger(rows, now, i + 1, room - 1, e);
      } else {
        FetchLeavesYounger(rows, now, i + 1, room, e);
      }
    }
  }

  /** The batch is made of the oldest due rows, in creation order. */
  lemma BatchIsOldestDue(rows: seq<Row>, now: int)
    ensures var batch := Batch(rows, now);
            && |batch| <= BATCH_SIZE && InRange(batch, rows)
            && (forall j :: 0 <= j < |batch| ==> Due(rows[batch[j]], now))
            && (forall j, k :: 0 <= j < k < |batch| ==> batch[j] < batch[k])
            && (forall e :: 0 <= e < |rows| && rows[e].status == EventPending && e !in batch ==>
                  || (rows[e].nextRetry.Some? && rows[e].nextRetry.value > now)
                  || (|batch| == BATCH_SIZE && forall j :: 0 <= j < |batch| ==> batch[j] < e))
  {
    FetchTakesDue(rows, now, 0, BATCH_SIZE);
    forall e | 0 <= e < |rows| && Due(rows[e], now) && e !in Batch(rows, now)
      ensures |Batch(rows, now)| == BATCH_SIZE && forall j :: 0 <= j < |Batch(rows, now)| ==> Batch(rows, now)[j] < e
    {
      FetchLeavesYounger(rows, now, 0, BATCH_SIZE, e);
    }
  }

  /** One poll: the batch is read once, then its rows are attempted one after another. */
  function Polled(rows: seq<Row>, now: int, outcomes: seq<Outcome>): (r: seq<Row>)
    requires |outcomes| == BATCH_SIZE
    ensures |r| == |rows|
  {
    BatchIsOldestDue(rows, now);
    Processing(rows, Batch(rows, now), outcomes, |Batch(rows, now)|)
  }

  class Processor {
    var rows: seq<Row>

    constructor (rows: seq<Row>)
      ensures this.rows == rows
    {
      this.rows := rows;
    }

    method FetchBatch(now: int) returns (batch: seq<nat>)
      ensures batch == Batch(rows, now)
    {
      batch := [];
      var i := 0;
      while i < |rows| && |batch| < BATCH_SIZE
        invariant i <= |rows| && |batch| <= BATCH_SIZE
        invariant batch + Fetch(rows, now, i, BATCH_SIZE - |batch|) == Batch(rows, now)
      {
        if rows[i].status.EventPending? && (rows[i].nextRetry.None? || rows[i].nextRetry.value <= now) {
          assert batch + Fetch(rows, now, i, BATCH_SIZE - |batch|)
              == batch + [i] + Fetch(rows, now, i + 1, BATCH_SIZE - |batch + [i]|);
          batch := batch + [i];
        }
        i := i + 1;
      }
    }

    /** The retry count is the one that was read with the batch. */
    method MarkRetry(id: nat, retryCount: nat, at: int)
      requires id < |rows| && retryCount == rows[id].retries
      modifies this
      ensures rows == old(rows)[id := Retried(old(rows)[id], at)]
    {
      var row := rows[id];
      var next := retryCount + 1;
      var first := if row.firstFailure.Some? then row.firstFailure else Some(at);
      if next >= MAX_RETRIES {
        rows := rows[id := Row(EventFailed, row.retries + 1, None, first, Some(at))];
      } else {
        rows := rows[id := Row(EventPending, row.retries + 1, Some(at + RetryDelay(next)), first, None)];
      }
    }

    method ProcessEvents(now: int, outcomes: seq<Outcome>)
      requires |outcomes| == BATCH_SIZE
      modifies this
      ensures rows == Polled(old(rows), now, outcomes)
    {
      BatchIsOldestDue(rows, now);
      var batch := FetchBatch(now);
      var fetched := rows; // the retry counts are read with the batch
      var n := 0;
      while n < |batch|
        invariant n <= |batch| <= |outcomes| && InRange(batch, fetched)
        invariant rows == Processing(fetched, batch, outcomes, n)
      {
        BatchRowsUntouched(fetched, batch, outcomes, n, n);
        var id, o := batch[n], outcomes[n];
        if o.landed {
          if !o.published {
            MarkRetry(id, fetched[id].retries, o.at);
          } else {
            rows := rows[id := rows[id].(status := EventProcessed, nextRetry := None)];
          }
        }
        n := n + 1;
      }
    }
  }

  /** A row of the batch is as it was fetched until its turn comes. */
  lemma {:induction false} BatchRowsUntouched(rows: seq<Row>, batch: seq<nat>, outcomes: seq<Outcome>, n: nat, k: nat)
    requires n <= k < |batch| <= |outcomes| && InRange(batch, rows)
    requires forall i, j :: 0 <= i < j < |batch| ==> batch[i] < batch[j]
    ensures Processing(rows, batch, outcomes, n)[batch[k]] == rows[batch[k]]
  {
    if n > 0 { BatchRowsUntouched(rows, batch, outcomes, n - 1, k); }
  }
}
