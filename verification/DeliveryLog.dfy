/** The persisted log of one delivery determines its row. Everything below holds
    of every log that replays, so it is enough for the protocol to keep one fact:
    replaying the stored log yields the stored row. */
module DeliveryLog {
  import opened Prelude
  import opened Deliveries

  /** One entry applied to a row; `None` when the entry could not have followed it. */
  function Step(row: DeliveryRow, entry: LogEntry): Option<DeliveryRow> {
    if entry.version != row.version + 1 then None
    else match (entry.event, entry.attempt)
      case (DeliveryStarted, None) =>
        if row.status == Queued || row.status == Retrying
        then Some(DeliveryRow(row.plan, Sending, row.attemptCount + 1, entry.version)) else None
      case (DeliverySent, Some(DeliveryAttempt(number, SentAs(_)))) =>
        if row.status == Sending && number == row.attemptCount
        then Some(DeliveryRow(row.plan, Sent, number, entry.version)) else None
      case (DeliveryDelivered, None) =>
        if row.status == Sent
        then Some(DeliveryRow(row.plan, Delivered, row.attemptCount, entry.version)) else None
      case (DeliveryRetried, Some(DeliveryAttempt(number, FailedWith(retryable, _)))) =>
        if row.status == Sending && number == row.attemptCount < row.plan.maxAttempts && retryable
        then Some(DeliveryRow(row.plan, Retrying, number, entry.version)) else None
      case (DeliveryFailed, Some(DeliveryAttempt(number, FailedWith(retryable, _)))) =>
        if row.status == Sending && number == row.attemptCount && !(retryable && number < row.plan.maxAttempts)
        then Some(DeliveryRow(row.plan, FailedPermanently, number, entry.version)) else None
      case _ => None
  }

  function Replay(plan: DeliveryPlan, log: seq<LogEntry>): Option<DeliveryRow> {
    if |log| == 0 then None
    else if |log| == 1 then
      if log[0] == LogEntry(DeliveryRequested, 1, None) then Some(DeliveryRow(plan, Queued, 0, 1)) else None
    else
      match Replay(plan, log[..|log| - 1])
      case None => None
      case Some(row) => Step(row, log[|log| - 1])
  }

  /** The stored row is what its stored log replays to. */
  ghost predicate Agrees(row: DeliveryRow, log: seq<LogEntry>) {
    row.plan.maxAttempts > 0 && Replay(row.plan, log) == Some(row)
  }

  /** Every transition writes an entry that replays to the row it writes. */
  lemma TransitionsReplay(row: DeliveryRow, message: Option<string>, retryable: bool, reason: string)
    ensures Started(row).Success? ==> Step(row, Started(row).value.entry) == Some(Started(row).value.row)
    ensures Succeeded(row, message).Success? ==>
              Step(row, Succeeded(row, message).value.entry) == Some(Succeeded(row, message).value.row)
    ensures Confirmed(row).Success? ==> Step(row, Confirmed(row).value.entry) == Some(Confirmed(row).value.row)
    ensures Failed(row, retryable, reason).Success? ==>
              Step(row, Failed(row, retryable, reason).value.entry) == Some(Failed(row, retryable, reason).value.row)
  {
  }

  lemma AppendKeepsAgreement(row: DeliveryRow, log: seq<LogEntry>, entry: LogEntry)
    requires Agrees(row, log) && Step(row, entry).Some?
    ensures Agrees(Step(row, entry).value, log + [entry])
  {
    assert (log + [entry])[..|log|] == log;
  }

  /** Version, attempts and status determine one another as the accounting says. */
  predicate Balanced(row: DeliveryRow) {
    && row.attemptCount <= row.plan.maxAttempts
    && match row.status
       case Queued => row.attemptCount == 0 < row.plan.maxAttempts && row.version == 1
       case Sending => row.attemptCount >= 1 && row.version == 2 * row.attemptCount
       case Retrying => 1 <= row.attemptCount < row.plan.maxAttempts && row.version == 2 * row.attemptCount + 1
       case Sent => row.attemptCount >= 1 && row.version == 2 * row.attemptCount + 1
       case FailedPermanently => row.attemptCount >= 1 && row.version == 2 * row.attemptCount + 1
       case Delivered => row.attemptCount >= 1 && row.version == 2 * row.attemptCount + 2
  }

  /** Exact delivery accounting, for every log that agrees with its row. */
  lemma {:induction false} Accounting(row: DeliveryRow, log: seq<LogEntry>)
    requires Agrees(row, log)
    ensures Balanced(row)
    ensures |log| == row.version <= 2 * row.plan.maxAttempts + 2
    decreases |log|
  {
    if |log| > 1 {
      var front := log[..|log| - 1];
      var before := Replay(row.plan, front).value;
      ReplayKeepsPlan(row.plan, front);
      Accounting(before, front);
    }
  }

  lemma {:induction false} ReplayKeepsPlan(plan: DeliveryPlan, log: seq<LogEntry>)
    requires Replay(plan, log).Some?
    ensures Replay(plan, log).value.plan == plan
  {
    if |log| > 1 {
      ReplayKeepsPlan(plan, log[..|log| - 1]);
    }
  }

  /** The counters stay inside their machine widths: attempts in 32 bits, version in 64. */
  lemma CountersNeverOverflow(row: DeliveryRow, log: seq<LogEntry>)
    requires Agrees(row, log) && row.plan.maxAttempts < 0x1_0000_0000
    ensures row.attemptCount < 0x1_0000_0000
    ensures row.version < 0x1_0000_0000_0000_0000
    ensures Started(row).Success? ==> Started(row).value.row.attemptCount < 0x1_0000_0000
  {
    Accounting(row, log);
  }

  /** Event versions are 1, 2, ..., version: no gap, no repeat. */
  lemma {:induction false} VersionsAreGapFree(row: DeliveryRow, log: seq<LogEntry>, i: nat)
    requires Agrees(row, log) && i < |log|
    ensures log[i].version == i + 1
    decreases |log|
  {
    Accounting(row, log);
    if |log| > 1 {
      var front := log[..|log| - 1];
      var before := Replay(row.plan, front).value;
      ReplayKeepsPlan(row.plan, front);
      Accounting(before, front);
      if i < |front| {
        VersionsAreGapFree(before, front, i);
      }
    }
  }

  /** Attempts are numbered in order, none twice and none beyond the count. */
  lemma {:induction false} AttemptNumbersIncrease(row: DeliveryRow, log: seq<LogEntry>, i: nat, j: nat)
    requires Agrees(row, log) && i < j < |log|
    requires log[i].attempt.Some? && log[j].attempt.Some?
    ensures 1 <= log[i].attempt.value.number < log[j].attempt.value.number <= row.attemptCount
    decreases |log|
  {
    var front := log[..|log| - 1];
    var before := Replay(row.plan, front).value;
    ReplayKeepsPlan(row.plan, front);
    if j < |front| {
      AttemptNumbersIncrease(before, front, i, j);
    } else {
      EndedAttemptsAreCounted(before, front, i);
    }
  }

  /** An attempt that ended is strictly below the count while a later one is in flight. */
  lemma {:induction false} EndedAttemptsAreCounted(row: DeliveryRow, log: seq<LogEntry>, i: nat)
    requires Agrees(row, log) && i < |log| && log[i].attempt.Some?
    ensures 1 <= log[i].attempt.value.number <= row.attemptCount
    ensures row.status == Sending ==> log[i].attempt.value.number < row.attemptCount
    decreases |log|
  {
    Accounting(row, log);
    if |log| > 1 {
      var front := log[..|log| - 1];
      var before := Replay(row.plan, front).value;
      ReplayKeepsPlan(row.plan, front);
      Accounting(before, front);
      if i < |front| {
        EndedAttemptsAreCounted(before, front, i);
      }
    }
  }

  predicate IsSentEntry(entry: LogEntry) {
    entry.attempt.Some? && entry.attempt.value.outcome.SentAs?
  }

  ghost predicate HasBeenSent(log: seq<LogEntry>) {
    exists i :: 0 <= i < |log| && IsSentEntry(log[i])
  }

  /** A delivery with a successful attempt on record is Sent or Delivered, and conversely. */
  lemma {:induction false} SentIffRecorded(row: DeliveryRow, log: seq<LogEntry>)
    requires Agrees(row, log)
    ensures HasBeenSent(log) <==> row.status == Sent || row.status == Delivered
    decreases |log|
  {
    if |log| > 1 {
      var front, last := log[..|log| - 1], log[|log| - 1];
      assert log == front + [last];
      var before := Replay(row.plan, front).value;
      ReplayKeepsPlan(row.plan, front);
      SentIffRecorded(before, front);
      if HasBeenSent(front) {
        var i :| 0 <= i < |front| && IsSentEntry(front[i]);
        assert IsSentEntry(log[i]);
      }
      if IsSentEntry(last) {
        assert IsSentEntry(log[|log| - 1]);
      } else if HasBeenSent(log) {
        var i :| 0 <= i < |log| && IsSentEntry(log[i]);
        assert IsSentEntry(front[i]);
      }
    } else {
      assert !IsSentEntry(log[0]);
    }
  }

  /** At most one delivered event: once it is written nothing follows it. */
  lemma {:induction false} DeliveredIsLast(row: DeliveryRow, log: seq<LogEntry>, i: nat)
    requires Agrees(row, log) && i < |log| && log[i].event == DeliveryDelivered
    ensures i == |log| - 1 && row.status == Delivered
    decreases |log|
  {
    if i < |log| - 1 {
      var front := log[..|log| - 1];
      ReplayKeepsPlan(row.plan, front);
      DeliveredIsLast(Replay(row.plan, front).value, front, i);
      assert false;
    }
  }

  // ---- Time spent waiting between attempts ----

  /** The backoff a row carries while it waits to be retried. */
  function RetryBackoff(row: DeliveryRow): Option<nat> {
    if row.status == Retrying then Some(BackoffAfterAttempt(row.attemptCount)) else None
  }

  /** All the backoff ever set along a log. */
  function TotalBackoff(plan: DeliveryPlan, log: seq<LogEntry>): nat {
    if |log| == 0 then 0
    else
      TotalBackoff(plan, log[..|log| - 1]) +
      match Replay(plan, log)
      case None => 0
      case Some(row) => match RetryBackoff(row) case None => 0 case Some(delay) => delay
  }

  /** min(30 * 2^(k-1), 1800) summed over k = 1..n. */
  function BackoffSum(n: nat): nat {
    if n == 0 then 0
    else BackoffSum(n - 1) + if 30 * Pow2(n - 1) < 1800 then 30 * Pow2(n - 1) else 1800
  }

  lemma {:induction false} BackoffSumMonotone(m: nat, n: nat)
    requires m <= n
    ensures BackoffSum(m) <= BackoffSum(n)
  {
    if m < n {
      BackoffSumMonotone(m, n - 1);
    }
  }

  /** How many retries have been scheduled so far. */
  function Retries(row: DeliveryRow): nat {
    if row.status == Retrying || row.attemptCount == 0 then row.attemptCount else row.attemptCount - 1
  }

  /** The waiting so far is exactly the formula summed over the retries scheduled. */
  lemma {:induction false} BackoffIsExact(row: DeliveryRow, log: seq<LogEntry>)
    requires Agrees(row, log)
    ensures TotalBackoff(row.plan, log) == BackoffSum(Retries(row))
    decreases |log|
  {
    Accounting(row, log);
    if |log| > 1 {
      var front := log[..|log| - 1];
      var before := Replay(row.plan, front).value;
      ReplayKeepsPlan(row.plan, front);
      Accounting(before, front);
      BackoffIsExact(before, front);
      if row.status == Retrying {
        BackoffFormula(row.attemptCount);
      }
    } else {
      assert TotalBackoff(row.plan, log[..0]) == 0;
    }
  }

  /** However a delivery with m attempts runs, it waits at most the sum for 1..m-1. */
  lemma BackoffIsBounded(row: DeliveryRow, log: seq<LogEntry>)
    requires Agrees(row, log)
    ensures TotalBackoff(row.plan, log) <= BackoffSum(row.plan.maxAttempts - 1)
  {
    Accounting(row, log);
    BackoffIsExact(row, log);
    BackoffSumMonotone(Retries(row), row.plan.maxAttempts - 1);
  }
}
