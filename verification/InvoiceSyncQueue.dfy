/** The polling queue of issued invoices: one row per order, with its lifecycle helpers.
    Time is in microseconds, the resolution of the stored timestamps. */
module InvoiceSyncQueue {
  import opened Wrappers

  type Time = int

  const SECOND: int := 1_000_000
  const BACKOFF_DELAYS_SECONDS: seq<nat> := [60, 300, 900, 1800, 3600, 21600, 86400]
  const MAX_ATTEMPTS: nat := |BACKOFF_DELAYS_SECONDS|
  const MAX_ERROR_LENGTH: nat := 500

  datatype QueueStatus = Pending | Processing | Completed | Failed | DeadLetter | Exhausted

  const RETRYABLE_STATUSES: set<QueueStatus> := {Failed, Exhausted, DeadLetter}

  /** The stored row. */
  datatype Row = Row(
    status: QueueStatus,
    attempts: nat,
    nextRetryAt: Time,
    lockedAt: Option<Time>,
    lastAttemptAt: Option<Time>,
    completedAt: Option<Time>,
    exhaustedAt: Option<Time>,
    lastError: Option<string>,
    lastResponse: Option<string>)

  datatype Column =
    | StatusColumn | AttemptsColumn | NextRetryAtColumn | LockedAtColumn | LastAttemptAtColumn
    | CompletedAtColumn | ExhaustedAtColumn | LastErrorColumn | LastResponseColumn

  /** A save restricted to `columns`: every other column of the stored row survives,
      however stale the in-memory copy is. */
  function SaveColumns(stored: Row, copy: Row, columns: set<Column>): Row
  {
    Row(
      if StatusColumn in columns then copy.status else stored.status,
      if AttemptsColumn in columns then copy.attempts else stored.attempts,
      if NextRetryAtColumn in columns then copy.nextRetryAt else stored.nextRetryAt,
      if LockedAtColumn in columns then copy.lockedAt else stored.lockedAt,
      if LastAttemptAtColumn in columns then copy.lastAttemptAt else stored.lastAttemptAt,
      if CompletedAtColumn in columns then copy.completedAt else stored.completedAt,
      if ExhaustedAtColumn in columns then copy.exhaustedAt else stored.exhaustedAt,
      if LastErrorColumn in columns then copy.lastError else stored.lastError,
      if LastResponseColumn in columns then copy.lastResponse else stored.lastResponse)
  }

  function Truncate(message: string): (cut: string)
    ensures cut <= message
    ensures |cut| == if |message| <= 500 then |message| else 500
  {
    if |message| <= MAX_ERROR_LENGTH then message else message[..MAX_ERROR_LENGTH]
  }

  function BackoffDelay(attempts: nat): (delay: nat)
    ensures 60 <= delay <= 86400
    ensures attempts >= 1 ==> delay >= 300
  {
    var last := |BACKOFF_DELAYS_SECONDS| - 1;
    BACKOFF_DELAYS_SECONDS[if attempts < last then attempts else last]
  }

  /** Later attempts never wait less. */
  lemma BackoffIsMonotone(a: nat, b: nat)
    requires a <= b
    ensures BackoffDelay(a) <= BackoffDelay(b)
  {
  }

  /** A freshly enqueued invoice. */
  function NewRow(now: Time): Row
  {
    Row(Pending, 0, now + 60 * SECOND, None, None, None, None, None, None)
  }

  function Rescheduled(row: Row, now: Time): Row
  {
    row.(nextRetryAt := now + BackoffDelay(row.attempts) * SECOND)
  }

  function Requeued(row: Row, now: Time): Row
  {
    row.(status := Pending, lockedAt := None, exhaustedAt := None, lastError := None, nextRetryAt := now)
  }

  /** The in-memory entry a task or the admin works on. */
  class QueueEntry {
    var status: QueueStatus
    var attempts: nat
    var nextRetryAt: Time
    var lockedAt: Option<Time>
    var lastAttemptAt: Option<Time>
    var completedAt: Option<Time>
    var exhaustedAt: Option<Time>
    var lastError: Option<string>
    var lastResponse: Option<string>

    function Value(): Row
      reads this
    {
      Row(status, attempts, nextRetryAt, lockedAt, lastAttemptAt, completedAt, exhaustedAt, lastError, lastResponse)
    }

    constructor FromRow(row: Row)
      ensures Value() == row
    {
      status, attempts, nextRetryAt, lockedAt := row.status, row.attempts, row.nextRetryAt, row.lockedAt;
      lastAttemptAt, completedAt, exhaustedAt := row.lastAttemptAt, row.completedAt, row.exhaustedAt;
      lastError, lastResponse := row.lastError, row.lastResponse;
    }

    method ScheduleNextRetry(now: Time)
      modifies this
      ensures Value() == Rescheduled(old(Value()), now)
    {
      var idx := if attempts < |BACKOFF_DELAYS_SECONDS| - 1 then attempts else |BACKOFF_DELAYS_SECONDS| - 1;
      var delay := BACKOFF_DELAYS_SECONDS[idx];
      nextRetryAt := now + delay * SECOND;
    }

    predicate ShouldExhaust()
      reads this
    {
      attempts >= MAX_ATTEMPTS
    }

    method MarkCompleted(now: Time)
      modifies this
      ensures Value() == old(Value()).(status := Completed, completedAt := Some(now))
    {
      status := Completed;
      completedAt := Some(now);
    }

    method MarkFailed(error: string, now: Time)
      modifies this
      ensures Value() == old(Value()).(status := Failed, lastError := Some(Truncate(error)), completedAt := Some(now))
    {
      status := Failed;
      lastError := Some(Truncate(error));
      completedAt := Some(now);
    }

    method MarkExhausted(error: string, now: Time)
      modifies this
      ensures Value() == old(Value()).(
          status := Exhausted, exhaustedAt := Some(now), completedAt := Some(now),
          lastError := if error == "" then old(lastError) else Some(Truncate(error)))
    {
      status := Exhausted;
      exhaustedAt := Some(now);
      completedAt := Some(now);
      if error != "" {
        lastError := Some(Truncate(error));
      }
    }

    /** Refuses, and changes nothing, unless the entry failed, was exhausted or is a dead letter. */
    method Requeue(now: Time) returns (requeued: bool)
      modifies this
      ensures requeued <==> old(status) in {Failed, Exhausted, DeadLetter}
      ensures Value() == if requeued then Requeued(old(Value()), now) else old(Value())
      ensures requeued ==>
                && status == Pending && lockedAt == None && exhaustedAt == None && lastError == None
                && nextRetryAt == now && attempts == old(attempts)
                && lastAttemptAt == old(lastAttemptAt) && completedAt == old(completedAt)
                && lastResponse == old(lastResponse)
    {
      if status !in RETRYABLE_STATUSES {
        return false;
      }
      status := Pending;
      lockedAt := None;
      exhaustedAt := None;
      lastError := None;
      nextRetryAt := now;
      return true;
    }
  }
}
