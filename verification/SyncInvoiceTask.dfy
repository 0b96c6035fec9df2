/** The poll task: a short locked phase that claims the entry, a query made outside the
    lock, a partial save of the outcome, and the release of the lock. */
module SyncInvoiceTask {
  import opened Wrappers
  import opened InvoiceSyncQueue
  import opened InvoiceUseCases

  const STALE_LOCK: int := 10 * 60 * SECOND
  const SKIPPED_STATUSES: set<QueueStatus> := {Completed, Failed, Exhausted, DeadLetter}
  const EXHAUSTED_MESSAGE := "Max attempts reached without SUNAT resolution"

  predicate LockIsFresh(row: Row, now: Time)
  {
    row.lockedAt.Some? && row.lockedAt.value > now - STALE_LOCK
  }

  predicate CanAcquire(row: Row, now: Time)
  {
    row.status !in SKIPPED_STATUSES && !LockIsFresh(row, now)
  }

  function Acquired(row: Row, now: Time): Row
  {
    row.(lockedAt := Some(now), lastAttemptAt := Some(now), status := Processing, attempts := row.attempts + 1)
  }

  /** The row after a poll has written its verdict from its own, possibly stale, copy. */
  function SaveVerdict(stored: Row, copy: Row, verdict: Verdict, now: Time): Row
  {
    match verdict
    case Settled(raw) =>
      SaveColumns(stored, copy.(status := Completed, completedAt := Some(now), lastResponse := Some(raw)),
                  {StatusColumn, LastResponseColumn, CompletedAtColumn})
    case Unsettled(raw) =>
      if copy.attempts >= MAX_ATTEMPTS then
        SaveColumns(stored,
                    copy.(status := Exhausted, lastError := Some(EXHAUSTED_MESSAGE), exhaustedAt := Some(now),
                          completedAt := Some(now), lastResponse := Some(raw)),
                    {StatusColumn, LastErrorColumn, ExhaustedAtColumn, CompletedAtColumn, LastResponseColumn})
      else
        SaveColumns(stored, Rescheduled(copy, now).(status := Pending, lastResponse := Some(raw)),
                    {StatusColumn, NextRetryAtColumn, LastResponseColumn})
    case TemporaryFailure(message) =>
      SaveColumns(stored, Rescheduled(copy, now).(status := Pending, lastError := Some(Truncate(message))),
                  {StatusColumn, NextRetryAtColumn, LastErrorColumn})
    case PermanentFailure(message) =>
      SaveColumns(stored, copy.(status := Failed, lastError := Some(Truncate(message)), completedAt := Some(now)),
                  {StatusColumn, LastErrorColumn, CompletedAtColumn})
    case UnexpectedFailure(message) =>
      SaveColumns(stored, copy.(status := Failed, lastError := Some(Truncate(message)), completedAt := Some(now)),
                  {StatusColumn, LastErrorColumn, CompletedAtColumn})
  }

  function Released(row: Row): Row
  {
    row.(lockedAt := None)
  }

  /** One execution of the poll task on one entry. `entry` and `order` are its in-memory copies. */
  class SyncInvoiceWorker {
    const db: Database
    var entry: QueueEntry?
    var order: Invoice
    var verdict: Verdict

    constructor (db: Database)
      ensures this.db == db && entry == null
    {
      this.db := db;
      this.entry := null;
      this.order := db.order;
      this.verdict := UnexpectedFailure("");
    }

    /** Phase 1, under the row lock. */
    method Acquire(now: Time) returns (acquired: bool)
      modifies this, db`entry
      ensures acquired <==> old(db.entry).Some? && CanAcquire(old(db.entry).value, now)
      ensures acquired <==>
                && old(db.entry).Some? && old(db.entry).value.status in {Pending, Processing}
                && var lockedAt := old(db.entry).value.lockedAt;
                   lockedAt == None || lockedAt.value <= now - 600 * SECOND
      ensures !acquired ==> db.entry == old(db.entry)
      ensures acquired ==>
                && db.entry == Some(Acquired(old(db.entry).value, now))
                && (var before, after := old(db.entry).value, db.entry.value;
                    after == before.(lockedAt := Some(now), lastAttemptAt := Some(now),
                                     status := Processing, attempts := before.attempts + 1))
                && entry != null && fresh(entry) && Some(entry.Value()) == db.entry
                && order == db.order
    {
      if db.entry == None {
        return false;
      }
      var e := new QueueEntry.FromRow(db.entry.value);
      if e.status == Completed || e.status == Failed || e.status == Exhausted || e.status == DeadLetter {
        return false;
      }
      if e.lockedAt != None {
        var staleCutoff := now - STALE_LOCK;
        if e.lockedAt.value > staleCutoff {
          return false;
        }
      }
      e.lockedAt := Some(now);
      e.lastAttemptAt := Some(now);
      e.status := Processing;
      e.attempts := e.attempts + 1;
      db.entry := Some(SaveColumns(db.entry.value, e.Value(),
        {LockedAtColumn, LastAttemptAtColumn, StatusColumn, AttemptsColumn}));
      entry := e;
      order := db.order;
      return true;
    }

    /** Phase 2, first half: the status query writes the order; errors are kept for `Save`. */
    method Query(answer: Answer)
      modifies this`order, this`verdict, db`order
      ensures QueryEffect(db.order, order, verdict) == QueryInvoice(old(db.order), old(order), answer)
    {
      if order.externalId == "" {
        verdict := PermanentFailure(MISSING_EXTERNAL_ID);
        return;
      }
      match answer {
        case QueryTemporary(message) => verdict := TemporaryFailure(message);
        case QueryPermanent(message) => verdict := PermanentFailure(message);
        case QueryUnexpected(message) => verdict := UnexpectedFailure(message);
        case Reply(accepted, observed, rejected, hash, raw) =>
          var newStatus := ResolveStatus(accepted, observed, rejected);
          if newStatus != order.status {
            order := order.(status := newStatus);
          }
          var stored := db.order.(status := order.status);
          if hash != "" && order.hash == "" {
            order := order.(hash := hash);
            stored := stored.(hash := hash);
          }
          db.order := stored;
          verdict := if order.status in TERMINAL_STATUSES then Settled(raw) else Unsettled(raw);
      }
    }

    /** Phase 2, second half: the verdict is written through the entry's lifecycle helpers. */
    method Save(now: Time)
      requires entry != null && db.entry.Some?
      modifies entry, db`entry
      ensures db.entry == Some(SaveVerdict(old(db.entry).value, old(entry.Value()), verdict, now))
    {
      match verdict {
        case Settled(raw) =>
          entry.MarkCompleted(now);
          entry.lastResponse := Some(raw);
          SaveEntry({StatusColumn, LastResponseColumn, CompletedAtColumn});
        case Unsettled(raw) =>
          entry.lastResponse := Some(raw);
          entry.ScheduleNextRetry(now);
          if entry.ShouldExhaust() {
            entry.MarkExhausted(EXHAUSTED_MESSAGE, now);
            SaveEntry({StatusColumn, LastErrorColumn, ExhaustedAtColumn, CompletedAtColumn, LastResponseColumn});
          } else {
            entry.status := Pending;
            SaveEntry({StatusColumn, NextRetryAtColumn, LastResponseColumn});
          }
        case TemporaryFailure(message) =>
          entry.status := Pending;
          entry.ScheduleNextRetry(now);
          entry.lastError := Some(Truncate(message));
          SaveEntry({StatusColumn, NextRetryAtColumn, LastErrorColumn});
        case PermanentFailure(message) =>
          entry.MarkFailed(message, now);
          SaveEntry({StatusColumn, LastErrorColumn, CompletedAtColumn});
        case UnexpectedFailure(message) =>
          entry.MarkFailed(message, now);
          SaveEntry({StatusColumn, LastErrorColumn, CompletedAtColumn});
      }
    }

    method SaveEntry(columns: set<Column>)
      requires entry != null && db.entry.Some?
      modifies db`entry
      ensures db.entry == Some(SaveColumns(old(db.entry).value, entry.Value(), columns))
    {
      db.entry := Some(SaveColumns(db.entry.value, entry.Value(), columns));
    }

    /** The `finally` block. */
    method Release()
      requires db.entry.Some?
      modifies db`entry
      ensures db.entry == Some(Released(old(db.entry).value))
      ensures db.entry.value == old(db.entry).value.(lockedAt := None)
    {
      db.entry := Some(db.entry.value.(lockedAt := None));
    }

    /** The whole task when nothing interferes: the poll counts once, the lock ends free,
        and the verdict alone decides the final status. */
    method Run(acquireAt: Time, answer: Answer, saveAt: Time) returns (polled: bool)
      modifies this, db
      ensures polled <==> old(db.entry).Some? && CanAcquire(old(db.entry).value, acquireAt)
      ensures !polled ==> db.entry == old(db.entry) && db.order == old(db.order)
      ensures polled ==>
                var effect := QueryInvoice(old(db.order), old(db.order), answer);
                && db.order == effect.stored
                && db.entry.Some?
                && db.entry.value.attempts == old(db.entry).value.attempts + 1
                && db.entry.value.lockedAt == None
                && (db.entry.value.status == Completed <==> effect.verdict.Settled?)
                && (db.entry.value.status == Exhausted <==>
                      effect.verdict.Unsettled? && db.entry.value.attempts >= MAX_ATTEMPTS)
                && (db.entry.value.status == Failed <==>
                      effect.verdict.PermanentFailure? || effect.verdict.UnexpectedFailure?)
                && (db.entry.value.status == Pending ==>
                      db.entry.value.nextRetryAt == saveAt + BackoffDelay(db.entry.value.attempts) * SECOND)
    {
      polled := Acquire(acquireAt);
      if !polled {
        return;
      }
      Query(answer);
      Save(saveAt);
      Release();
    }
  }
}
