/** The emission task: a short locked phase that marks the order as being emitted, the
    provider call made outside the lock, the recording of the outcome, and the enqueuing
    of the issued invoice for polling. */
module CreateInvoiceTask {
  import opened Wrappers
  import opened InvoiceSyncQueue
  import opened InvoiceUseCases

  const MAX_RETRIES: nat := 5

  predicate MayEmit(order: Invoice)
  {
    order.externalId == "" && order.status != Emitting
  }

  function Claimed(order: Invoice): Invoice
  {
    order.(status := Emitting, attempts := order.attempts + 1)
  }

  function EmissionRetry(order: Invoice, message: string): Invoice
  {
    order.(status := Retrying, lastError := Some(Truncate(message)))
  }

  function EmissionFailure(order: Invoice, message: string): Invoice
  {
    order.(status := EmissionFailed, lastError := Some(Truncate(message)))
  }

  /** The stored columns after the provider has answered, given the copy read in phase 1. */
  function RecordEmission(stored: Invoice, copy: Invoice, answer: EmissionAnswer): Invoice
  {
    match answer
    case Issued(externalId, hash) => RecordIssued(copy, externalId, hash)
    case EmitTemporary(message) => EmissionRetry(stored, message)
    case EmitPermanent(message) => EmissionFailure(stored, message)
    case EmitUnexpected(message) => EmissionFailure(stored, message)
  }

  /** Get-or-create of the queue entry. */
  function Enqueued(entry: Option<Row>, now: Time): Option<Row>
  {
    if entry.Some? then entry else Some(NewRow(now))
  }

  datatype Outcome = IssuedOutcome | RetryScheduled | RetriesExceeded | FailedOutcome

  /** One execution of the emission task; `retries` counts the executions of the same
      dispatch chain that came before it. */
  class CreateInvoiceWorker {
    const db: Database
    const retries: nat
    var order: Invoice

    constructor (db: Database, retries: nat)
      ensures this.db == db && this.retries == retries
    {
      this.db := db;
      this.retries := retries;
      this.order := db.order;
    }

    /** Phase 1, under the row lock. */
    method Claim() returns (claimed: bool)
      modifies this, db`order
      ensures claimed <==> MayEmit(old(db.order))
      ensures claimed <==> old(db.order).externalId == "" && old(db.order).status != Emitting
      ensures claimed ==> db.order == Claimed(old(db.order)) && order == db.order
      ensures claimed ==> db.order == old(db.order).(status := Emitting, attempts := old(db.order).attempts + 1)
      ensures !claimed ==> db.order == old(db.order)
    {
      order := db.order;
      if order.externalId != "" {
        return false;
      }
      if order.status == Emitting {
        return false;
      }
      order := order.(status := Emitting);
      order := order.(attempts := order.attempts + 1);
      db.order := db.order.(status := order.status, attempts := order.attempts);
      return true;
    }

    /** Phase 2: the provider's answer is recorded; a temporary error asks for a retry of
        the chain until the retries are spent. */
    method Emit(answer: EmissionAnswer) returns (outcome: Outcome)
      modifies this, db`order
      ensures db.order == RecordEmission(old(db.order), old(order), answer)
      ensures outcome.IssuedOutcome? <==> answer.Issued?
      ensures outcome.RetryScheduled? <==> answer.EmitTemporary? && retries < MAX_RETRIES
      ensures outcome.RetriesExceeded? <==> answer.EmitTemporary? && retries >= MAX_RETRIES
    {
      match answer {
        case Issued(externalId, hash) =>
          order := order.(status := Submitted);
          order := order.(externalId := externalId);
          order := order.(hash := hash);
          db.order := order;
          return IssuedOutcome;
        case EmitTemporary(message) =>
          db.order := db.order.(status := Retrying, lastError := Some(Truncate(message)));
          return if retries < MAX_RETRIES then RetryScheduled else RetriesExceeded;
        case EmitPermanent(message) =>
          db.order := db.order.(status := EmissionFailed, lastError := Some(Truncate(message)));
          return FailedOutcome;
        case EmitUnexpected(message) =>
          db.order := db.order.(status := EmissionFailed, lastError := Some(Truncate(message)));
          return FailedOutcome;
      }
    }

    /** Clears the last error and enqueues the issued invoice. */
    method Enqueue(now: Time) returns (created: bool)
      modifies db
      ensures db.order == old(db.order).(lastError := None)
      ensures db.entry == Enqueued(old(db.entry), now)
      ensures old(db.entry).Some? ==> db.entry == old(db.entry)
      ensures created <==> old(db.entry) == None
    {
      db.order := db.order.(lastError := None);
      if db.entry == None {
        db.entry := Some(NewRow(now));
        return true;
      }
      return false;
    }

    /** The whole task when nothing interferes: an order is issued at most once, and an
        issued order ends with a queue entry. */
    method Run(answer: EmissionAnswer, now: Time) returns (called: bool)
      modifies this, db
      ensures called <==> MayEmit(old(db.order))
      ensures !called ==> db.order == old(db.order) && db.entry == old(db.entry)
      ensures called && answer.Issued? ==>
                && db.order.externalId == answer.externalId && db.order.hash == answer.hash
                && db.order.status == Submitted && db.order.lastError == None
                && db.entry.Some? && !MayEmit(db.order)
      ensures called && !answer.Issued? ==>
                && db.order.externalId == "" && db.order.hash == old(db.order).hash
                && db.entry == old(db.entry) && MayEmit(db.order)
      ensures db.order.attempts == old(db.order).attempts + if called then 1 else 0
    {
      called := Claim();
      if !called {
        return;
      }
      var outcome := Emit(answer);
      if outcome == IssuedOutcome {
        var _ := Enqueue(now);
      }
    }
  }
}
