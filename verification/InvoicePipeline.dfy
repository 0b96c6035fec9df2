/** The invoice pipeline of one order as a protocol: any number of emission chains and
    poll workers interleave, crash, retry and are requeued, in any order.

    Every step is one database transaction, or one provider call with the write that
    follows it. A step that is not enabled changes nothing. */
module InvoicePipeline {
  import opened Wrappers
  import opened InvoiceSyncQueue
  import opened InvoiceUseCases
  import opened SyncInvoiceTask
  import opened CreateInvoiceTask

  /** Where a dispatch chain of the emission task stands. */
  datatype Chain =
    | Waiting(retries: nat)
    | Calling(retries: nat, copy: Invoice)
    | Recording(retries: nat)
    | Finished

  /** Where a poll worker stands; a worker that is not in the map is not polling.
      `since` is the time of its own acquire. */
  datatype Poller =
    | Querying(since: Time, entry: Row, order: Invoice)
    | Answered(since: Time, entry: Row, verdict: Verdict)
    | Releasing(since: Time)

  /** What a run leaves behind. `Saved` holds the status of the row as it was stored. */
  datatype Event =
    | CallStarted(chain: nat)
    | InvoiceIssued(externalId: ExternalId)
    | Polled(worker: nat, attempt: nat)
    | Saved(attempt: nat, verdict: Verdict, status: QueueStatus)
    | PollLost(attempt: nat)
    | ReleaseLost
    | WasRequeued

  datatype State = State(
    order: Invoice,
    entry: Option<Row>,
    clock: Time,
    chains: map<nat, Chain>,
    pollers: map<nat, Poller>,
    log: seq<Event>)

  datatype Step =
    | Dispatch(chain: nat)
    | StartCall(chain: nat)
    | FinishCall(chain: nat, outcome: EmissionAnswer)
    | Enqueue(chain: nat, ok: bool, message: string)
    | CrashChain(chain: nat)
    | Acquire(worker: nat)
    | Query(worker: nat, answer: Answer)
    | Save(worker: nat)
    | FailSave(worker: nat, message: string)
    | Interrupt(worker: nat)
    | Release(worker: nat)
    | CrashPoller(worker: nat)
    | Requeue
    | Tick(elapsed: nat)

  predicate Initial(s: State)
  {
    && s.order.externalId == "" && s.order.hash == "" && s.order.attempts == 0
    && s.entry == None && s.chains == map[] && s.pollers == map[] && s.log == []
  }

  function AfterCall(retries: nat, answer: EmissionAnswer): Chain
  {
    match answer
    case Issued(_, _) => Recording(retries)
    case EmitTemporary(_) => if retries < MAX_RETRIES then Waiting(retries + 1) else Finished
    case EmitPermanent(_) => Finished
    case EmitUnexpected(_) => Finished
  }

  function ApplyDispatch(s: State, c: nat): State
  {
    if c in s.chains then s else s.(chains := s.chains[c := Waiting(0)])
  }

  function ApplyStartCall(s: State, c: nat): State
  {
    if c !in s.chains || !s.chains[c].Waiting? then s
    else if !MayEmit(s.order) then s.(chains := s.chains[c := Finished])
    else
      var claimed := Claimed(s.order);
      s.(order := claimed,
         chains := s.chains[c := Calling(s.chains[c].retries, claimed)],
         log := s.log + [CallStarted(c)])
  }

  function ApplyFinishCall(s: State, c: nat, answer: EmissionAnswer): State
  {
    if c !in s.chains || !s.chains[c].Calling? then s
    else
      s.(order := RecordEmission(s.order, s.chains[c].copy, answer),
         chains := s.chains[c := AfterCall(s.chains[c].retries, answer)],
         log := if answer.Issued? then s.log + [InvoiceIssued(answer.externalId)] else s.log)
  }

  /** An error between the emission and the queue insert is caught like any other: the
      order is marked as failed although it has been issued. */
  function ApplyEnqueue(s: State, c: nat, ok: bool, message: string): State
  {
    if c !in s.chains || !s.chains[c].Recording? then s
    else if ok then
      s.(order := s.order.(lastError := None), entry := Enqueued(s.entry, s.clock), chains := s.chains[c := Finished])
    else
      s.(order := EmissionFailure(s.order, message), chains := s.chains[c := Finished])
  }

  function ApplyCrashChain(s: State, c: nat): State
  {
    if c in s.chains then s.(chains := s.chains[c := Finished]) else s
  }

  function ApplyAcquire(s: State, w: nat): State
  {
    if w in s.pollers || s.entry == None || !CanAcquire(s.entry.value, s.clock) then s
    else
      var row := Acquired(s.entry.value, s.clock);
      s.(entry := Some(row), pollers := s.pollers[w := Querying(s.clock, row, s.order)],
         log := s.log + [Polled(w, row.attempts)])
  }

  function ApplyQuery(s: State, w: nat, answer: Answer): State
  {
    if w !in s.pollers || !s.pollers[w].Querying? then s
    else
      var p := s.pollers[w];
      var effect := QueryInvoice(s.order, p.order, answer);
      s.(order := effect.stored, pollers := s.pollers[w := Answered(p.since, p.entry, effect.verdict)])
  }

  function ApplySave(s: State, w: nat): State
  {
    if w !in s.pollers || !s.pollers[w].Answered? || s.entry == None then s
    else
      var p := s.pollers[w];
      var row := SaveVerdict(s.entry.value, p.entry, p.verdict, s.clock);
      s.(entry := Some(row),
         pollers := s.pollers[w := Releasing(p.since)],
         log := s.log + [Saved(p.entry.attempts, p.verdict, row.status)])
  }

  /** The save of an answer raises: the handler for unexpected errors will save a failure
      instead. The save of an error raises out of phase 2, which is an interruption. */
  function ApplyFailSave(s: State, w: nat, message: string): State
  {
    if w !in s.pollers || !s.pollers[w].Answered? || !(s.pollers[w].verdict.Settled? || s.pollers[w].verdict.Unsettled?)
    then s
    else s.(pollers := s.pollers[w := s.pollers[w].(verdict := UnexpectedFailure(message))])
  }

  predicate InFlight(p: Poller)
  {
    p.Querying? || p.Answered?
  }

  /** An exception that no handler catches, at any point before the save: nothing is
      saved, and the `finally` block is next. */
  function ApplyInterrupt(s: State, w: nat): State
  {
    if w !in s.pollers || !InFlight(s.pollers[w]) then s
    else
      var p := s.pollers[w];
      s.(pollers := s.pollers[w := Releasing(p.since)], log := s.log + [PollLost(p.entry.attempts)])
  }

  function ApplyRelease(s: State, w: nat): State
  {
    if w !in s.pollers || !s.pollers[w].Releasing? || s.entry == None then s
    else s.(entry := Some(Released(s.entry.value)), pollers := s.pollers - {w})
  }

  function ApplyCrashPoller(s: State, w: nat): State
  {
    if w !in s.pollers then s
    else
      var p := s.pollers[w];
      s.(pollers := s.pollers - {w}, log := s.log + [if p.Releasing? then ReleaseLost else PollLost(p.entry.attempts)])
  }

  function ApplyRequeue(s: State): State
  {
    if s.entry == None || s.entry.value.status !in RETRYABLE_STATUSES then s
    else s.(entry := Some(Requeued(s.entry.value, s.clock)), log := s.log + [WasRequeued])
  }

  function Apply(s: State, step: Step): State
  {
    match step
    case Dispatch(c) => ApplyDispatch(s, c)
    case StartCall(c) => ApplyStartCall(s, c)
    case FinishCall(c, answer) => ApplyFinishCall(s, c, answer)
    case Enqueue(c, ok, message) => ApplyEnqueue(s, c, ok, message)
    case CrashChain(c) => ApplyCrashChain(s, c)
    case Acquire(w) => ApplyAcquire(s, w)
    case Query(w, answer) => ApplyQuery(s, w, answer)
    case Save(w) => ApplySave(s, w)
    case FailSave(w, message) => ApplyFailSave(s, w, message)
    case Interrupt(w) => ApplyInterrupt(s, w)
    case Release(w) => ApplyRelease(s, w)
    case CrashPoller(w) => ApplyCrashPoller(s, w)
    case Requeue => ApplyRequeue(s)
    case Tick(elapsed) => s.(clock := s.clock + elapsed)
  }

  function Run(s: State, steps: seq<Step>): State
    decreases |steps|
  {
    if steps == [] then s else Run(Apply(s, steps[0]), steps[1..])
  }

  // ---------------------------------------------------------------- reading the log

  function Polls(log: seq<Event>): nat
  {
    if log == [] then 0 else Polls(log[..|log| - 1]) + if log[|log| - 1].Polled? then 1 else 0
  }

  function Calls(log: seq<Event>): nat
  {
    if log == [] then 0 else Calls(log[..|log| - 1]) + if log[|log| - 1].CallStarted? then 1 else 0
  }

  function CallsBy(log: seq<Event>, c: nat): nat
  {
    if log == [] then 0 else CallsBy(log[..|log| - 1], c) + if log[|log| - 1] == CallStarted(c) then 1 else 0
  }

  /** An inconclusive answer after which the stored row was pending. */
  predicate LeavesPending(e: Event)
  {
    e.Saved? && e.verdict.Unsettled? && e.status == Pending
  }

  /** What has happened to the entry since it was last requeued, or created. */
  datatype Tally = Tally(polls: nat, leftPending: nat, temporary: nat, lost: nat)

  function Tallied(t: Tally, e: Event): Tally
  {
    match e
    case WasRequeued => Tally(0, 0, 0, 0)
    case Polled(_, _) => t.(polls := t.polls + 1)
    case Saved(_, verdict, _) =>
      if LeavesPending(e) then t.(leftPending := t.leftPending + 1)
      else if verdict.TemporaryFailure? then t.(temporary := t.temporary + 1)
      else t
    case PollLost(_) => t.(lost := t.lost + 1)
    case _ => t
  }

  function SinceRequeue(log: seq<Event>): Tally
  {
    if log == [] then Tally(0, 0, 0, 0) else Tallied(SinceRequeue(log[..|log| - 1]), log[|log| - 1])
  }

  /** The positions at which an inconclusive answer left the entry pending. */
  function LeftPendingAt(log: seq<Event>): set<nat>
  {
    set i: nat | i < |log| && LeavesPending(log[i])
  }

  lemma Appended(log: seq<Event>, e: Event)
    ensures (log + [e])[..|log + [e]| - 1] == log
    ensures Polls(log + [e]) == Polls(log) + if e.Polled? then 1 else 0
    ensures Calls(log + [e]) == Calls(log) + if e.CallStarted? then 1 else 0
    ensures forall c :: CallsBy(log + [e], c) == CallsBy(log, c) + if e == CallStarted(c) then 1 else 0
  {
    assert (log + [e])[..|log + [e]| - 1] == log;
  }
}
