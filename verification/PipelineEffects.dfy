/** What each step of the invoice pipeline leaves in the database, column by column, from
    the old rows and the provider's answer alone. */
module PipelineEffects {
  import opened Wrappers
  import opened InvoiceSyncQueue
  import opened InvoiceUseCases
  import opened SyncInvoiceTask
  import opened CreateInvoiceTask
  import opened InvoicePipeline
  import opened PipelineEmission
  import opened PipelineNumbering
  import opened PipelineExclusion

  // ---------------------------------------------------------------- emission

  /** A waiting chain calls the provider exactly if the order has no invoice id and is not
      being emitted, and then counts the attempt; otherwise it is over. */
  lemma StartOutcome(s: State, c: nat)
    requires c in s.chains && s.chains[c].Waiting?
    ensures var t := Apply(s, StartCall(c));
            && t.entry == s.entry && t.pollers == s.pollers
            && if s.order.externalId == "" && s.order.status != Emitting then
                 && t.order == s.order.(status := Emitting, attempts := s.order.attempts + 1)
                 && t.chains == s.chains[c := Calling(s.chains[c].retries, t.order)]
               else
                 t.order == s.order && t.chains == s.chains[c := Finished]
  {
  }

  /** What the provider's answer to an emission stores. A success writes the whole row from
      the task's copy; an error writes the status and the cut error. */
  lemma EmissionIsRecorded(stored: Invoice, copy: Invoice, answer: EmissionAnswer)
    ensures var order := RecordEmission(stored, copy, answer);
            match answer
            case Issued(externalId, hash) =>
              && order.status == Submitted && order.externalId == externalId && order.hash == hash
              && order.attempts == copy.attempts && order.lastError == copy.lastError
            case EmitTemporary(message) =>
              order == stored.(status := Retrying, lastError := Some(Truncate(message)))
            case EmitPermanent(message) =>
              order == stored.(status := EmissionFailed, lastError := Some(Truncate(message)))
            case EmitUnexpected(message) =>
              order == stored.(status := EmissionFailed, lastError := Some(Truncate(message)))
  {
  }

  /** In every run, the answer to a call in flight decides the order's columns and where its
      chain goes: a temporary error leaves the order retrying, and the chain waiting exactly
      when fewer than five retries have been made. */
  lemma CallOutcome(s0: State, before: seq<Step>, c: nat, answer: EmissionAnswer)
    requires Initial(s0) && c in Run(s0, before).chains && Run(s0, before).chains[c].Calling?
    ensures var s := Run(s0, before);
            var t := Apply(s, FinishCall(c, answer));
            var retries := s.chains[c].retries;
            && t.entry == s.entry && t.pollers == s.pollers && t.chains.Keys == s.chains.Keys
            && (forall d :: d in s.chains && d != c ==> t.chains[d] == s.chains[d])
            && match answer
               case Issued(externalId, hash) =>
                 && t.order == s.order.(status := Submitted, externalId := externalId, hash := hash)
                 && t.chains[c] == Recording(retries)
               case EmitTemporary(message) =>
                 && t.order == s.order.(status := Retrying, lastError := Some(Truncate(message)))
                 && t.chains[c] == if retries < 5 then Waiting(retries + 1) else Finished
               case EmitPermanent(message) =>
                 && t.order == s.order.(status := EmissionFailed, lastError := Some(Truncate(message)))
                 && t.chains[c] == Finished
               case EmitUnexpected(message) =>
                 && t.order == s.order.(status := EmissionFailed, lastError := Some(Truncate(message)))
                 && t.chains[c] == Finished
  {
    EmissionRun(s0, before);
    var s := Run(s0, before);
    assert s.chains[c].copy == s.order;
    EmissionIsRecorded(s.order, s.order, answer);
  }

  /** In every run, an order becomes failed only by a final answer to its call, or by a
      failed enqueue. */
  lemma FailedOnlyBy(s0: State, before: seq<Step>, step: Step)
    requires Initial(s0) && Run(s0, before).order.status != EmissionFailed
    requires Apply(Run(s0, before), step).order.status == EmissionFailed
    ensures var s := Run(s0, before);
            || (step.FinishCall? && step.chain in s.chains && s.chains[step.chain].Calling?
                && (step.outcome.EmitPermanent? || step.outcome.EmitUnexpected?))
            || (step.Enqueue? && !step.ok && step.chain in s.chains && s.chains[step.chain].Recording?)
  {
    EmissionRun(s0, before);
  }

  /** In every run, recording an issue queues it: a pending entry without attempts or lock,
      due in a minute. */
  lemma EnqueueOutcome(s0: State, before: seq<Step>, c: nat, message: string)
    requires Initial(s0) && c in Run(s0, before).chains && Run(s0, before).chains[c].Recording?
    ensures var s := Run(s0, before);
            var t := Apply(s, Enqueue(c, true, message));
            && t.order == s.order.(lastError := None) && t.chains == s.chains[c := Finished]
            && t.entry == Some(Row(Pending, 0, s.clock + 60 * SECOND, None, None, None, None, None, None))
  {
    EmissionRun(s0, before);
  }

  /** The order is issued, and no chain will queue it any more. */
  ghost predicate Unqueued(s: State)
  {
    && s.order.externalId != "" && s.entry == None && s.pollers == map[]
    && (forall c :: c in s.chains ==> !Busy(s.chains[c]))
  }

  lemma {:induction false} UnqueuedRun(s: State, steps: seq<Step>)
    requires Unqueued(s)
    ensures Unqueued(Run(s, steps)) && Run(s, steps).order == s.order
    decreases |steps|
  {
    if steps != [] {
      assert Unqueued(Apply(s, steps[0])) && Apply(s, steps[0]).order == s.order;
      UnqueuedRun(Apply(s, steps[0]), steps[1..]);
    }
  }

  /** An issue whose enqueue fails, or whose worker dies before it, is never queued, over
      every run: the order keeps its invoice id, and its status is never asked for. */
  lemma LostIssueIsNeverQueued(s0: State, before: seq<Step>, c: nat, lost: Step, after: seq<Step>)
    requires Initial(s0) && c in Run(s0, before).chains && Run(s0, before).chains[c].Recording?
    requires lost == CrashChain(c) || (lost.Enqueue? && lost.chain == c && !lost.ok)
    ensures var s := Run(s0, before);
            var t := Run(Apply(s, lost), after);
            && t.entry == None && t.pollers == map[]
            && t.order == if lost.Enqueue?
                          then s.order.(status := EmissionFailed, lastError := Some(Truncate(lost.message)))
                          else s.order
  {
    EmissionRun(s0, before);
    var next := Apply(Run(s0, before), lost);
    assert Unqueued(next);
    UnqueuedRun(next, after);
  }

  // ---------------------------------------------------------------- polling

  /** A dispatched poll starts exactly on an entry that is pending or processing and has no
      lock younger than ten minutes; it stamps and counts itself, and copies both rows. */
  lemma AcquireOutcome(s: State, w: nat)
    requires w !in s.pollers
    ensures var t := Apply(s, Acquire(w));
            var free := && s.entry.Some? && (s.entry.value.status.Pending? || s.entry.value.status.Processing?)
              && (s.entry.value.lockedAt == None || s.entry.value.lockedAt.value <= s.clock - 600 * SECOND);
            if !free then t == s
            else
              && t.order == s.order && t.chains == s.chains && t.entry.Some?
              && t.entry.value == s.entry.value.(lockedAt := Some(s.clock), lastAttemptAt := Some(s.clock),
                                                 status := Processing, attempts := s.entry.value.attempts + 1)
              && t.pollers == s.pollers[w := Querying(s.clock, t.entry.value, s.order)]
  {
    if s.entry.Some? {
      FreeMeans(s.entry.value, s.clock);
    }
  }

  lemma FreeMeans(row: Row, now: Time)
    ensures CanAcquire(row, now) <==>
            && (row.status.Pending? || row.status.Processing?)
            && (row.lockedAt == None || row.lockedAt.value <= now - 600 * SECOND)
  {
  }

  /** What a status query stores. A reply writes the status its flags decide and, if the
      worker's copy has none, the hash; an error writes nothing. */
  lemma QueryIsRecorded(stored: Invoice, copy: Invoice, answer: Answer)
    ensures var effect := QueryInvoice(stored, copy, answer);
            if copy.externalId == "" || !answer.Reply? then effect.stored == stored && effect.copy == copy
            else
              var status := if answer.rejected then Rejected
                            else if answer.observed then Observed
                            else if answer.accepted then Accepted
                            else SyncPending;
              var fillsHash := answer.hash != "" && copy.hash == "";
              && effect.stored == stored.(status := status, hash := if fillsHash then answer.hash else stored.hash)
              && effect.copy == copy.(status := status, hash := if fillsHash then answer.hash else copy.hash)
  {
  }

  /** How the task takes the answer: only a reply with a flag settles the invoice. */
  lemma VerdictOfAnswer(stored: Invoice, copy: Invoice, answer: Answer)
    ensures var verdict := QueryInvoice(stored, copy, answer).verdict;
            if copy.externalId == "" then verdict == PermanentFailure(MISSING_EXTERNAL_ID)
            else match answer
              case Reply(accepted, observed, rejected, _, raw) =>
                verdict == if accepted || observed || rejected then Settled(raw) else Unsettled(raw)
              case QueryTemporary(message) => verdict == TemporaryFailure(message)
              case QueryPermanent(message) => verdict == PermanentFailure(message)
              case QueryUnexpected(message) => verdict == UnexpectedFailure(message)
  {
  }

  /** In every run, a reply to a querying worker leaves the flags' status on the order, and
      its hash if the worker's copy had none; nothing else of the database changes, and in
      an admissible run that hash stays for ever. */
  lemma ReplyOutcome(s0: State, before: seq<Step>, w: nat, answer: Answer)
    requires Initial(s0) && w in Run(s0, before).pollers && Run(s0, before).pollers[w].Querying? && answer.Reply?
    ensures var s := Run(s0, before);
            var t := Apply(s, Query(w, answer));
            && t.entry == s.entry && t.chains == s.chains && t.log == s.log
            && (t.order.status == Rejected <==> answer.rejected)
            && (t.order.status == Observed <==> answer.observed && !answer.rejected)
            && (t.order.status == Accepted <==> answer.accepted && !answer.observed && !answer.rejected)
            && t.order.status in {Rejected, Observed, Accepted, SyncPending}
            && t.order.hash ==
               (if answer.hash != "" && s.pollers[w].order.hash == "" then answer.hash else s.order.hash)
            && t.order == s.order.(status := t.order.status, hash := t.order.hash)
            && w in t.pollers && t.pollers[w].Answered? && t.pollers[w].entry == s.pollers[w].entry
            && (t.pollers[w].verdict.Settled? <==> answer.accepted || answer.observed || answer.rejected)
  {
    IssuedLink(s0, before, []);
    var s := Run(s0, before);
    QueryIsRecorded(s.order, s.pollers[w].order, answer);
    VerdictOfAnswer(s.order, s.pollers[w].order, answer);
  }

  lemma ReplyHashStays(s0: State, before: seq<Step>, w: nat, answer: Answer, after: seq<Step>)
    requires Initial(s0) && w in Run(s0, before).pollers && Run(s0, before).pollers[w].Querying?
    requires answer.Reply? && answer.hash != "" && Run(s0, before).pollers[w].order.hash == ""
    requires Admissible(s0, before) && Admissible(Apply(Run(s0, before), Query(w, answer)), after)
    ensures Run(Apply(Run(s0, before), Query(w, answer)), after).order.hash == answer.hash
  {
    ReplyOutcome(s0, before, w, answer);
    InitialInv(s0);
    ExclusionRun(s0, before);
    var s := Run(s0, before);
    var t := Apply(s, Query(w, answer));
    assert [Query(w, answer)][1..] == [] && Run(s, [Query(w, answer)]) == t;
    assert Admissible(t, []);
    ExclusionRun(s, [Query(w, answer)]);
    HashRun(t, after);
  }

  // ---------------------------------------------------------------- saving a verdict

  const RETRY_WAITS: seq<nat> := [300, 900, 1800, 3600, 21600, 86400]

  /** What a verdict saves, column by column: only a poll that ends the entry stamps it,
      only one that leaves it pending moves the retry time, only a reply stores a response,
      and the lock, the attempts and the last attempt are never touched. */
  lemma VerdictIsRecorded(stored: Row, copy: Row, verdict: Verdict, now: Time)
    ensures var row := SaveVerdict(stored, copy, verdict, now);
            && row.status == (match verdict
               case Settled(_) => Completed
               case Unsettled(_) => if copy.attempts >= 7 then Exhausted else Pending
               case TemporaryFailure(_) => Pending
               case PermanentFailure(_) => Failed
               case UnexpectedFailure(_) => Failed)
            && row.completedAt == (if row.status == Pending then stored.completedAt else Some(now))
            && row.exhaustedAt == (if row.status == Exhausted then Some(now) else stored.exhaustedAt)
            && row.nextRetryAt ==
               (if row.status == Pending then now + BackoffDelay(copy.attempts) * SECOND else stored.nextRetryAt)
            && row.lastResponse ==
               (if verdict.Settled? || verdict.Unsettled? then Some(verdict.raw) else stored.lastResponse)
            && row.lastError ==
               (if row.status == Exhausted then Some(EXHAUSTED_MESSAGE)
                else if verdict.Settled? || verdict.Unsettled? then stored.lastError
                else Some(Truncate(verdict.message)))
            && row.attempts == stored.attempts && row.lockedAt == stored.lockedAt
            && row.lastAttemptAt == stored.lastAttemptAt
  {
  }

  /** The wait after the n-th poll, in seconds. */
  lemma RetryWait(attempts: nat)
    requires attempts >= 1
    ensures BackoffDelay(attempts) == if attempts <= 6 then RETRY_WAITS[attempts - 1] else 86400
  {
  }

  /** In every run, a save by the worker of the n-th poll that leaves the entry pending sets
      the next retry the n-th wait from now: five minutes, a quarter of an hour, half an
      hour, an hour, six hours, and a day from then on. */
  lemma SaveOutcome(s0: State, before: seq<Step>, w: nat)
    requires Initial(s0) && w in Run(s0, before).pollers && Run(s0, before).pollers[w].Answered?
    ensures var s := Run(s0, before);
            var t := Apply(s, Save(w));
            var n := s.pollers[w].entry.attempts;
            && s.entry.Some? && t.entry.Some? && n >= 1
            && t.order == s.order && t.chains == s.chains && t.pollers == s.pollers[w := Releasing(s.pollers[w].since)]
            && (t.entry.value.status == Pending ==>
                  t.entry.value.nextRetryAt == s.clock + (if n <= 6 then RETRY_WAITS[n - 1] else 86400) * SECOND)
            && (t.entry.value.status != Pending ==> t.entry.value.completedAt == Some(s.clock))
            && t.entry.value.attempts == s.entry.value.attempts && t.entry.value.lockedAt == s.entry.value.lockedAt
  {
    EmissionRun(s0, before);
    InitialInv(s0);
    NumberingRun(s0, before);
    var s := Run(s0, before);
    assert s.entry.Some?;
    VerdictIsRecorded(s.entry.value, s.pollers[w].entry, s.pollers[w].verdict, s.clock);
    RetryWait(s.pollers[w].entry.attempts);
  }

  /** An effective requeue makes the entry due at once and unlocked, and forgets its error
      and its exhaustion; the attempts stay, so they are not granted anew. */
  lemma RequeueOutcome(s: State)
    requires s.entry.Some? && s.entry.value.status in {Failed, Exhausted, DeadLetter}
    ensures var t := Apply(s, Requeue);
            && t.order == s.order && t.chains == s.chains && t.pollers == s.pollers
            && t.entry == Some(s.entry.value.(status := Pending, lockedAt := None, exhaustedAt := None,
                                              lastError := None, nextRetryAt := s.clock))
  {
  }
}
