/** What the poll lock promises, and exactly when it keeps each promise, over every run and
    with no timing assumption: one poller at a time, a lock on every processing entry, and
    final statuses that stay. */
module PipelineExactness {
  import opened Wrappers
  import opened InvoiceSyncQueue
  import opened InvoiceUseCases
  import opened SyncInvoiceTask
  import opened InvoicePipeline
  import opened PipelineEmission
  import opened PipelineNumbering
  import opened PipelineExclusion

  // ---------------------------------------------------------------- one poller at a time

  ghost predicate AlwaysOnePoller(s: State, steps: seq<Step>)
    decreases |steps|
  {
    OnePoller(s) && (steps != [] ==> AlwaysOnePoller(Apply(s, steps[0]), steps[1..]))
  }

  /** An acquire of an entry that is not final, while another worker is at it that either
      acquired it ten minutes ago or has lost its lock to a requeue. */
  predicate Intrudes(s: State, step: Step)
  {
    && step.Acquire? && step.worker !in s.pollers
    && s.entry.Some? && s.entry.value.status !in SKIPPED_STATUSES
    && exists v :: v in s.pollers
                   && (s.clock >= s.pollers[v].since + STALE_LOCK || s.entry.value.lockedAt == None)
  }

  predicate NeverIntrudes(s: State, steps: seq<Step>)
    decreases |steps|
  {
    steps != [] ==> !Intrudes(s, steps[0]) && NeverIntrudes(Apply(s, steps[0]), steps[1..])
  }

  /** A worker in flight keeps the entry processing, and holds its own lock until a requeue
      may have dropped it. */
  ghost predicate HoldsTheEntry(s: State)
  {
    forall w :: w in s.pollers ==>
      && s.entry.Some?
      && (InFlight(s.pollers[w]) ==> s.entry.value.status == Processing)
      && (s.entry.value.lockedAt == Some(s.pollers[w].since)
          || (s.pollers[w].Releasing? && s.entry.value.lockedAt == None))
  }

  ghost predicate Alone(s: State)
  {
    Ownership(s) && OnePoller(s) && HoldsTheEntry(s)
  }

  lemma AloneAfterPoll(s: State, step: Step)
    requires Alone(s) && IsPollStep(step) && !step.Acquire?
    ensures OnePoller(Apply(s, step)) && HoldsTheEntry(Apply(s, step))
  {
  }

  lemma AloneAfterEmission(s: State, step: Step)
    requires Alone(s) && !IsPollStep(step)
    ensures OnePoller(Apply(s, step)) && HoldsTheEntry(Apply(s, step))
  {
  }

  lemma AloneAfterAcquire(s: State, w: nat)
    requires Alone(s)
    ensures if Intrudes(s, Acquire(w)) then !OnePoller(ApplyAcquire(s, w))
            else OnePoller(ApplyAcquire(s, w)) && HoldsTheEntry(ApplyAcquire(s, w))
  {
    var t := ApplyAcquire(s, w);
    if Intrudes(s, Acquire(w)) {
      var v :| v in s.pollers
               && (s.clock >= s.pollers[v].since + STALE_LOCK || s.entry.value.lockedAt == None);
      assert v in t.pollers && w in t.pollers && v != w;
    } else if s.pollers != map[] {
      var v :| v in s.pollers;
      assert s.entry.Some? && (IsTerminal(s) || w in s.pollers || LockIsFresh(s.entry.value, s.clock));
    }
  }

  lemma AloneStep(s: State, step: Step)
    requires Alone(s)
    ensures if Intrudes(s, step) then !OnePoller(Apply(s, step)) else Alone(Apply(s, step))
  {
    OwnershipStep(s, step);
    hide Ownership;
    hide OnePoller;
    hide HoldsTheEntry;
    if step.Acquire? {
      AloneAfterAcquire(s, step.worker);
    } else if IsPollStep(step) {
      AloneAfterPoll(s, step);
    } else {
      AloneAfterEmission(s, step);
    }
  }

  lemma {:induction false} AloneRun(s: State, steps: seq<Step>)
    requires Alone(s)
    ensures AlwaysOnePoller(s, steps) <==> NeverIntrudes(s, steps)
    decreases |steps|
  {
    if steps != [] {
      AloneStep(s, steps[0]);
      var next := Apply(s, steps[0]);
      if Intrudes(s, steps[0]) {
        assert !AlwaysOnePoller(next, steps[1..]);
      } else {
        AloneRun(next, steps[1..]);
      }
    }
  }

  /** Over every run, with no assumption on its timing or its requeues: no two workers are
      ever at one entry exactly when no acquire intrudes on a worker whose ten minutes are
      up, or whose lock a requeue has dropped before its release. */
  lemma OnePollerExactly(s0: State, steps: seq<Step>)
    requires Initial(s0)
    ensures AlwaysOnePoller(s0, steps) <==> NeverIntrudes(s0, steps)
  {
    AloneRun(s0, steps);
  }

  lemma {:induction false} AdmissibleRun(s: State, steps: seq<Step>)
    requires EmissionInv(s) && NumberingInv(s) && ExclusionInv(s) && Admissible(s, steps)
    ensures NeverIntrudes(s, steps)
    decreases |steps|
  {
    if steps != [] {
      var next := Apply(s, steps[0]);
      assert [steps[0]][1..] == [] && Run(s, [steps[0]]) == next && Admissible(next, []);
      ExclusionRun(s, [steps[0]]);
      AdmissibleRun(next, steps[1..]);
    }
  }

  /** Polls that end in time and requeues that find nobody intrude on nobody. */
  lemma AdmissibleRunsDoNotIntrude(s0: State, steps: seq<Step>)
    requires Initial(s0) && Admissible(s0, steps)
    ensures NeverIntrudes(s0, steps) && AlwaysOnePoller(s0, steps)
  {
    InitialInv(s0);
    AdmissibleRun(s0, steps);
    OnePollerExactly(s0, steps);
  }

  // ---------------------------------------------------------------- processing entries are locked

  predicate LockedWhileProcessing(s: State)
  {
    s.entry.Some? && s.entry.value.status == Processing ==> s.entry.value.lockedAt.Some?
  }

  predicate AlwaysLocked(s: State, steps: seq<Step>)
    decreases |steps|
  {
    LockedWhileProcessing(s) && (steps != [] ==> AlwaysLocked(Apply(s, steps[0]), steps[1..]))
  }

  /** A release that finds the entry still processing: its own poll was interrupted before
      the save, or another worker has taken the entry over. */
  predicate UnlocksProcessing(s: State, step: Step)
  {
    && step.Release? && step.worker in s.pollers && s.pollers[step.worker].Releasing?
    && s.entry.Some? && s.entry.value.status == Processing
  }

  predicate NeverUnlocks(s: State, steps: seq<Step>)
    decreases |steps|
  {
    steps != [] ==> !UnlocksProcessing(s, steps[0]) && NeverUnlocks(Apply(s, steps[0]), steps[1..])
  }

  lemma LockStep(s: State, step: Step)
    requires LockedWhileProcessing(s)
    ensures LockedWhileProcessing(Apply(s, step)) <==> !UnlocksProcessing(s, step)
  {
  }

  lemma {:induction false} LockRun(s: State, steps: seq<Step>)
    requires LockedWhileProcessing(s)
    ensures AlwaysLocked(s, steps) <==> NeverUnlocks(s, steps)
    decreases |steps|
  {
    if steps != [] {
      LockStep(s, steps[0]);
      if !UnlocksProcessing(s, steps[0]) {
        LockRun(Apply(s, steps[0]), steps[1..]);
      }
    }
  }

  /** Over every run, a processing entry is locked throughout exactly when no release ever
      finds the entry processing. */
  lemma ProcessingIsLockedExactly(s0: State, steps: seq<Step>)
    requires Initial(s0)
    ensures AlwaysLocked(s0, steps) <==> NeverUnlocks(s0, steps)
  {
    LockRun(s0, steps);
  }

  // ---------------------------------------------------------------- final statuses stay

  predicate HasStatus(s: State, status: QueueStatus)
  {
    s.entry.Some? && s.entry.value.status == status
  }

  /** A worker whose save may still write another status than `status`. */
  predicate CanRewrite(p: Poller, status: QueueStatus)
  {
    match p
    case Querying(_, _, order) => status != Failed || order.externalId != ""
    case Answered(_, _, verdict) => status != Failed || !(verdict.PermanentFailure? || verdict.UnexpectedFailure?)
    case Releasing(_) => false
  }

  ghost predicate NobodyRewrites(s: State, status: QueueStatus)
  {
    forall w :: w in s.pollers ==> !CanRewrite(s.pollers[w], status)
  }

  /** Whatever happens, short of a requeue, the entry keeps its status. */
  ghost predicate StatusStays(s: State, status: QueueStatus)
  {
    forall after :: Requeue !in after ==> HasStatus(Run(s, after), status)
  }

  /** Whatever happens, requeues included, the entry keeps its status. */
  ghost predicate StatusStaysForEver(s: State, status: QueueStatus)
  {
    forall after :: HasStatus(Run(s, after), status)
  }

  lemma UntouchedStep(s: State, step: Step, status: QueueStatus)
    requires status in SKIPPED_STATUSES && HasStatus(s, status) && NobodyRewrites(s, status)
    requires step != Requeue || status == Completed
    ensures HasStatus(Apply(s, step), status) && NobodyRewrites(Apply(s, step), status)
  {
  }

  lemma {:induction false} UntouchedRun(s: State, steps: seq<Step>, status: QueueStatus)
    requires status in SKIPPED_STATUSES && HasStatus(s, status) && NobodyRewrites(s, status)
    requires Requeue !in steps || status == Completed
    ensures HasStatus(Run(s, steps), status) && NobodyRewrites(Run(s, steps), status)
    decreases |steps|
  {
    if steps != [] {
      UntouchedStep(s, steps[0], status);
      UntouchedRun(Apply(s, steps[0]), steps[1..], status);
    }
  }

  lemma RunTwo(s: State, a: Step, b: Step)
    ensures Run(s, [a, b]) == Apply(Apply(s, a), b)
  {
    hide Apply;
    assert [a, b] == [a] + [b] && [b] == [b] + [];
    RunHead(s, a, [b]);
    RunHead(Apply(s, a), b, []);
  }

  /** A querying worker: any error writes one status, a temporary one another. */
  lemma QueryingRewrites(s: State, w: nat, status: QueueStatus) returns (after: seq<Step>)
    requires status in SKIPPED_STATUSES
    requires s.entry.Some? && w in s.pollers && s.pollers[w].Querying? && CanRewrite(s.pollers[w], status)
    ensures Requeue !in after && !HasStatus(Run(s, after), status)
  {
    var answer := if status == Failed then QueryTemporary("") else QueryPermanent("");
    after := [Query(w, answer), Save(w)];
    RunTwo(s, Query(w, answer), Save(w));
  }

  /** An answered worker: its verdict writes one status, and if the save of an answer fails,
      the handler writes another. */
  lemma AnsweredRewrites(s: State, w: nat, status: QueueStatus) returns (after: seq<Step>)
    requires status in SKIPPED_STATUSES
    requires s.entry.Some? && w in s.pollers && s.pollers[w].Answered? && CanRewrite(s.pollers[w], status)
    ensures Requeue !in after && !HasStatus(Run(s, after), status)
  {
    if status != Failed && (s.pollers[w].verdict.Settled? || s.pollers[w].verdict.Unsettled?) {
      after := [FailSave(w, ""), Save(w)];
      RunTwo(s, FailSave(w, ""), Save(w));
    } else {
      after := [Save(w)];
      assert after == [Save(w)] + [];
      RunHead(s, Save(w), []);
    }
  }

  /** From any state: a final entry keeps its status until it is requeued exactly when no
      worker is left whose save can write another one. */
  lemma FinalStatusExactly(s: State)
    requires IsTerminal(s)
    ensures StatusStays(s, s.entry.value.status) <==> NobodyRewrites(s, s.entry.value.status)
  {
    var status := s.entry.value.status;
    if NobodyRewrites(s, status) {
      forall after | Requeue !in after ensures HasStatus(Run(s, after), status) {
        UntouchedRun(s, after, status);
      }
    } else {
      var w :| w in s.pollers && CanRewrite(s.pollers[w], status);
      if s.pollers[w].Querying? {
        var after := QueryingRewrites(s, w, status);
      } else {
        var after := AnsweredRewrites(s, w, status);
      }
    }
  }

  /** From any state: a completed entry stays completed for ever, requeues included, exactly
      when no worker is still in flight. */
  lemma CompletionIsFinalExactly(s: State)
    requires HasStatus(s, Completed)
    ensures StatusStaysForEver(s, Completed) <==> !SomeInFlight(s)
  {
    if SomeInFlight(s) {
      FinalStatusExactly(s);
      var w :| w in s.pollers && InFlight(s.pollers[w]);
      assert CanRewrite(s.pollers[w], Completed);
      assert !StatusStays(s, Completed);
    } else {
      forall after ensures HasStatus(Run(s, after), Completed) {
        UntouchedRun(s, after, Completed);
      }
    }
  }

  /** Whatever happens, the order keeps its invoice columns. */
  ghost predicate OrderStaysForEver(s: State)
  {
    forall after :: Run(s, after).order == s.order
  }

  lemma InvoiceStep(s: State, step: Step)
    requires Ownership(s) && HasStatus(s, Completed) && !SomeInFlight(s)
    ensures Apply(s, step).order == s.order && HasStatus(Apply(s, step), Completed) && !SomeInFlight(Apply(s, step))
  {
    UntouchedStep(s, step, Completed);
  }

  lemma {:induction false} InvoiceRun(s: State, steps: seq<Step>)
    requires Ownership(s) && HasStatus(s, Completed) && !SomeInFlight(s)
    ensures Run(s, steps).order == s.order && HasStatus(Run(s, steps), Completed)
    decreases |steps|
  {
    if steps != [] {
      OwnershipStep(s, steps[0]);
      InvoiceStep(s, steps[0]);
      InvoiceRun(Apply(s, steps[0]), steps[1..]);
    }
  }

  /** In every run: once an entry is completed and no worker is in flight, its order's
      invoice columns are never written again; and only then is its completion final. */
  lemma CompletedInvoiceIsFrozen(s0: State, before: seq<Step>)
    requires Initial(s0) && HasStatus(Run(s0, before), Completed)
    ensures var s := Run(s0, before);
            StatusStaysForEver(s, Completed) && OrderStaysForEver(s) <==> !SomeInFlight(s)
  {
    EmissionRun(s0, before);
    var s := Run(s0, before);
    CompletionIsFinalExactly(s);
    if !SomeInFlight(s) {
      forall after ensures Run(s, after).order == s.order {
        InvoiceRun(s, after);
      }
    }
  }
}
