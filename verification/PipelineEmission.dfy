/** Emission: at most one provider call in flight, none after a recorded success, and the
    link between an issued order and its queue entry. None of this needs timing assumptions. */
module PipelineEmission {
  import opened Wrappers
  import opened InvoiceUseCases
  import opened CreateInvoiceTask
  import opened InvoicePipeline

  predicate Busy(chain: Chain)
  {
    chain.Calling? || chain.Recording?
  }

  ghost predicate OneBusyChain(s: State)
  {
    forall c, d :: c in s.chains && d in s.chains && Busy(s.chains[c]) && Busy(s.chains[d]) ==> c == d
  }

  /** A call in flight holds the order in its emission status, still without an invoice. */
  ghost predicate CallsHoldTheOrder(s: State)
  {
    forall c :: c in s.chains && s.chains[c].Calling? ==>
      s.order.status == Emitting && s.order.externalId == "" && s.chains[c].copy == s.order && s.entry == None
  }

  ghost predicate RecordingIsUnqueued(s: State)
  {
    forall c :: c in s.chains && s.chains[c].Recording? ==> s.order.externalId != "" && s.entry == None
  }

  ghost predicate EntryImpliesIssued(s: State)
  {
    && (s.entry.Some? ==> s.order.externalId != "")
    && (s.entry == None ==> s.pollers == map[])
    && (s.order.externalId == "" ==> s.order.hash == "")
    && (forall w :: w in s.pollers && s.pollers[w].Querying? ==> s.pollers[w].order.externalId == s.order.externalId)
  }

  /** The log records an issue exactly when the order has its invoice id; no call starts later. */
  ghost predicate NoCallAfterIssue(s: State)
  {
    && (forall i :: 0 <= i < |s.log| && s.log[i].InvoiceIssued? ==> s.log[i].externalId == s.order.externalId)
    && (s.order.externalId != "" ==> exists i :: 0 <= i < |s.log| && s.log[i].InvoiceIssued?)
    && CallsComeFirst(s.log)
  }

  ghost predicate CallsComeFirst(log: seq<Event>)
  {
    forall i, j :: 0 <= i < j < |log| && log[i].InvoiceIssued? ==> !log[j].CallStarted? && !log[j].InvoiceIssued?
  }

  /** The calls a chain has made, exactly or at most, by where it stands. */
  predicate WithinBudget(chain: Chain, calls: nat)
  {
    match chain
    case Waiting(retries) => retries <= MAX_RETRIES && calls == retries
    case Calling(retries, _) => retries <= MAX_RETRIES && calls == retries + 1
    case Recording(retries) => retries <= MAX_RETRIES && calls == retries + 1
    case Finished => calls <= MAX_RETRIES + 1
  }

  ghost predicate CallBudget(s: State)
  {
    && s.order.attempts == Calls(s.log)
    && (forall c: nat :: c !in s.chains ==> CallsBy(s.log, c) == 0)
    && (forall c: nat :: c in s.chains ==> WithinBudget(s.chains[c], CallsBy(s.log, c)))
  }

  ghost predicate EmissionInv(s: State)
  {
    && Ownership(s)
    && NoCallAfterIssue(s)
    && CallBudget(s)
  }

  ghost predicate Ownership(s: State)
  {
    OneBusyChain(s) && CallsHoldTheOrder(s) && RecordingIsUnqueued(s) && EntryImpliesIssued(s)
  }

  /** A step of the poll side, of the administrator, or of the clock. */
  predicate IsPollStep(step: Step)
  {
    || step.Acquire? || step.Query? || step.Save? || step.FailSave? || step.Interrupt?
    || step.Release? || step.CrashPoller? || step.Requeue? || step.Tick?
  }

  lemma PollOwnership(s: State, step: Step)
    requires Ownership(s) && IsPollStep(step)
    ensures Ownership(Apply(s, step)) && Apply(s, step).order.externalId == s.order.externalId
  {
  }

  lemma CallOwnership(s: State, step: Step)
    requires Ownership(s) && (step.StartCall? || step.FinishCall?)
    ensures Ownership(Apply(s, step))
    ensures s.order.externalId != "" ==> Apply(s, step).order.externalId == s.order.externalId
  {
  }

  lemma QueueOwnership(s: State, step: Step)
    requires Ownership(s) && (step.Dispatch? || step.Enqueue? || step.CrashChain?)
    ensures Ownership(Apply(s, step)) && Apply(s, step).order.externalId == s.order.externalId
  {
  }

  lemma OwnershipStep(s: State, step: Step)
    requires Ownership(s)
    ensures Ownership(Apply(s, step))
    ensures s.order.externalId != "" ==> Apply(s, step).order.externalId == s.order.externalId
  {
    if IsPollStep(step) {
      PollOwnership(s, step);
    } else if step.StartCall? || step.FinishCall? {
      CallOwnership(s, step);
    } else {
      QueueOwnership(s, step);
    }
  }

  /** An issue is recorded exactly when the order receives its invoice id. */
  lemma IssueGrowth(s: State, step: Step)
    requires Ownership(s)
    ensures Apply(s, step).log == s.log + Apply(s, step).log[|s.log|..]
    ensures var events := Apply(s, step).log[|s.log|..];
            && |events| <= 1
            && (s.order.externalId != "" ==> forall e :: e in events ==> !e.InvoiceIssued? && !e.CallStarted?)
            && (s.order.externalId == "" && Apply(s, step).order.externalId != "" ==>
                  events == [InvoiceIssued(Apply(s, step).order.externalId)])
            && (Apply(s, step).order.externalId == "" ==> forall e :: e in events ==> !e.InvoiceIssued?)
  {
  }

  lemma LogStep(s: State, step: Step)
    requires EmissionInv(s)
    ensures NoCallAfterIssue(Apply(s, step))
  {
    OwnershipStep(s, step);
    IssueGrowth(s, step);
    IssuesKept(s, Apply(s, step), Apply(s, step).log[|s.log|..]);
  }

  /** What a log may grow by. */
  lemma IssuesKept(s: State, t: State, events: seq<Event>)
    requires NoCallAfterIssue(s) && t.log == s.log + events && |events| <= 1
    requires s.order.externalId != "" ==>
               && t.order.externalId == s.order.externalId
               && forall e :: e in events ==> !e.InvoiceIssued? && !e.CallStarted?
    requires s.order.externalId == "" && t.order.externalId != "" ==> events == [InvoiceIssued(t.order.externalId)]
    requires t.order.externalId == "" ==> forall e :: e in events ==> !e.InvoiceIssued?
    ensures NoCallAfterIssue(t)
  {
    if s.order.externalId != "" {
      var i :| 0 <= i < |s.log| && s.log[i].InvoiceIssued?;
      assert t.log[i].InvoiceIssued?;
    } else if t.order.externalId != "" {
      assert t.log[|s.log|].InvoiceIssued?;
    }
  }

  predicate StartsCall(s: State, step: Step, c: nat)
  {
    step == StartCall(c) && c in s.chains && s.chains[c].Waiting? && MayEmit(s.order)
  }

  /** A step appends at most one event, and it is a call's start exactly when a call starts. */
  lemma LogGrowth(s: State, step: Step) returns (events: seq<Event>)
    ensures Apply(s, step).log == s.log + events && |events| <= 1
    ensures forall c :: StartsCall(s, step, c) ==> events == [CallStarted(c)]
    ensures forall e :: e in events && e.CallStarted? ==> StartsCall(s, step, e.chain)
  {
    var t := Apply(s, step);
    events := if t.log == s.log then [] else [t.log[|s.log|]];
    assert t.log == s.log + events;
  }

  /** Only the start of a call is counted as a call. */
  lemma CallsCounted(s: State, step: Step, c: nat)
    ensures CallsBy(Apply(s, step).log, c) == CallsBy(s.log, c) + if StartsCall(s, step, c) then 1 else 0
    ensures Calls(Apply(s, step).log)
         == Calls(s.log) + if step.StartCall? && StartsCall(s, step, step.chain) then 1 else 0
  {
    var log := Apply(s, step).log;
    var events := LogGrowth(s, step);
    if events == [] {
      assert log == s.log;
    } else {
      assert log == s.log + [events[0]];
      Appended(s.log, events[0]);
    }
  }

  lemma PollKeepsChains(s: State, step: Step)
    requires IsPollStep(step)
    ensures Apply(s, step).chains == s.chains
  {
  }

  lemma ChainBudget(s: State, step: Step, c: nat)
    requires CallBudget(s)
    ensures c in Apply(s, step).chains ==> WithinBudget(Apply(s, step).chains[c], CallsBy(Apply(s, step).log, c))
    ensures c !in Apply(s, step).chains ==> CallsBy(Apply(s, step).log, c) == 0
  {
    CallsCounted(s, step, c);
    if c in s.chains {
      assert WithinBudget(s.chains[c], CallsBy(s.log, c));
    }
    hide CallsBy;
    hide CallBudget;
    if IsPollStep(step) {
      hide Apply;
      PollKeepsChains(s, step);
    }
  }

  lemma AttemptsCounted(s: State, step: Step)
    requires EmissionInv(s)
    ensures Apply(s, step).order.attempts == Calls(Apply(s, step).log)
  {
    CallsCounted(s, step, 0);
  }

  lemma BudgetStep(s: State, step: Step)
    requires EmissionInv(s)
    ensures CallBudget(Apply(s, step))
  {
    AttemptsCounted(s, step);
    forall c: nat
      ensures c in Apply(s, step).chains ==> WithinBudget(Apply(s, step).chains[c], CallsBy(Apply(s, step).log, c))
      ensures c !in Apply(s, step).chains ==> CallsBy(Apply(s, step).log, c) == 0
    {
      ChainBudget(s, step, c);
    }
  }

  lemma {:induction false} EmissionRun(s: State, steps: seq<Step>)
    requires EmissionInv(s)
    ensures EmissionInv(Run(s, steps))
    ensures s.order.externalId != "" ==> Run(s, steps).order.externalId == s.order.externalId
    decreases |steps|
  {
    if steps != [] {
      OwnershipStep(s, steps[0]);
      LogStep(s, steps[0]);
      BudgetStep(s, steps[0]);
      EmissionRun(Apply(s, steps[0]), steps[1..]);
    }
  }

  /** At-most-once emission, over every run: one call in flight at most, the order marked
      as being emitted meanwhile, no call after a recorded success, and at most six calls
      for one dispatch chain. */
  lemma AtMostOnceEmission(s0: State, steps: seq<Step>)
    requires Initial(s0)
    ensures var s := Run(s0, steps);
            && (forall c, d ::
                  c in s.chains && d in s.chains && s.chains[c].Calling? && s.chains[d].Calling? ==> c == d)
            && (forall c ::
                  c in s.chains && s.chains[c].Calling? ==> s.order.status == Emitting && s.order.externalId == "")
            && (forall i, j :: 0 <= i < j < |s.log| && s.log[i].InvoiceIssued? ==>
                  !s.log[j].CallStarted? && !s.log[j].InvoiceIssued?)
            && (forall c: nat :: CallsBy(s.log, c) <= 6)
            && s.order.attempts == Calls(s.log)
  {
    EmissionRun(s0, steps);
    var s := Run(s0, steps);
    forall c: nat ensures CallsBy(s.log, c) <= 6 {
      if c in s.chains {
        assert WithinBudget(s.chains[c], CallsBy(s.log, c));
      }
    }
  }

  /** The link between emission and polling, over every run: an entry exists only for an
      issued order, so no poll ever meets an order without an invoice id; the id, once
      set, is never rewritten; and the queue insert always finds the queue empty. */
  lemma IssuedLink(s0: State, before: seq<Step>, after: seq<Step>)
    requires Initial(s0)
    ensures var s := Run(s0, before);
            && (s.entry.Some? ==> s.order.externalId != "")
            && (forall w :: w in s.pollers && s.pollers[w].Querying? ==> s.pollers[w].order.externalId != "")
            && (forall c :: c in s.chains && s.chains[c].Recording? ==> s.entry == None)
            && (s.order.externalId != "" ==> Run(s, after).order.externalId == s.order.externalId)
  {
    EmissionRun(s0, before);
    EmissionRun(Run(s0, before), after);
  }

  /** A call whose worker died keeps the order marked as being emitted. */
  ghost predicate CallWasLost(s: State)
  {
    && s.order.status == Emitting && s.order.externalId == "" && s.entry == None && s.pollers == map[]
    && (forall c :: c in s.chains ==> !Busy(s.chains[c]))
  }

  lemma {:induction false} LostCallRun(s: State, steps: seq<Step>)
    requires CallWasLost(s)
    ensures CallWasLost(Run(s, steps)) && Run(s, steps).log == s.log
    decreases |steps|
  {
    if steps != [] {
      assert CallWasLost(Apply(s, steps[0])) && Apply(s, steps[0]).log == s.log;
      LostCallRun(Apply(s, steps[0]), steps[1..]);
    }
  }

  /** A lost call is never repeated, over every run: once a worker dies during its call, no
      later dispatch, retry or poll does anything, and the order stays marked as being
      emitted. */
  lemma LostCallIsNeverRepeated(s0: State, before: seq<Step>, c: nat, after: seq<Step>)
    requires Initial(s0) && c in Run(s0, before).chains && Run(s0, before).chains[c].Calling?
    ensures var s := Run(s0, before);
            var t := Run(Apply(s, CrashChain(c)), after);
            && t.log == s.log && t.order.attempts == s.order.attempts
            && t.order.status == Emitting && t.order.externalId == "" && t.entry == None
  {
    EmissionRun(s0, before);
    var s := Run(s0, before);
    var lost := Apply(s, CrashChain(c));
    assert CallWasLost(lost);
    LostCallRun(lost, after);
    EmissionRun(lost, after);
  }
}
