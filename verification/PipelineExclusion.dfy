/** Polling in time: if every poll is over within ten minutes of its own acquire, and no
    entry is requeued while a worker is still about to release it, at most one worker polls
    an entry. Both conditions are needed, and what an administrator can see before
    requeuing, a lock that is not fresh, is enough for the second. */
module PipelineExclusion {
  import opened Wrappers
  import opened InvoiceSyncQueue
  import opened InvoiceUseCases
  import opened SyncInvoiceTask
  import opened CreateInvoiceTask
  import opened InvoicePipeline
  import opened PipelineEmission
  import opened PipelineNumbering

  const SETTLED_STATUSES: set<InvoiceStatus> := {Accepted, Observed, Rejected}
  const REQUEUE_ONLY: set<QueueStatus> := {Failed, Exhausted}

  ghost predicate Timely(s: State)
  {
    forall w :: w in s.pollers ==> s.clock < s.pollers[w].since + STALE_LOCK
  }

  /** A requeue that takes effect finds no worker. */
  predicate IdleRequeue(s: State, step: Step)
  {
    step == Requeue && s.entry.Some? && s.entry.value.status in RETRYABLE_STATUSES ==> s.pollers == map[]
  }

  ghost predicate Admissible(s: State, steps: seq<Step>)
    decreases |steps|
  {
    && Timely(s)
    && (steps != [] ==> IdleRequeue(s, steps[0]) && Admissible(Apply(s, steps[0]), steps[1..]))
  }

  /** What an administrator can see before requeuing: the entry's lock is not fresh. */
  predicate PoliteRequeue(s: State, step: Step)
  {
    step == Requeue && s.entry.Some? ==> !LockIsFresh(s.entry.value, s.clock)
  }

  ghost predicate Polite(s: State, steps: seq<Step>)
    decreases |steps|
  {
    && Timely(s)
    && (steps != [] ==> PoliteRequeue(s, steps[0]) && Polite(Apply(s, steps[0]), steps[1..]))
  }

  ghost predicate OnePoller(s: State)
  {
    forall v, w :: v in s.pollers && w in s.pollers ==> v == w
  }

  /** The poller owns the lock, and until it saves, its copies are the stored rows. */
  ghost predicate PollerOwnsTheLock(s: State)
  {
    forall w :: w in s.pollers ==>
      && s.entry.Some?
      && s.entry.value.lockedAt == Some(s.pollers[w].since)
      && match s.pollers[w]
         case Querying(_, entry, order) =>
           entry == s.entry.value && order == s.order && s.entry.value.status == Processing
         case Answered(_, entry, verdict) =>
           && entry == s.entry.value && s.entry.value.status == Processing
           && (verdict.Settled? ==> s.order.status in SETTLED_STATUSES)
         case Releasing(_) => true
  }

  ghost predicate RowAgreesWithOrder(s: State)
  {
    s.entry.Some? ==>
      && s.entry.value.status != DeadLetter
      && (s.entry.value.status == Completed ==> s.order.status in SETTLED_STATUSES)
  }

  ghost predicate SomeInFlight(s: State)
  {
    exists w :: w in s.pollers && InFlight(s.pollers[w])
  }

  predicate IsTerminal(s: State)
  {
    s.entry.Some? && s.entry.value.status in SKIPPED_STATUSES
  }

  /** A poll is under way, or one has ended the entry. */
  ghost predicate Engaged(s: State)
  {
    SomeInFlight(s) || IsTerminal(s)
  }

  /** Every poll since the last requeue is accounted for: it left the entry pending, met a
      temporary error, was lost, is under way, or ended the entry. */
  ghost predicate PollsAccountedFor(s: State)
  {
    var t := SinceRequeue(s.log);
    && t.polls == t.leftPending + t.temporary + t.lost + (if Engaged(s) then 1 else 0)
    && t.leftPending <= |LeftPendingAt(s.log)|
  }

  /** A processing entry is being polled, or the poll that marked it was lost. */
  ghost predicate ProcessingExplained(s: State)
  {
    s.entry.Some? && s.entry.value.status == Processing ==>
      SomeInFlight(s) || PollLost(s.entry.value.attempts) in s.log
  }

  /** A lock is held by a processing entry or by a worker about to release it, unless a
      worker died just before its release. */
  predicate LockExplained(s: State)
  {
    s.entry.Some? && s.entry.value.lockedAt.Some? ==>
      s.entry.value.status == Processing || s.pollers != map[] || ReleaseLost in s.log
  }

  ghost predicate ExclusionInv(s: State)
  {
    Polling(s) && PollsAccountedFor(s) && LockExplained(s) && ProcessingExplained(s)
  }

  // ---------------------------------------------------------------- one step

  ghost predicate Polling(s: State)
  {
    OnePoller(s) && PollerOwnsTheLock(s) && RowAgreesWithOrder(s)
  }

  lemma PollKept(s: State, step: Step)
    requires Ownership(s) && Polling(s) && Timely(s) && IdleRequeue(s, step) && IsPollStep(step)
    ensures Polling(Apply(s, step))
    ensures s.order.hash != "" ==> Apply(s, step).order.hash == s.order.hash
  {
  }

  lemma EmissionKept(s: State, step: Step)
    requires Ownership(s) && Polling(s) && !IsPollStep(step)
    ensures Polling(Apply(s, step))
    ensures s.order.hash != "" ==> Apply(s, step).order.hash == s.order.hash
  {
  }

  lemma OwnershipKept(s: State, step: Step)
    requires Ownership(s) && Polling(s) && Timely(s) && IdleRequeue(s, step)
    ensures Polling(Apply(s, step))
    ensures s.order.hash != "" ==> Apply(s, step).order.hash == s.order.hash
  {
    if IsPollStep(step) {
      PollKept(s, step);
    } else {
      EmissionKept(s, step);
    }
  }

  lemma LogTallied(log: seq<Event>, e: Event)
    ensures SinceRequeue(log + [e]) == Tallied(SinceRequeue(log), e)
    ensures |LeftPendingAt(log + [e])| == |LeftPendingAt(log)| + if LeavesPending(e) then 1 else 0
  {
    assert (log + [e])[..|log + [e]| - 1] == log;
    if LeavesPending(e) {
      assert LeftPendingAt(log + [e]) == LeftPendingAt(log) + {|log|};
    } else {
      assert LeftPendingAt(log + [e]) == LeftPendingAt(log);
    }
  }

  /** The events a step appends, by kind; none of them for the steps of the emission. */
  function Appends(s: State, step: Step): (events: seq<Event>)
    ensures |events| <= 1
  {
    match step
    case StartCall(c) =>
      if c in s.chains && s.chains[c].Waiting? && MayEmit(s.order) then [CallStarted(c)] else []
    case FinishCall(c, answer) =>
      if c in s.chains && s.chains[c].Calling? && answer.Issued? then [InvoiceIssued(answer.externalId)] else []
    case Acquire(w) =>
      if w !in s.pollers && s.entry.Some? && CanAcquire(s.entry.value, s.clock)
      then [Polled(w, s.entry.value.attempts + 1)] else []
    case Save(w) =>
      if w in s.pollers && s.pollers[w].Answered? && s.entry.Some?
      then
        var p := s.pollers[w];
        [Saved(p.entry.attempts, p.verdict, SaveVerdict(s.entry.value, p.entry, p.verdict, s.clock).status)]
      else []
    case Interrupt(w) =>
      if w in s.pollers && InFlight(s.pollers[w]) then [PollLost(s.pollers[w].entry.attempts)] else []
    case CrashPoller(w) =>
      if w !in s.pollers then []
      else if s.pollers[w].Releasing? then [ReleaseLost]
      else [PollLost(s.pollers[w].entry.attempts)]
    case Requeue => if s.entry.Some? && s.entry.value.status in RETRYABLE_STATUSES then [WasRequeued] else []
    case _ => []
  }

  lemma AppendsIsTheLog(s: State, step: Step)
    ensures Apply(s, step).log == s.log + Appends(s, step)
  {
  }

  lemma LockStaysExplained(s: State, step: Step)
    requires Ownership(s) && Polling(s) && LockExplained(s)
    ensures LockExplained(Apply(s, step))
  {
    AppendsIsTheLog(s, step);
    var t := Apply(s, step);
    match step {
      case CrashPoller(w) =>
        if w in s.pollers && s.pollers[w].Releasing? {
          assert t.log[|s.log|] == ReleaseLost;
        }
      case Acquire(w) => if t != s { assert w in t.pollers; }
      case Query(w, _) => if t != s { assert w in t.pollers; }
      case Save(w) => if t != s { assert w in t.pollers; }
      case _ =>
    }
  }

  lemma ProcessingStaysExplained(s: State, step: Step)
    requires Ownership(s) && Polling(s) && Timely(s) && IdleRequeue(s, step) && ProcessingExplained(s)
    ensures ProcessingExplained(Apply(s, step))
  {
    AppendsIsTheLog(s, step);
    var t := Apply(s, step);
    var events := Appends(s, step);
    if t.entry.Some? && t.entry.value.status == Processing {
      match step {
        case Acquire(w) => if t != s { assert InFlight(t.pollers[w]); }
        case Query(w, _) => if t != s { assert InFlight(t.pollers[w]); }
        case FailSave(w, _) => if t != s { assert InFlight(t.pollers[w]); }
        case Interrupt(w) => if t != s { assert t.log[|s.log|] == PollLost(t.entry.value.attempts); }
        case CrashPoller(w) =>
          if w in s.pollers && InFlight(s.pollers[w]) { assert t.log[|s.log|] == PollLost(t.entry.value.attempts); }
        case _ =>
      }
    }
  }

  /** A step that appends no event of polling leaves the account as it is. */
  lemma AccountOfTheRest(s: State, step: Step)
    requires Ownership(s) && Polling(s) && Timely(s) && IdleRequeue(s, step)
    requires !step.Acquire? && !step.Save? && !step.Interrupt? && !step.CrashPoller? && step != Requeue
    ensures Engaged(Apply(s, step)) <==> Engaged(s)
  {
    var t := Apply(s, step);
    if SomeInFlight(s) {
      var w :| w in s.pollers && InFlight(s.pollers[w]);
      assert w in t.pollers && InFlight(t.pollers[w]);
    }
  }

  lemma AccountOfAcquire(s: State, w: nat)
    requires Ownership(s) && Polling(s) && Timely(s)
    ensures if Appends(s, Acquire(w)) == [] then Engaged(ApplyAcquire(s, w)) <==> Engaged(s)
            else !Engaged(s) && Engaged(ApplyAcquire(s, w))
  {
    if Appends(s, Acquire(w)) == [] {
      assert ApplyAcquire(s, w) == s;
    } else {
      assert InFlight(ApplyAcquire(s, w).pollers[w]);
    }
  }

  /** A save ends the poll; the entry stays engaged exactly when it does not stay pending. */
  lemma AccountOfSave(s: State, w: nat)
    requires Ownership(s) && Polling(s)
    requires w in s.pollers && s.pollers[w].Answered?
    ensures Engaged(s) && s.entry.Some?
    ensures var e := Appends(s, Save(w))[0];
            Engaged(ApplySave(s, w)) <==> !LeavesPending(e) && !e.verdict.TemporaryFailure?
  {
    var t := ApplySave(s, w);
    assert InFlight(s.pollers[w]) && t.pollers[w].Releasing?;
    assert !SomeInFlight(t);
  }

  /** A poll that is lost leaves the entry neither polled nor ended. */
  lemma AccountOfLoss(s: State, w: nat)
    requires Ownership(s) && Polling(s)
    requires w in s.pollers && InFlight(s.pollers[w])
    ensures Engaged(s) && !Engaged(ApplyInterrupt(s, w)) && !Engaged(ApplyCrashPoller(s, w))
  {
    assert !SomeInFlight(ApplyInterrupt(s, w)) && !SomeInFlight(ApplyCrashPoller(s, w));
  }

  lemma AccountOfLateCrash(s: State, w: nat)
    requires Polling(s) && (w in s.pollers ==> s.pollers[w].Releasing?)
    ensures Engaged(ApplyCrashPoller(s, w)) <==> Engaged(s)
  {
    var t := ApplyCrashPoller(s, w);
    if SomeInFlight(s) {
      var v :| v in s.pollers && InFlight(s.pollers[v]);
      assert v in t.pollers && t.pollers[v] == s.pollers[v];
    }
  }

  lemma AccountOfRequeue(s: State)
    requires Polling(s) && IdleRequeue(s, Requeue)
    ensures if Appends(s, Requeue) == [] then Engaged(ApplyRequeue(s)) <==> Engaged(s) else !Engaged(ApplyRequeue(s))
  {
  }

  /** The account after one step, by what the step appends to the log. */
  lemma AccountKept(s: State, step: Step)
    requires Ownership(s) && Polling(s) && Timely(s) && IdleRequeue(s, step)
    ensures var after := Engaged(Apply(s, step));
            if Appends(s, step) == [] then after <==> Engaged(s)
            else match Appends(s, step)[0]
              case WasRequeued => !after
              case Polled(_, _) => !Engaged(s) && after
              case Saved(_, verdict, _) =>
                Engaged(s) && (after <==> !LeavesPending(Appends(s, step)[0]) && !verdict.TemporaryFailure?)
              case PollLost(_) => Engaged(s) && !after
              case _ => after <==> Engaged(s)
  {
    hide Engaged;
    hide Ownership;
    hide Polling;
    match step {
      case Acquire(w) => AccountOfAcquire(s, w);
      case Save(w) =>
        if w in s.pollers && s.pollers[w].Answered? { AccountOfSave(s, w); }
      case Interrupt(w) => if w in s.pollers && InFlight(s.pollers[w]) { AccountOfLoss(s, w); }
      case CrashPoller(w) =>
        if w in s.pollers && InFlight(s.pollers[w]) { AccountOfLoss(s, w); } else { AccountOfLateCrash(s, w); }
      case Requeue => AccountOfRequeue(s);
      case _ => AccountOfTheRest(s, step);
    }
  }

  lemma PollsAccountedStep(s: State, step: Step)
    requires EmissionInv(s) && ExclusionInv(s) && Timely(s) && IdleRequeue(s, step)
    ensures PollsAccountedFor(Apply(s, step))
  {
    AppendsIsTheLog(s, step);
    AccountKept(s, step);
    var events := Appends(s, step);
    if events == [] {
      assert s.log + events == s.log;
    } else {
      assert events == [events[0]];
      LogTallied(s.log, events[0]);
    }
  }

  lemma {:induction false} ExclusionRun(s: State, steps: seq<Step>)
    requires EmissionInv(s) && NumberingInv(s) && ExclusionInv(s) && Admissible(s, steps)
    ensures var t := Run(s, steps); EmissionInv(t) && NumberingInv(t) && ExclusionInv(t) && Timely(t)
    decreases |steps|
  {
    if steps != [] {
      OwnershipKept(s, steps[0]);
      PollsAccountedStep(s, steps[0]);
      LockStaysExplained(s, steps[0]);
      ProcessingStaysExplained(s, steps[0]);
      EmissionRun(s, [steps[0]]);
      NumberingStep(s, steps[0]);
      assert Run(s, [steps[0]]) == Apply(s, steps[0]) by {
        assert [steps[0]][1..] == [];
      }
      ExclusionRun(Apply(s, steps[0]), steps[1..]);
    }
  }

  // ---------------------------------------------------------------- every run

  lemma InitialInv(s: State)
    requires Initial(s)
    ensures EmissionInv(s) && NumberingInv(s) && ExclusionInv(s)
  {
  }

  /** Mutual exclusion over every admissible run: at most one worker is polling, it owns
      the lock with its own acquire time, a processing entry is being polled or its poll
      was lost, and a locked entry is processing, is being released, or its releasing
      worker died. */
  lemma PollMutualExclusion(s0: State, steps: seq<Step>)
    requires Initial(s0) && Admissible(s0, steps)
    ensures var s := Run(s0, steps);
            && (forall v, w :: v in s.pollers && w in s.pollers ==> v == w)
            && (forall w :: w in s.pollers ==> s.entry.Some? && s.entry.value.lockedAt == Some(s.pollers[w].since))
            && (forall w :: w in s.pollers && InFlight(s.pollers[w]) ==> s.entry.value.status == Processing)
            && (s.entry.Some? && s.entry.value.status == Processing ==>
                  || (exists w :: w in s.pollers && InFlight(s.pollers[w]))
                  || PollLost(s.entry.value.attempts) in s.log)
            && (s.entry.Some? && s.entry.value.lockedAt.Some? ==>
                  s.entry.value.status == Processing || s.pollers != map[] || ReleaseLost in s.log)
  {
    InitialInv(s0);
    ExclusionRun(s0, steps);
  }

  lemma FreshWhilePolling(s: State)
    requires ExclusionInv(s) && Timely(s) && s.pollers != map[]
    ensures s.entry.Some? && LockIsFresh(s.entry.value, s.clock)
  {
    var w :| w in s.pollers;
    assert s.entry.value.lockedAt == Some(s.pollers[w].since);
  }

  lemma {:induction false} PoliteRun(s: State, steps: seq<Step>)
    requires EmissionInv(s) && NumberingInv(s) && ExclusionInv(s) && Polite(s, steps)
    ensures Admissible(s, steps)
    decreases |steps|
  {
    if steps != [] {
      if s.pollers != map[] {
        FreshWhilePolling(s);
      }
      var next := Apply(s, steps[0]);
      assert Admissible(next, []);
      assert [steps[0]][1..] == [] && Run(s, [steps[0]]) == next;
      ExclusionRun(s, [steps[0]]);
      PoliteRun(next, steps[1..]);
    }
  }

  /** What the administrator can check is enough: a run whose polls are in time and whose
      requeues find no fresh lock is admissible, so all that is said of those holds of it. */
  lemma PoliteRequeuesAreSafe(s0: State, steps: seq<Step>)
    requires Initial(s0) && Polite(s0, steps)
    ensures Admissible(s0, steps)
    ensures OnePoller(Run(s0, steps))
  {
    InitialInv(s0);
    PoliteRun(s0, steps);
    ExclusionRun(s0, steps);
  }

  lemma StatusLeft(s: State, step: Step)
    requires Ownership(s) && Polling(s) && Timely(s) && IdleRequeue(s, step)
    requires IsTerminal(s)
    ensures var t := Apply(s, step);
            && t.entry.Some?
            && (s.entry.value.status == Completed || step != Requeue ==> t.entry.value.status == s.entry.value.status)
            && (s.entry.value.status in REQUEUE_ONLY && step == Requeue ==> t.entry.value.status == Pending)
  {
  }

  lemma {:induction false} TerminalRun(s: State, steps: seq<Step>)
    requires EmissionInv(s) && NumberingInv(s) && ExclusionInv(s) && Admissible(s, steps)
    requires IsTerminal(s)
    requires s.entry.value.status == Completed || Requeue !in steps
    ensures Run(s, steps).entry.Some? && Run(s, steps).entry.value.status == s.entry.value.status
    decreases |steps|
  {
    if steps != [] {
      StatusLeft(s, steps[0]);
      assert [steps[0]][1..] == [];
      ExclusionRun(s, [steps[0]]);
      TerminalRun(Apply(s, steps[0]), steps[1..]);
    }
  }

  lemma {:induction false} HashRun(s: State, steps: seq<Step>)
    requires EmissionInv(s) && NumberingInv(s) && ExclusionInv(s) && Admissible(s, steps)
    requires s.order.hash != ""
    ensures Run(s, steps).order.hash == s.order.hash
    decreases |steps|
  {
    if steps != [] {
      OwnershipKept(s, steps[0]);
      assert [steps[0]][1..] == [];
      ExclusionRun(s, [steps[0]]);
      HashRun(Apply(s, steps[0]), steps[1..]);
    }
  }

  /** The queue's final states, over every admissible run: a completed entry stays
      completed and its order's invoice is settled; a failed or exhausted one is left only
      by a requeue; and a hash, once known, is never rewritten. */
  lemma QueueFinality(s0: State, before: seq<Step>, after: seq<Step>)
    requires Initial(s0) && Admissible(s0, before) && Admissible(Run(s0, before), after)
    ensures var s := Run(s0, before);
            var t := Run(s, after);
            && (s.entry.Some? && s.entry.value.status == Completed ==>
                  t.entry.Some? && t.entry.value.status == Completed && t.order.status in SETTLED_STATUSES)
            && (s.entry.Some? && s.entry.value.status in REQUEUE_ONLY && Requeue !in after ==>
                  t.entry.Some? && t.entry.value.status == s.entry.value.status)
            && (s.entry.Some? ==> s.entry.value.status != DeadLetter)
            && (s.order.hash != "" ==> t.order.hash == s.order.hash)
  {
    InitialInv(s0);
    ExclusionRun(s0, before);
    var s := Run(s0, before);
    ExclusionRun(s, after);
    if IsTerminal(s) && (s.entry.value.status == Completed || Requeue !in after) {
      TerminalRun(s, after);
    }
    if s.order.hash != "" {
      HashRun(s, after);
    }
  }

  /** Polling ends: between two requeues of an admissible run, an entry is polled at most
      seven times, plus once for each temporary error and each lost worker. */
  lemma PollsAreBounded(s0: State, steps: seq<Step>)
    requires Initial(s0) && Admissible(s0, steps)
    ensures var t := SinceRequeue(Run(s0, steps).log); t.polls <= 7 + t.temporary + t.lost
  {
    InitialInv(s0);
    ExclusionRun(s0, steps);
    AttemptNumbering(s0, steps);
  }

  // ---------------------------------------------------------------- the conditions are needed

  lemma RunHead(s: State, a: Step, rest: seq<Step>)
    ensures Run(s, [a] + rest) == Run(Apply(s, a), rest)
  {
    assert ([a] + rest)[1..] == rest;
  }

  lemma RunFour(s: State, a: Step, b: Step, c: Step, d: Step)
    ensures Run(s, [a, b, c, d]) == Apply(Apply(Apply(Apply(s, a), b), c), d)
  {
    hide Apply;
    var s3 := Apply(Apply(Apply(s, a), b), c);
    assert [a, b, c, d] == [a] + [b, c, d] && [b, c, d] == [b] + [c, d] && [c, d] == [c] + [d] && [d] == [d] + [];
    RunHead(s, a, [b, c, d]);
    RunHead(Apply(s, a), b, [c, d]);
    RunHead(Apply(Apply(s, a), b), c, [d]);
    RunHead(s3, d, []);
  }

  /** After a requeue that found a worker about to release, the next acquire succeeds and
      leaves that worker where it is. */
  lemma RequeuedBeforeRelease(s: State, v: nat, w: nat)
    requires ExclusionInv(s) && v in s.pollers && w !in s.pollers
    requires s.entry.Some? && s.entry.value.status in RETRYABLE_STATUSES
    ensures var t := ApplyAcquire(ApplyRequeue(s), w);
            && w in t.pollers && t.pollers[w].Querying?
            && v in t.pollers && t.pollers[v].Releasing? && v != w
            && t.entry.Some? && t.entry.value.status == Processing
            && (forall u :: u !in s.pollers && u != w ==> u !in t.pollers)
  {
    assert s.pollers[v].Releasing?;
    var r := ApplyRequeue(s);
    assert r.entry.value.status == Pending && r.entry.value.lockedAt == None;
    assert CanAcquire(r.entry.value, r.clock);
  }

  lemma ReleaseOfTheOther(t: State, v: nat, w: nat, u: nat)
    requires v in t.pollers && t.pollers[v].Releasing? && v != w
    requires w in t.pollers && t.pollers[w].Querying? && u !in t.pollers
    requires t.entry.Some? && t.entry.value.status == Processing
    ensures var r := ApplyAcquire(ApplyRelease(t, v), u);
            w in r.pollers && r.pollers[w].Querying? && u in r.pollers && r.pollers[u].Querying?
  {
    var r := ApplyRelease(t, v);
    assert w in r.pollers && r.entry.value.lockedAt == None && CanAcquire(r.entry.value, r.clock);
  }

  lemma ThirdWorkerEnters(s: State, v: nat, w: nat, u: nat)
    requires ExclusionInv(s) && v in s.pollers && w !in s.pollers && u !in s.pollers && w != u
    requires s.entry.Some? && s.entry.value.status in RETRYABLE_STATUSES
    ensures var t := Run(s, [Requeue, Acquire(w), Release(v), Acquire(u)]);
            w in t.pollers && u in t.pollers && t.pollers[w].Querying? && t.pollers[u].Querying?
  {
    hide ExclusionInv;
    hide ApplyAcquire;
    hide ApplyRequeue;
    hide ApplyRelease;
    RequeuedBeforeRelease(s, v, w);
    ReleaseOfTheOther(ApplyAcquire(ApplyRequeue(s), w), v, w, u);
    RunFour(s, Requeue, Acquire(w), Release(v), Acquire(u));
  }

  lemma SecondWorkerEnters(s: State, v: nat, w: nat)
    requires ExclusionInv(s) && v in s.pollers && w !in s.pollers
    requires s.entry.Some? && s.entry.value.status in RETRYABLE_STATUSES
    ensures !OnePoller(ApplyAcquire(ApplyRequeue(s), w))
  {
    hide ExclusionInv;
    RequeuedBeforeRelease(s, v, w);
    hide ApplyAcquire;
    hide ApplyRequeue;
    assert v in ApplyAcquire(ApplyRequeue(s), w).pollers && w in ApplyAcquire(ApplyRequeue(s), w).pollers && v != w;
  }

  lemma IdleRequeueIsExclusive(s: State, w: nat)
    requires s.pollers == map[]
    ensures OnePoller(ApplyAcquire(ApplyRequeue(s), w))
  {
  }

  /** A requeue lets a second worker in exactly when one has yet to release the entry.
      That one's release then frees the second worker's lock, so that a third worker
      queries at the same time as the second. */
  lemma RequeueIsSafeExactly(s: State, w: nat, u: nat)
    requires ExclusionInv(s) && Timely(s)
    requires s.entry.Some? && s.entry.value.status in RETRYABLE_STATUSES
    requires w !in s.pollers && u !in s.pollers && w != u
    ensures OnePoller(ApplyAcquire(ApplyRequeue(s), w)) <==> s.pollers == map[]
    ensures forall v :: v in s.pollers ==>
              var t := Run(s, [Requeue, Acquire(w), Release(v), Acquire(u)]);
              w in t.pollers && u in t.pollers && t.pollers[w].Querying? && t.pollers[u].Querying?
    ensures !LockIsFresh(s.entry.value, s.clock) ==> s.pollers == map[]
  {
    hide ExclusionInv;
    hide ApplyAcquire;
    hide ApplyRequeue;
    hide OnePoller;
    hide Run;
    if s.pollers == map[] {
      IdleRequeueIsExclusive(s, w);
    } else {
      var v :| v in s.pollers;
      SecondWorkerEnters(s, v, w);
      FreshWhilePolling(s);
    }
    forall v | v in s.pollers
      ensures var t := Run(s, [Requeue, Acquire(w), Release(v), Acquire(u)]);
              w in t.pollers && u in t.pollers && t.pollers[w].Querying? && t.pollers[u].Querying?
    {
      ThirdWorkerEnters(s, v, w, u);
    }
  }

  /** While a worker polls, another one's acquire leaves it alone exactly until ten minutes
      have passed since its own; only a final status protects it longer. */
  lemma AcquireIsSafeExactly(s: State, v: nat, w: nat)
    requires Ownership(s) && Polling(s) && v in s.pollers && w !in s.pollers
    ensures OnePoller(ApplyAcquire(s, w)) <==> s.clock < s.pollers[v].since + STALE_LOCK || IsTerminal(s)
  {
    var t := ApplyAcquire(s, w);
    if CanAcquire(s.entry.value, s.clock) {
      assert v in t.pollers && w in t.pollers && v != w;
    }
  }
}
