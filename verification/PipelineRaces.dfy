/** Concrete runs of the invoice pipeline: two in which the poll lock fails, one for each of
    the conditions under which it holds, and one that leaves a processing entry unlocked. */
module PipelineRaces {
  import opened Wrappers
  import opened InvoiceSyncQueue
  import opened InvoiceUseCases
  import opened SyncInvoiceTask
  import opened InvoicePipeline

  const FRESH: State :=
    State(Invoice(NotIssued, "", "", 0, None), None, 0, map[], map[], [])

  const ISSUE: seq<Step> := [Dispatch(0), StartCall(0), FinishCall(0, Issued("B001-42", "")), Enqueue(0, true, "")]

  const PENDING_REPLY: Answer := Reply(false, false, false, "", "")
  const ACCEPTED_REPLY: Answer := Reply(true, false, false, "h", "")

  lemma {:induction false} RunConcat(s: State, a: seq<Step>, b: seq<Step>)
    ensures Run(s, a + b) == Run(Run(s, a), b)
    decreases |a|
  {
    if a == [] {
      assert a + b == b;
    } else {
      assert (a + b)[1..] == a[1..] + b;
      RunConcat(Apply(s, a[0]), a[1..], b);
    }
  }

  function AfterIssue(): State
  {
    State(Invoice(Submitted, "B001-42", "", 1, None), Some(NewRow(0)), 0, map[0 := Finished], map[],
          [CallStarted(0), InvoiceIssued("B001-42")])
  }

  lemma IssueRun()
    ensures Initial(FRESH) && Run(FRESH, ISSUE) == AfterIssue()
  {
  }

  const ROW_1: Row := Acquired(NewRow(0), 0)
  const ROW_2: Row := Acquired(ROW_1, STALE_LOCK)
  const QUEUED: Invoice := AfterIssue().order

  lemma Then(s: State, first: seq<Step>, second: seq<Step>, mid: State, last: State)
    requires Run(s, first) == mid && Run(mid, second) == last
    ensures Run(s, first + second) == last
  {
    RunConcat(s, first, second);
  }

  lemma Two(s: State, a: Step, b: Step, mid: State, last: State)
    requires Apply(s, a) == mid && Apply(mid, b) == last
    ensures Run(s, [a, b]) == last
  {
    assert [a, b][1..] == [b] && [b][1..] == [];
    assert Run(mid, [b]) == last;
  }

  lemma One(s: State, a: Step)
    ensures Run(s, [a]) == Apply(s, a)
  {
  }

  /** Worker 1 polls, ten minutes pass, and worker 2 takes the lock over. */
  lemma LockIsStolen(s: State)
    requires s.order == QUEUED && s.entry == Some(NewRow(0)) && s.clock == 0 && s.pollers == map[]
    ensures var t := Run(s, [Acquire(1), Tick(STALE_LOCK)] + [Acquire(2)]);
            && t.order == QUEUED && t.entry == Some(ROW_2) && t.clock == STALE_LOCK
            && t.pollers == map[1 := Querying(0, ROW_1, QUEUED), 2 := Querying(STALE_LOCK, ROW_2, QUEUED)]
  {
    var s1 := Apply(s, Acquire(1));
    var s2 := Apply(s1, Tick(STALE_LOCK));
    assert s2.entry == Some(ROW_1);
    Two(s, Acquire(1), Tick(STALE_LOCK), s1, s2);
    One(s2, Acquire(2));
    Then(s, [Acquire(1), Tick(STALE_LOCK)], [Acquire(2)], s2, Apply(s2, Acquire(2)));
  }

  lemma SecondWorkerCompletes(s: State)
    requires s.order == QUEUED && s.entry == Some(ROW_2)
    requires s.pollers == map[1 := Querying(0, ROW_1, QUEUED), 2 := Querying(STALE_LOCK, ROW_2, QUEUED)]
    ensures var t := Run(s, [Query(2, ACCEPTED_REPLY), Save(2)]);
            && t.order.status == Accepted && t.entry.Some? && t.entry.value.status == Completed
            && 1 in t.pollers && t.pollers[1] == Querying(0, ROW_1, QUEUED)
  {
    var s1 := Apply(s, Query(2, ACCEPTED_REPLY));
    Two(s, Query(2, ACCEPTED_REPLY), Save(2), s1, Apply(s1, Save(2)));
  }

  lemma FirstWorkerUndoes(s: State)
    requires s.entry.Some? && 1 in s.pollers && s.pollers[1] == Querying(0, ROW_1, QUEUED)
    ensures var t := Run(s, [Query(1, PENDING_REPLY), Save(1)]);
            t.order.status == SyncPending && t.entry.Some? && t.entry.value.status == Pending
  {
    var s1 := Apply(s, Query(1, PENDING_REPLY));
    Two(s, Query(1, PENDING_REPLY), Save(1), s1, Apply(s1, Save(1)));
  }

  /** A worker that takes ten minutes loses its lock, and then undoes a completed poll:
      the entry leaves its final state and the accepted invoice is waiting again. */
  lemma SlowPollUndoesCompletion() returns (before: seq<Step>, after: seq<Step>)
    ensures Initial(FRESH) && Requeue !in before && Requeue !in after
    ensures var s := Run(FRESH, before);
            s.order.status == Accepted && s.entry.Some? && s.entry.value.status == Completed
    ensures var t := Run(Run(FRESH, before), after);
            t.order.status == SyncPending && t.entry.Some? && t.entry.value.status == Pending
  {
    var steal := [Acquire(1), Tick(STALE_LOCK)] + [Acquire(2)];
    var complete := [Query(2, ACCEPTED_REPLY), Save(2)];
    before, after := ISSUE + steal + complete, [Query(1, PENDING_REPLY), Save(1)];
    var s1 := Run(AfterIssue(), steal);
    assert Initial(FRESH) && Run(FRESH, before) == Run(s1, complete) by {
      IssueRun();
      Then(FRESH, ISSUE, steal, AfterIssue(), s1);
      Then(FRESH, ISSUE + steal, complete, s1, Run(s1, complete));
    }
    LockIsStolen(AfterIssue());
    SecondWorkerCompletes(s1);
    FirstWorkerUndoes(Run(s1, complete));
  }

  const NO_SUCH_INVOICE: Answer := QueryPermanent("")

  lemma FirstWorkerAsks(s: State)
    requires s.order == QUEUED && s.entry == Some(NewRow(0)) && s.clock == 0 && s.pollers == map[]
    ensures var t := Run(s, [Acquire(1), Query(1, NO_SUCH_INVOICE)]);
            && t.order == QUEUED && t.clock == 0 && t.entry == Some(ROW_1)
            && t.pollers == map[1 := Answered(0, ROW_1, PermanentFailure(""))]
  {
    var s1 := Apply(s, Acquire(1));
    assert s1.entry == Some(ROW_1) && s1.pollers == map[1 := Querying(0, ROW_1, QUEUED)];
    Two(s, Acquire(1), Query(1, NO_SUCH_INVOICE), s1, Apply(s1, Query(1, NO_SUCH_INVOICE)));
  }

  lemma FirstWorkerFails(s: State)
    requires s.entry == Some(ROW_1) && s.clock == 0
    requires s.pollers == map[1 := Answered(0, ROW_1, PermanentFailure(""))]
    ensures var t := Run(s, [Save(1), Requeue]);
            && t.clock == 0 && t.pollers == map[1 := Releasing(0)]
            && t.entry.Some? && t.entry.value.status == Pending && t.entry.value.lockedAt == None
  {
    var s1 := Apply(s, Save(1));
    assert s1.pollers == map[1 := Releasing(0)] && s1.entry.value.status == Failed;
    Two(s, Save(1), Requeue, s1, Apply(s1, Requeue));
  }

  lemma SecondWorkerLosesItsLock(s: State)
    requires s.pollers == map[1 := Releasing(0)] && s.clock == 0
    requires s.entry.Some? && s.entry.value.status == Pending && s.entry.value.lockedAt == None
    ensures var t := Run(s, [Acquire(2), Release(1)]);
            && t.pollers.Keys == {2} && t.pollers[2].Querying?
            && t.entry.Some? && t.entry.value.status == Processing && t.entry.value.lockedAt == None
  {
    var s1 := Apply(s, Acquire(2));
    assert s1.pollers.Keys == {1, 2} && s1.pollers[1] == Releasing(0) && s1.pollers[2].Querying?;
    Two(s, Acquire(2), Release(1), s1, Apply(s1, Release(1)));
  }

  lemma ThirdWorkerEnters(s: State)
    requires s.pollers.Keys == {2} && s.pollers[2].Querying?
    requires s.entry.Some? && s.entry.value.status == Processing && s.entry.value.lockedAt == None
    ensures var t := Run(s, [Acquire(3)]);
            2 in t.pollers && t.pollers[2].Querying? && 3 in t.pollers && t.pollers[3].Querying?
  {
    One(s, Acquire(3));
  }

  /** A requeue between a worker's save and the release of its lock lets the release drop
      the lock of the next worker: a third worker then polls at the same time, although no
      poll has taken any time at all. */
  lemma RequeueBeforeReleaseBreaksTheLock() returns (steps: seq<Step>)
    ensures Initial(FRESH) && forall d :: Tick(d) !in steps
    ensures var s := Run(FRESH, steps);
            2 in s.pollers && s.pollers[2].Querying? && 3 in s.pollers && s.pollers[3].Querying?
  {
    var fail := [Acquire(1), Query(1, NO_SUCH_INVOICE)] + [Save(1), Requeue];
    var free := [Acquire(2), Release(1)] + [Acquire(3)];
    steps := ISSUE + fail + free;
    var s1 := Run(AfterIssue(), [Acquire(1), Query(1, NO_SUCH_INVOICE)]);
    var s2 := Run(s1, [Save(1), Requeue]);
    var s3 := Run(s2, [Acquire(2), Release(1)]);
    var s4 := Run(s3, [Acquire(3)]);
    assert Initial(FRESH) && Run(FRESH, steps) == s4 by {
      hide Run;
      IssueRun();
      Then(AfterIssue(), [Acquire(1), Query(1, NO_SUCH_INVOICE)], [Save(1), Requeue], s1, s2);
      Then(FRESH, ISSUE, fail, AfterIssue(), s2);
      Then(s2, [Acquire(2), Release(1)], [Acquire(3)], s3, s4);
      Then(FRESH, ISSUE + fail, free, s2, s4);
    }
    FirstWorkerAsks(AfterIssue());
    FirstWorkerFails(s1);
    SecondWorkerLosesItsLock(s2);
    ThirdWorkerEnters(s3);
  }

  lemma FirstWorkerEnters(s: State)
    requires s.order == QUEUED && s.entry == Some(NewRow(0)) && s.clock == 0 && s.pollers == map[]
    ensures var t := Run(s, [Acquire(1)]);
            t.entry == Some(ROW_1) && t.pollers == map[1 := Querying(0, ROW_1, QUEUED)]
  {
    One(s, Acquire(1));
  }

  lemma InterruptedWorkerReleases(s: State)
    requires s.entry == Some(ROW_1) && s.pollers == map[1 := Querying(0, ROW_1, QUEUED)]
    ensures var t := Run(s, [Interrupt(1), Release(1)]);
            && t.pollers == map[] && t.entry.Some?
            && t.entry.value.status == Processing && t.entry.value.lockedAt == None
  {
    var s1 := Apply(s, Interrupt(1));
    assert s1.pollers == map[1 := Releasing(0)] && s1.entry == Some(ROW_1);
    Two(s, Interrupt(1), Release(1), s1, Apply(s1, Release(1)));
  }

  /** A poll that raises out of its second phase still releases: the entry is left
      processing, without a lock and without a worker. */
  lemma InterruptLeavesAnUnlockedEntry() returns (steps: seq<Step>)
    ensures Initial(FRESH) && forall w :: CrashPoller(w) !in steps
    ensures var s := Run(FRESH, steps);
            && s.pollers == map[] && s.entry.Some?
            && s.entry.value.status == Processing && s.entry.value.lockedAt == None
  {
    steps := ISSUE + [Acquire(1)] + [Interrupt(1), Release(1)];
    var s1 := Run(AfterIssue(), [Acquire(1)]);
    assert Initial(FRESH) && Run(FRESH, steps) == Run(s1, [Interrupt(1), Release(1)]) by {
      IssueRun();
      RunConcat(FRESH, ISSUE, [Acquire(1)]);
      RunConcat(FRESH, ISSUE + [Acquire(1)], [Interrupt(1), Release(1)]);
    }
    FirstWorkerEnters(AfterIssue());
    InterruptedWorkerReleases(s1);
  }
}
