/** Attempt numbers, with no timing assumption at all: even with stolen locks, crashes and
    requeues, every poll has its own number, so at most six inconclusive answers ever
    leave an entry pending. */
module PipelineNumbering {
  import opened Wrappers
  import opened InvoiceSyncQueue
  import opened InvoiceUseCases
  import opened SyncInvoiceTask
  import opened InvoicePipeline

  function Attempts(s: State): nat
  {
    if s.entry.Some? then s.entry.value.attempts else 0
  }

  /** The attempt number an event reports the end of. */
  function EndOf(e: Event): Option<nat>
  {
    match e
    case Saved(n, _, _) => Some(n)
    case PollLost(n) => Some(n)
    case _ => None
  }

  /** The n-th poll of the entry's life carries the number n. */
  ghost predicate PollsAreNumbered(log: seq<Event>)
  {
    forall i :: 0 <= i < |log| && log[i].Polled? ==> log[i].attempt == Polls(log[..i]) + 1
  }

  ghost predicate EndsOnce(log: seq<Event>)
  {
    forall i, j :: 0 <= i < j < |log| && EndOf(log[i]).Some? ==> EndOf(log[i]) != EndOf(log[j])
  }

  /** What the stored row shows after an inconclusive answer depends on the attempt alone. */
  predicate FitsItsNumber(e: Event)
  {
    e.Saved? && e.verdict.Unsettled? ==> e.status == if e.attempt < MAX_ATTEMPTS then Pending else Exhausted
  }

  ghost predicate EventsFitTheirNumber(log: seq<Event>)
  {
    forall i :: 0 <= i < |log| ==> FitsItsNumber(log[i])
  }

  ghost predicate EndsBounded(log: seq<Event>, attempts: nat)
  {
    forall i :: 0 <= i < |log| && EndOf(log[i]).Some? ==> 1 <= EndOf(log[i]).value <= attempts
  }

  /** The polls in flight have distinct numbers, none of which has ended. */
  ghost predicate FlightsNumbered(s: State)
  {
    && (forall w :: w in s.pollers && InFlight(s.pollers[w]) ==> 1 <= s.pollers[w].entry.attempts <= Attempts(s))
    && (forall v, w ::
          v in s.pollers && w in s.pollers && v != w && InFlight(s.pollers[v]) && InFlight(s.pollers[w]) ==>
          s.pollers[v].entry.attempts != s.pollers[w].entry.attempts)
    && (forall w, i :: w in s.pollers && InFlight(s.pollers[w]) && 0 <= i < |s.log| ==>
          EndOf(s.log[i]) != Some(s.pollers[w].entry.attempts))
  }

  ghost predicate LogNumbered(log: seq<Event>, attempts: nat)
  {
    && attempts == Polls(log)
    && PollsAreNumbered(log)
    && EndsOnce(log)
    && EventsFitTheirNumber(log)
    && EndsBounded(log, attempts)
  }

  ghost predicate NumberingInv(s: State)
  {
    LogNumbered(s.log, Attempts(s)) && FlightsNumbered(s)
  }

  /** No poll begins or ends between `s` and `t`. */
  ghost predicate SameFlights(s: State, t: State)
  {
    && Attempts(t) == Attempts(s)
    && (forall w :: w in t.pollers && InFlight(t.pollers[w]) ==>
          w in s.pollers && InFlight(s.pollers[w]) && t.pollers[w].entry == s.pollers[w].entry)
  }

  lemma QuietStep(s: State, step: Step) returns (events: seq<Event>)
    requires !step.Acquire? && !step.Save?
    requires (step.CrashPoller? || step.Interrupt?) && step.worker in s.pollers ==> !InFlight(s.pollers[step.worker])
    ensures SameFlights(s, Apply(s, step))
    ensures Apply(s, step).log == s.log + events && |events| <= 1
    ensures forall e :: e in events ==> EndOf(e) == None && !e.Polled?
  {
    var t := Apply(s, step);
    events := if t.log == s.log then [] else [t.log[|s.log|]];
    assert t.log == s.log + events;
  }

  lemma QuietLog(log: seq<Event>, attempts: nat, e: Event)
    requires LogNumbered(log, attempts) && EndOf(e) == None && !e.Polled?
    ensures LogNumbered(log + [e], attempts)
  {
    Appended(log, e);
    PollsNumberedStep(log, e);
  }

  lemma NumberingQuiet(s: State, t: State, events: seq<Event>)
    requires NumberingInv(s) && SameFlights(s, t)
    requires t.log == s.log + events && |events| <= 1
    requires forall e :: e in events ==> EndOf(e) == None && !e.Polled?
    ensures NumberingInv(t)
  {
    if events == [] {
      assert t.log == s.log;
    } else {
      assert t.log == s.log + [events[0]];
      QuietLog(s.log, Attempts(s), events[0]);
    }
  }

  lemma PollsNumberedStep(log: seq<Event>, e: Event)
    requires PollsAreNumbered(log)
    requires e.Polled? ==> e.attempt == Polls(log) + 1
    ensures PollsAreNumbered(log + [e])
  {
    forall i | 0 <= i < |log + [e]| && (log + [e])[i].Polled?
      ensures (log + [e])[i].attempt == Polls((log + [e])[..i]) + 1
    {
      assert (log + [e])[..i] == log[..i];
      assert log[..|log|] == log;
    }
  }

  lemma PolledLog(log: seq<Event>, attempts: nat, w: nat)
    requires LogNumbered(log, attempts)
    ensures LogNumbered(log + [Polled(w, attempts + 1)], attempts + 1)
  {
    Appended(log, Polled(w, attempts + 1));
    PollsNumberedStep(log, Polled(w, attempts + 1));
  }

  lemma EndedLog(log: seq<Event>, attempts: nat, e: Event)
    requires LogNumbered(log, attempts) && !e.Polled?
    requires EndOf(e).Some? && 1 <= EndOf(e).value <= attempts
    requires forall i :: 0 <= i < |log| ==> EndOf(log[i]) != EndOf(e)
    requires FitsItsNumber(e)
    ensures LogNumbered(log + [e], attempts)
  {
    Appended(log, e);
    PollsNumberedStep(log, e);
  }

  lemma FlightsAfterAcquire(s: State, w: nat)
    requires FlightsNumbered(s) && EndsBounded(s.log, Attempts(s))
    requires w !in s.pollers && s.entry.Some? && CanAcquire(s.entry.value, s.clock)
    ensures FlightsNumbered(ApplyAcquire(s, w))
  {
  }

  lemma NumberingAcquire(s: State, w: nat)
    requires NumberingInv(s)
    ensures NumberingInv(ApplyAcquire(s, w))
  {
    hide FlightsNumbered;
    hide PollsAreNumbered;
    hide EndsOnce;
    hide EventsFitTheirNumber;
    hide EndsBounded;
    if w !in s.pollers && s.entry.Some? && CanAcquire(s.entry.value, s.clock) {
      PolledLog(s.log, Attempts(s), w);
      FlightsAfterAcquire(s, w);
    }
  }

  lemma SaveKeepsAttempts(stored: Row, copy: Row, verdict: Verdict, now: Time)
    ensures SaveVerdict(stored, copy, verdict, now).attempts == stored.attempts
    ensures SaveVerdict(stored, copy, verdict, now).lockedAt == stored.lockedAt
  {
  }

  /** An inconclusive answer exhausts the stored row exactly from the seventh attempt on,
      and never touches the lock or the attempts. */
  lemma InconclusiveSave(stored: Row, copy: Row, raw: string, now: Time)
    ensures var row := SaveVerdict(stored, copy, Unsettled(raw), now);
            && (row.status == Exhausted <==> copy.attempts >= MAX_ATTEMPTS)
            && (row.status == Pending <==> copy.attempts < MAX_ATTEMPTS)
            && row.attempts == stored.attempts && row.lockedAt == stored.lockedAt
            && (row.status == Exhausted ==> row.nextRetryAt == stored.nextRetryAt)
  {
  }

  /** The steps that end a poll's flight. */
  lemma NumberingEnd(s: State, w: nat, e: Event, t: State)
    requires NumberingInv(s)
    requires w in s.pollers && InFlight(s.pollers[w])
    requires EndOf(e) == Some(s.pollers[w].entry.attempts) && !e.Polled? && FitsItsNumber(e)
    requires t.log == s.log + [e] && Attempts(t) == Attempts(s)
    requires forall v :: v in t.pollers && InFlight(t.pollers[v]) ==>
               v != w && v in s.pollers && t.pollers[v] == s.pollers[v]
    ensures NumberingInv(t)
  {
    EndedLog(s.log, Attempts(s), e);
  }

  lemma NumberingSave(s: State, w: nat)
    requires NumberingInv(s)
    ensures NumberingInv(ApplySave(s, w))
  {
    if w in s.pollers && s.pollers[w].Answered? && s.entry.Some? {
      var p := s.pollers[w];
      var row := SaveVerdict(s.entry.value, p.entry, p.verdict, s.clock);
      hide SaveVerdict;
      SaveKeepsAttempts(s.entry.value, p.entry, p.verdict, s.clock);
      if p.verdict.Unsettled? {
        InconclusiveSave(s.entry.value, p.entry, p.verdict.raw, s.clock);
      }
      NumberingEnd(s, w, Saved(p.entry.attempts, p.verdict, row.status), ApplySave(s, w));
    }
  }

  lemma NumberingCrash(s: State, w: nat)
    requires NumberingInv(s) && w in s.pollers && InFlight(s.pollers[w])
    ensures NumberingInv(ApplyCrashPoller(s, w))
  {
    NumberingEnd(s, w, PollLost(s.pollers[w].entry.attempts), ApplyCrashPoller(s, w));
  }

  lemma NumberingInterrupt(s: State, w: nat)
    requires NumberingInv(s) && w in s.pollers && InFlight(s.pollers[w])
    ensures NumberingInv(ApplyInterrupt(s, w))
  {
    NumberingEnd(s, w, PollLost(s.pollers[w].entry.attempts), ApplyInterrupt(s, w));
  }

  lemma NumberingStep(s: State, step: Step)
    requires NumberingInv(s)
    ensures NumberingInv(Apply(s, step))
  {
    hide NumberingInv;
    if step.Acquire? {
      NumberingAcquire(s, step.worker);
    } else if step.Save? {
      NumberingSave(s, step.worker);
    } else if step.CrashPoller? && step.worker in s.pollers && InFlight(s.pollers[step.worker]) {
      NumberingCrash(s, step.worker);
    } else if step.Interrupt? && step.worker in s.pollers && InFlight(s.pollers[step.worker]) {
      NumberingInterrupt(s, step.worker);
    } else {
      var events := QuietStep(s, step);
      NumberingQuiet(s, Apply(s, step), events);
    }
  }

  lemma {:induction false} NumberingRun(s: State, steps: seq<Step>)
    requires NumberingInv(s)
    ensures NumberingInv(Run(s, steps))
    decreases |steps|
  {
    if steps != [] {
      NumberingStep(s, steps[0]);
      NumberingRun(Apply(s, steps[0]), steps[1..]);
    }
  }

  /** Distinct positive numbers below `bound` are fewer than `bound`. */
  lemma {:induction false} Pigeonhole(log: seq<Event>, positions: set<nat>, bound: nat)
    requires EndsOnce(log)
    requires forall i :: i in positions ==> i < |log| && EndOf(log[i]).Some? && 1 <= EndOf(log[i]).value <= bound
    ensures |positions| <= bound
    decreases bound
  {
    if bound == 0 {
      assert positions == {};
    } else if i :| i in positions && EndOf(log[i]) == Some(bound) {
      forall j | j in positions - {i} ensures EndOf(log[j]).value <= bound - 1 {
        assert EndOf(log[j]) != EndOf(log[i]);
      }
      Pigeonhole(log, positions - {i}, bound - 1);
    } else {
      Pigeonhole(log, positions, bound - 1);
    }
  }

  /** Over every run, without any timing assumption: `attempts` counts the polls, the
      n-th poll is numbered n, no number ends twice, and an inconclusive answer leaves the
      stored row pending exactly up to number six, which happens at most six times, and
      exhausted from number seven on. */
  lemma AttemptNumbering(s0: State, steps: seq<Step>)
    requires Initial(s0)
    ensures var s := Run(s0, steps);
            && Attempts(s) == Polls(s.log)
            && PollsAreNumbered(s.log)
            && EndsOnce(s.log)
            && |LeftPendingAt(s.log)| <= 6
            && (forall i :: 0 <= i < |s.log| && s.log[i].Saved? && s.log[i].verdict.Unsettled? ==>
                  s.log[i].status == if s.log[i].attempt <= 6 then Pending else Exhausted)
  {
    NumberingRun(s0, steps);
    Pigeonhole(Run(s0, steps).log, LeftPendingAt(Run(s0, steps).log), MAX_ATTEMPTS - 1);
  }
}
