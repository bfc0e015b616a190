/**
  A blocked delivery writes no ledger entry (core/queue_worker.py, lines 68-102): an event whose jobs
  are all blocked stays pending for ever.
 */
module Stranded {
  import opened Dicts
  import opened Protocol
  import opened Links
  import opened Outbound
  import opened Ownership
  import opened Reconciliation
  import ClaimTable
  import Evidence
  import FailedEvents
  import Triage

  /** The run has its entry `delivered` in the ledger and will settle the row accordingly. */
  predicate Concluding(run: WorkerRun) {
    (run.pc.Noted? || run.pc.Touched?) && Succeeded(run.pc.response)
  }

  /** The job has this outcome, or its owner is about to write it. */
  predicate Done(final: JobStatus, t: Tracked, w: Option<WorkerRun>) {
    t.past.crashes == 0 ==>
      match w
      case None => t.row.status == final
      case Some(run) => final == Delivered && Concluding(run)
  }

  function DoneAs(final: JobStatus): JobProperty {
    (t, w) => Done(final, t, w)
  }

  predicate Concludes(entry: LedgerEntry) {
    (entry.mark == MDelivered || entry.mark == MDeadLettered) && entry.job.Some?
  }

  /** What the entry says of its job. */
  function FinalOf(mark: Mark): JobStatus {
    if mark == MDelivered then Delivered else DeadLettered
  }

  /** Only jobs that are done have an entry that says so, and it says how. */
  ghost predicate Inv(s: State) {
    forall i :: 0 <= i < |s.ledger| && Concludes(s.ledger[i]) ==>
      s.ledger[i].job.value in s.jobs && Holds(DoneAs(FinalOf(s.ledger[i].mark)), s, s.ledger[i].job.value)
  }

  ghost predicate Context(s: State) {
    Linked(s) && Ownership.Inv(s) && Told(s) && FailedEvents.Inv(s)
  }

  // ---------------------------------------------------------------- a job that is done stays done

  /** What a step of the run means for a job that is done. */
  ghost predicate DeltaStaysDone(run: WorkerRun, t: Tracked, d: Delta) {
    && d.job.past.crashes == t.past.crashes
    && (Writing(run) ==> t.past.crashes > 0 || !Concluding(run) || Done(Delivered, d.job, RunAfter(run, d)))
    && (!Writing(run) ==> d.job.row == t.row)
  }

  lemma NextDeltaStaysDone(backoff: seq<int>, s: State, r: Id, i: Input)
    requires Ownership.Inv(s) && CanStep(s, r)
    ensures DeltaStaysDone(s.runs[r], s.jobs[s.runs[r].job], NextDelta(backoff, s, r, i))
  {
  }

  lemma OwnerKeepsDone(final: JobStatus, s: State, r: Id, d: Delta)
    requires Ownership.Inv(s) && CanStep(s, r) && Writing(s.runs[r]) && Holds(DoneAs(final), s, s.runs[r].job)
    requires DeltaStaysDone(s.runs[r], s.jobs[s.runs[r].job], d)
    ensures Holds(DoneAs(final), Apply(s, r, d), s.runs[r].job)
  {
    var P := DoneAs(final);
    OwnerStepHolds(P, P, s, r, d);
  }

  lemma OthersKeepDone(final: JobStatus, s: State, r: Id, d: Delta, j: Id)
    requires Ownership.Inv(s) && CanStep(s, r) && j in s.jobs && Holds(DoneAs(final), s, j)
    requires j == s.runs[r].job ==> !Writing(s.runs[r])
    requires DeltaOwns(s.runs[r], s.jobs[s.runs[r].job], d) && DeltaStaysDone(s.runs[r], s.jobs[s.runs[r].job], d)
    ensures Holds(DoneAs(final), Apply(s, r, d), j)
  {
    var P, t := DoneAs(final), Apply(s, r, d).jobs[j];
    assert t.row == s.jobs[j].row && t.past.crashes == s.jobs[j].past.crashes;
    forall w | P(s.jobs[j], w) ensures P(t, w) {
    }
    OtherStepHolds(P, P, s, r, d, j);
  }

  lemma RunStepKeepsDone(final: JobStatus, backoff: seq<int>, s: State, r: Id, i: Input, j: Id)
    requires Ownership.Inv(s) && CanStep(s, r) && j in s.jobs && Holds(DoneAs(final), s, j)
    ensures Holds(DoneAs(final), RunStep(backoff, s, r, i), j)
  {
    NextDeltaOwns(backoff, s, r, i);
    NextDeltaStaysDone(backoff, s, r, i);
    if j == s.runs[r].job && Writing(s.runs[r]) {
      OwnerKeepsDone(final, s, r, NextDelta(backoff, s, r, i));
    } else {
      OthersKeepDone(final, s, r, NextDelta(backoff, s, r, i), j);
    }
  }

  lemma ClaimKeepsDone(final: JobStatus, s: State, r: Id, k: Id, j: Id)
    requires Ownership.Inv(s) && r !in s.runs && Free(s, k) && j in s.jobs && Holds(DoneAs(final), s, j)
    requires Terminal(final)
    ensures Holds(DoneAs(final), ClaimJob(s, r, k), j)
  {
    if k == j {
      ClaimHolds(DoneAs(final), DoneAs(final), s, r, j);
    } else {
      OtherClaimHolds(DoneAs(final), s, r, k, j);
    }
  }

  lemma LoseRunKeepsDone(final: JobStatus, s: State, r: Id, j: Id)
    requires Ownership.Inv(s) && r in s.runs && s.runs[r].job in s.jobs && j in s.jobs && Holds(DoneAs(final), s, j)
    ensures Holds(DoneAs(final), LoseRun(s, r), j)
  {
    var P := DoneAs(final);
    if j == s.runs[r].job {
      assert forall w :: P(LoseRun(s, r).jobs[j], w);
    } else {
      assert LoseRun(s, r).jobs[j] == s.jobs[j];
    }
    LoseRunHolds(P, P, s, r, j);
  }

  // ---------------------------------------------------------------- the entries that conclude

  /** The entry `delivered` of a run that is still writing. */
  lemma DeliveredEntry(backoff: seq<int>, s: State, r: Id, i: Input)
    requires Ownership.Inv(s) && CanStep(s, r) && s.runs[r].pc.Logged? && Succeeded(s.runs[r].pc.response)
    ensures Holds(DoneAs(Delivered), RunStep(backoff, s, r, i), s.runs[r].job)
  {
    OwnerStepHolds((t: Tracked, w: Option<WorkerRun>) => true, DoneAs(Delivered), s, r, NextDelta(backoff, s, r, i));
  }

  /** The closing entry of a run whose outcome is final: the row has that outcome, so nobody owns it. */
  lemma FinalEntry(s: State, r: Id, d: Delta)
    requires Ownership.Inv(s) && CanStep(s, r) && !Writing(s.runs[r])
    requires DeltaOwns(s.runs[r], s.jobs[s.runs[r].job], d)
    requires s.runs[r].pc.final == Delivered || s.runs[r].pc.final == DeadLettered
    requires FailedEvents.RunHonest(s, s.runs[r])
    ensures Holds(DoneAs(s.runs[r].pc.final), Apply(s, r, d), s.runs[r].job)
  {
    var j := s.runs[r].job;
    var P := (t: Tracked, w: Option<WorkerRun>) => w == None && t == s.jobs[j];
    assert s.jobs[j].row.status == s.runs[r].pc.final;
    assert forall q :: q in s.runs && Writing(s.runs[q]) ==> s.runs[q].job != j;
    assert Holds(P, s, j);
    OtherStepHolds(P, DoneAs(s.runs[r].pc.final), s, r, d, j);
  }

  /** When a step writes an entry that concludes, what it has just done makes it true. */
  ghost predicate ConcludingMark(run: WorkerRun, d: Delta) {
    d.mark.Some? && (d.mark.value == MDelivered || d.mark.value == MDeadLettered) ==>
      || (run.pc.Logged? && Succeeded(run.pc.response) && d.mark.value == MDelivered)
      || (!Writing(run) && run.pc.final == FinalOf(d.mark.value))
  }

  lemma NextDeltaConcludes(backoff: seq<int>, s: State, r: Id, i: Input)
    requires CanStep(s, r)
    ensures ConcludingMark(s.runs[r], NextDelta(backoff, s, r, i))
  {
  }

  lemma RunStepKeepsInv(backoff: seq<int>, s: State, r: Id, i: Input)
    requires Context(s) && Inv(s) && CanStep(s, r)
    ensures Inv(RunStep(backoff, s, r, i))
  {
    var s', d := RunStep(backoff, s, r, i), NextDelta(backoff, s, r, i);
    NextDeltaConcludes(backoff, s, r, i);
    NextDeltaOwns(backoff, s, r, i);
    forall x | 0 <= x < |s'.ledger| && Concludes(s'.ledger[x])
      ensures s'.ledger[x].job.value in s'.jobs && Holds(DoneAs(FinalOf(s'.ledger[x].mark)), s', s'.ledger[x].job.value)
    {
      if x < |s.ledger| {
        assert s'.ledger[x] == s.ledger[x];
        RunStepKeepsDone(FinalOf(s.ledger[x].mark), backoff, s, r, i, s.ledger[x].job.value);
      } else if s.runs[r].pc.Logged? {
        DeliveredEntry(backoff, s, r, i);
      } else {
        assert FailedEvents.RunHonest(s, s.runs[r]);
        FinalEntry(s, r, d);
      }
    }
  }

  // ---------------------------------------------------------------- all steps

  lemma ApiKeepsInv(s: State, a: Action)
    requires Context(s) && Inv(s) && Enabled(s, a) && OfApi(a)
    ensures Inv(ApplyApi(s, ApiAction(s, a).0, ApiAction(s, a).1))
  {
    var s' := ApplyApi(s, ApiAction(s, a).0, ApiAction(s, a).1);
    ApiKeepsJobs(s, a);
    Evidence.ApiMarks(s, a);
    forall x | 0 <= x < |s'.ledger| && Concludes(s'.ledger[x])
      ensures s'.ledger[x].job.value in s'.jobs && Holds(DoneAs(FinalOf(s'.ledger[x].mark)), s', s'.ledger[x].job.value)
    {
      assert x < |s.ledger| && s'.ledger[x] == s.ledger[x];
      SameRunsHold(DoneAs(FinalOf(s.ledger[x].mark)), DoneAs(FinalOf(s.ledger[x].mark)), s, s', s.ledger[x].job.value);
    }
  }

  /** A step of the worker process that writes no entry. */
  lemma SilentKeepsInv(s: State, s': State)
    requires Inv(s) && s'.ledger == s.ledger && s.jobs.Keys <= s'.jobs.Keys
    requires forall mark, j :: j in s.jobs && Holds(DoneAs(FinalOf(mark)), s, j) ==> Holds(DoneAs(FinalOf(mark)), s', j)
    ensures Inv(s')
  {
  }

  lemma StepKeepsInv(backoff: seq<int>, s: State, a: Action, s': State)
    requires Context(s) && Inv(s) && Enabled(s, a) && Orderly(s, a) && s' == Do(backoff, s, a)
    ensures Inv(s')
  {
    match a {
      case StepRun(r, i) =>
        RunStepKeepsInv(backoff, s, r, i);
        assert s' == RunStep(backoff, s, r, i);
      case Claim(r, k) =>
        assert s' == ClaimJob(s, r, k);
        forall mark, j | j in s.jobs && Holds(DoneAs(FinalOf(mark)), s, j) ensures Holds(DoneAs(FinalOf(mark)), s', j) {
          ClaimKeepsDone(FinalOf(mark), s, r, k, j);
        }
        SilentKeepsInv(s, s');
      case Crash(r) =>
        assert s' == LoseRun(s, r);
        forall mark, j | j in s.jobs && Holds(DoneAs(FinalOf(mark)), s, j) ensures Holds(DoneAs(FinalOf(mark)), s', j) {
          LoseRunKeepsDone(FinalOf(mark), s, r, j);
        }
        SilentKeepsInv(s, s');
      case Tick(seconds) =>
        IdleKeepsInv(s, seconds, s.memory);
        assert s' == Idle(s, seconds, s.memory);
      case Restart =>
        IdleKeepsInv(s, 0, map[]);
        assert s' == Idle(s, 0, map[]);
      case _ =>
        ApiKeepsInv(s, a);
        assert s' == ApplyApi(s, ApiAction(s, a).0, ApiAction(s, a).1);
    }
  }

  lemma IdleKeepsInv(s: State, seconds: nat, memory: ClaimTable.Claims)
    requires Inv(s)
    ensures Inv(Idle(s, seconds, memory))
  {
    var s' := Idle(s, seconds, memory);
    forall mark, j | j in s.jobs && Holds(DoneAs(FinalOf(mark)), s, j) ensures Holds(DoneAs(FinalOf(mark)), s', j) {
      SameRunsHold(DoneAs(FinalOf(mark)), DoneAs(FinalOf(mark)), s, s', j);
    }
    SilentKeepsInv(s, s');
  }

  lemma {:induction false} EveryRunKeepsInv(backoff: seq<int>, actions: seq<Action>)
    requires OrderlyRun(backoff, actions)
    ensures Context(Run(backoff, actions)) && Inv(Run(backoff, actions))
  {
    EveryRunIsLinked(backoff, actions);
    Ownership.EveryRunKeepsInv(backoff, actions);
    EveryRunIsCounted(backoff, actions);
    FailedEvents.EveryRunKeepsInv(backoff, actions);
    if |actions| > 0 {
      var s, a := Run(backoff, actions[..|actions| - 1]), actions[|actions| - 1];
      EveryRunKeepsInv(backoff, actions[..|actions| - 1]);
      if Enabled(s, a) {
        StepKeepsInv(backoff, s, a, Do(backoff, s, a));
      }
    }
  }

  // ---------------------------------------------------------------- the theorem

  /** The event has a job, and all its jobs are blocked and lost no run. */
  ghost predicate AllBlocked(s: State, e: Id) {
    && (exists j :: j in s.jobs && s.jobs[j].row.event == e)
    && (forall j :: j in s.jobs && s.jobs[j].row.event == e ==>
          s.jobs[j].row.status == Blocked && s.jobs[j].past.crashes == 0)
  }

  lemma BlockedIsNotDone(final: JobStatus, s: State, j: Id)
    requires final != Blocked
    requires Ownership.Inv(s) && j in s.jobs && s.jobs[j].row.status == Blocked && s.jobs[j].past.crashes == 0
    ensures !Holds(DoneAs(final), s, j)
  {
  }

  /** An event whose jobs were all suppressed as duplicates has no terminal entry: it is counted as pending for ever. */
  lemma {:induction false} BlockedStaysPending(backoff: seq<int>, actions: seq<Action>, e: Id, account: nat,
          bridge: nat)
    requires OrderlyRun(backoff, actions) && AllBlocked(Run(backoff, actions), e)
    ensures e !in EventsMarked(Run(backoff, actions).ledger, account, bridge, TERMINAL_MARKS)
  {
    var s := Run(backoff, actions);
    EveryRunKeepsInv(backoff, actions);
    Triage.EveryRunKeepsInv(backoff, actions);
    forall x | 0 <= x < |s.ledger| && s.ledger[x].event == e ensures s.ledger[x].mark !in TERMINAL_MARKS {
      assert EntryTold(s, s.ledger[x]) && EntryLinked(s, s.ledger[x]);
      if Concludes(s.ledger[x]) {
        BlockedIsNotDone(FinalOf(s.ledger[x].mark), s, s.ledger[x].job.value);
      }
    }
  }
}
