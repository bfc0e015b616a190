/** An event is marked `delivery_failed` exactly when one of its jobs was dead-lettered. */
module FailedEvents {
  import opened Dicts
  import opened Protocol
  import opened Links
  import Ownership
  import Triage
  import Lineage
  import Evidence
  import ClaimTable

  predicate Announces(run: WorkerRun, final: JobStatus) {
    run.pc == Settled(final) || run.pc == Marked(final)
  }

  /** A final outcome to be announced is the outcome of the row. */
  ghost predicate RunHonest(s: State, run: WorkerRun) {
    && (Announces(run, Delivered) || Announces(run, DeadLettered) ==>
          run.job in s.jobs && Announces(run, s.jobs[run.job].row.status))
    && (run.pc.Suppressing? || run.pc.Suppressed? ==> ClaimTable.Keyed(run.key))
  }

  ghost predicate HasDeadLetter(s: State, e: Id) {
    exists j :: j in s.jobs && s.jobs[j].row.event == e && s.jobs[j].row.status == DeadLettered
  }

  /** A run is about to mark the event. */
  ghost predicate MarkDue(s: State, j: Id) {
    exists r :: r in s.runs && s.runs[r].job == j && s.runs[r].pc == Settled(DeadLettered)
  }

  ghost predicate DeadLetterShown(s: State, j: Id)
    requires j in s.jobs
  {
    var t := s.jobs[j];
    t.row.status == DeadLettered && t.past.crashes == 0 && !ClaimTable.Keyed(t.row.key) ==>
      (t.row.event in s.events && s.events[t.row.event].status == DeliveryFailed) || MarkDue(s, j)
  }

  ghost predicate Inv(s: State) {
    && (forall r :: r in s.runs ==> RunHonest(s, s.runs[r]))
    && (forall e :: e in s.events && s.events[e].status == DeliveryFailed ==> HasDeadLetter(s, e))
    && (forall j :: j in s.jobs ==> DeadLetterShown(s, j))
  }

  ghost predicate Context(s: State) {
    Linked(s) && Ownership.Inv(s) && Triage.Inv(s) && Lineage.Inv(s)
  }

  /** Dead letters stay dead letters. */
  ghost predicate KeepsDeadLetters(s: State, s': State) {
    forall j :: j in s.jobs && Terminal(s.jobs[j].row.status) ==> j in s'.jobs && s'.jobs[j].row == s.jobs[j].row
  }

  lemma StepKeepsDeadLetters(backoff: seq<int>, s: State, a: Action)
    requires Ownership.Inv(s) && Enabled(s, a) && Ownership.Orderly(s, a)
    ensures KeepsDeadLetters(s, Do(backoff, s, a))
  {
    forall j | j in s.jobs && Terminal(s.jobs[j].row.status)
      ensures j in Do(backoff, s, a).jobs && Do(backoff, s, a).jobs[j].row == s.jobs[j].row
    {
      Ownership.StepKeepsTerminal(backoff, s, a, j);
    }
  }

  lemma KeepsHasDeadLetter(s: State, s': State, e: Id)
    requires KeepsDeadLetters(s, s') && HasDeadLetter(s, e)
    ensures HasDeadLetter(s', e)
  {
  }

  // ---------------------------------------------------------------- a worker step

  /** How a step moves the outcome of a run and the status of an event. */
  ghost predicate DeltaHonest(run: WorkerRun, t: Tracked, d: Delta) {
    && (d.eventStatus.Some? ==>
          (d.eventStatus.value == DeliveryFailed && run.pc == Settled(DeadLettered)) ||
          (d.eventStatus.value == IdempotencyBlocked && run.pc.Suppressing?))
    && (run.pc == Settled(DeadLettered) ==> d.eventStatus == Some(DeliveryFailed))
    && (d.pc.Some? ==>
          && (d.pc.value.Settled? ==> run.pc.Touched? && d.pc.value.final == d.job.row.status)
          && (d.pc.value.Marked? ==> run.pc == Settled(d.pc.value.final))
          && (d.pc.value.Suppressing? || d.pc.value.Suppressed? ==> run.pc.Suppressing? || ClaimTable.Keyed(run.key)))
    && (d.job.row.status == DeadLettered ==> t.row.status == DeadLettered || d.pc == Some(Settled(DeadLettered)))
    && d.job.past.crashes == t.past.crashes && SameJob(t.row, d.job.row)
  }

  lemma NextDeltaHonestBeforeSending(backoff: seq<int>, s: State, r: Id, i: Input)
    requires CanStep(s, r) && BeforeSending(s.runs[r].pc)
    ensures DeltaHonest(s.runs[r], s.jobs[s.runs[r].job], NextDelta(backoff, s, r, i))
  {
  }

  lemma NextDeltaHonestAfterSending(backoff: seq<int>, s: State, r: Id, i: Input)
    requires CanStep(s, r) && !BeforeSending(s.runs[r].pc)
    ensures DeltaHonest(s.runs[r], s.jobs[s.runs[r].job], NextDelta(backoff, s, r, i))
  {
  }

  lemma NextDeltaHonest(backoff: seq<int>, s: State, r: Id, i: Input)
    requires CanStep(s, r)
    ensures DeltaHonest(s.runs[r], s.jobs[s.runs[r].job], NextDelta(backoff, s, r, i))
  {
    if BeforeSending(s.runs[r].pc) {
      NextDeltaHonestBeforeSending(backoff, s, r, i);
    } else {
      NextDeltaHonestAfterSending(backoff, s, r, i);
    }
  }

  lemma ApplyKeepsHonest(s: State, r: Id, d: Delta)
    requires Inv(s) && CanStep(s, r) && DeltaHonest(s.runs[r], s.jobs[s.runs[r].job], d)
    requires KeepsDeadLetters(s, Apply(s, r, d))
    ensures forall q :: q in Apply(s, r, d).runs ==> RunHonest(Apply(s, r, d), Apply(s, r, d).runs[q])
  {
    var s' := Apply(s, r, d);
    forall q | q in s'.runs ensures RunHonest(s', s'.runs[q]) {
      assert RunHonest(s, s.runs[q]);
      if q == r && s'.runs[q].pc.Marked? {
        assert RunHonest(s, s.runs[r]);
      }
    }
  }

  lemma ApplyKeepsFailed(s: State, r: Id, d: Delta, e: Id)
    requires Linked(s) && Inv(s) && CanStep(s, r) && DeltaHonest(s.runs[r], s.jobs[s.runs[r].job], d)
    requires KeepsDeadLetters(s, Apply(s, r, d))
    requires e in s.events && Apply(s, r, d).events[e].status == DeliveryFailed
    ensures HasDeadLetter(Apply(s, r, d), e)
  {
    assert RunHonest(s, s.runs[r]) && RunLinked(s, s.runs[r]);
    KeepsHasDeadLetter(s, Apply(s, r, d), e);
  }

  /** A run that may block an event belongs to a key, so it cannot share its event with a job without one. */
  lemma BlockingIsElsewhere(s: State, r: Id, j: Id)
    requires Context(s) && Inv(s) && CanStep(s, r) && j in s.jobs && s.runs[r].pc.Suppressing?
    requires !ClaimTable.Keyed(s.jobs[j].row.key)
    ensures s.runs[r].event != s.jobs[j].row.event
  {
  }

  lemma ApplyKeepsDue(s: State, r: Id, d: Delta, j: Id)
    requires CanStep(s, r) && MarkDue(s, j) && s.runs[r].pc != Settled(DeadLettered)
    ensures MarkDue(Apply(s, r, d), j)
  {
    var q :| q in s.runs && s.runs[q].job == j && s.runs[q].pc == Settled(DeadLettered);
    assert q in Apply(s, r, d).runs && Apply(s, r, d).runs[q] == s.runs[q];
  }

  lemma ApplyKeepsShown(s: State, r: Id, d: Delta, j: Id)
    requires CanStep(s, r) && DeltaHonest(s.runs[r], s.jobs[s.runs[r].job], d)
    requires j in s.jobs && JobLinked(s, j) && RunLinked(s, s.runs[r]) && DeadLetterShown(s, j)
    requires s.runs[r].pc.Suppressing? && !ClaimTable.Keyed(s.jobs[j].row.key) ==>
      s.runs[r].event != s.jobs[j].row.event
    ensures DeadLetterShown(Apply(s, r, d), j)
  {
    var s', run := Apply(s, r, d), s.runs[r];
    if d.pc == Some(Settled(DeadLettered)) {
      assert r in s'.runs && s'.runs[r].job == run.job && s'.runs[r].pc == Settled(DeadLettered);
    }
    if MarkDue(s, j) && run.pc != Settled(DeadLettered) {
      ApplyKeepsDue(s, r, d, j);
    } else if MarkDue(s, j) && run.job != j {
      var q :| q in s.runs && s.runs[q].job == j && s.runs[q].pc == Settled(DeadLettered);
      assert q in s'.runs && s'.runs[q] == s.runs[q];
    }
  }

  lemma RunStepKeepsInv(backoff: seq<int>, s: State, r: Id, i: Input)
    requires Context(s) && Inv(s) && CanStep(s, r) && KeepsDeadLetters(s, RunStep(backoff, s, r, i))
    ensures Inv(RunStep(backoff, s, r, i))
  {
    var d := NextDelta(backoff, s, r, i);
    NextDeltaHonest(backoff, s, r, i);
    ApplyKeepsHonest(s, r, d);
    forall e | e in s.events && Apply(s, r, d).events[e].status == DeliveryFailed
      ensures HasDeadLetter(Apply(s, r, d), e)
    {
      ApplyKeepsFailed(s, r, d, e);
    }
    forall j | j in s.jobs ensures DeadLetterShown(Apply(s, r, d), j) {
      assert JobLinked(s, j) && RunLinked(s, s.runs[r]) && DeadLetterShown(s, j);
      if s.runs[r].pc.Suppressing? && !ClaimTable.Keyed(s.jobs[j].row.key) {
        BlockingIsElsewhere(s, r, j);
      }
      ApplyKeepsShown(s, r, d, j);
    }
  }

  // ---------------------------------------------------------------- the other steps

  /** Neither claims, crashes nor the clock touch an event; an api transaction only touches uncertain ones. */
  ghost predicate EventsSettled(s: State, s': State) {
    && (forall e :: e in s.events && s.events[e].status != Uncertain ==>
         e in s'.events && s'.events[e].status == s.events[e].status)
    && (forall e :: e in s'.events && s'.events[e].status == DeliveryFailed ==>
         e in s.events && s.events[e].status == DeliveryFailed)
  }

  lemma SettledKeepsInv(s: State, s': State)
    requires Inv(s) && EventsSettled(s, s') && KeepsDeadLetters(s, s') && s'.runs == s.runs
    requires forall j :: j in s.jobs ==> j in s'.jobs && s'.jobs[j] == s.jobs[j]
    requires forall j :: j in s'.jobs && j !in s.jobs ==> s'.jobs[j].row.status == Queued
    ensures Inv(s')
  {
    forall e | e in s'.events && s'.events[e].status == DeliveryFailed ensures HasDeadLetter(s', e) {
      KeepsHasDeadLetter(s, s', e);
    }
    forall j | j in s'.jobs ensures DeadLetterShown(s', j) {
      if j in s.jobs {
        assert DeadLetterShown(s, j);
      }
    }
    forall r | r in s'.runs ensures RunHonest(s', s'.runs[r]) {
      assert RunHonest(s, s.runs[r]);
    }
  }

  lemma ApiKeepsInv(s: State, a: Action)
    requires Context(s) && Inv(s) && Enabled(s, a) && OfApi(a)
    requires KeepsDeadLetters(s, ApplyApi(s, ApiAction(s, a).0, ApiAction(s, a).1))
    ensures Inv(ApplyApi(s, ApiAction(s, a).0, ApiAction(s, a).1))
  {
    var s' := ApplyApi(s, ApiAction(s, a).0, ApiAction(s, a).1);
    Ownership.ApiKeepsJobs(s, a);
    assert EventsSettled(s, s');
    SettledKeepsInv(s, s');
  }

  lemma ClaimKeepsInv(s: State, r: Id, j: Id)
    requires Inv(s) && r !in s.runs && Recoverable(s, j) && KeepsDeadLetters(s, ClaimJob(s, r, j))
    ensures Inv(ClaimJob(s, r, j))
  {
    var s' := ClaimJob(s, r, j);
    forall e | e in s'.events && s'.events[e].status == DeliveryFailed ensures HasDeadLetter(s', e) {
      KeepsHasDeadLetter(s, s', e);
    }
    forall k | k in s'.jobs ensures DeadLetterShown(s', k) {
      assert DeadLetterShown(s, k);
      if q :| q in s.runs && s.runs[q].job == k && s.runs[q].pc == Settled(DeadLettered) {
        assert q in s'.runs && s'.runs[q] == s.runs[q];
      }
    }
    forall q | q in s'.runs ensures RunHonest(s', s'.runs[q]) {
      assert q != r ==> RunHonest(s, s.runs[q]);
    }
  }

  lemma LoseRunKeepsInv(s: State, r: Id)
    requires Inv(s) && r in s.runs && s.runs[r].job in s.jobs && KeepsDeadLetters(s, LoseRun(s, r))
    ensures Inv(LoseRun(s, r))
  {
    var s' := LoseRun(s, r);
    forall e | e in s'.events && s'.events[e].status == DeliveryFailed ensures HasDeadLetter(s', e) {
      KeepsHasDeadLetter(s, s', e);
    }
    forall k | k in s'.jobs ensures DeadLetterShown(s', k) {
      assert DeadLetterShown(s, k);
      if k != s.runs[r].job {
        if q :| q in s.runs && s.runs[q].job == k && s.runs[q].pc == Settled(DeadLettered) {
          assert q in s'.runs && s'.runs[q] == s.runs[q];
        }
      }
    }
    forall q | q in s'.runs ensures RunHonest(s', s'.runs[q]) {
      assert RunHonest(s, s.runs[q]);
    }
  }

  lemma IdleKeepsInv(s: State, seconds: nat, memory: ClaimTable.Claims)
    requires Inv(s)
    ensures Inv(Idle(s, seconds, memory))
  {
  }

  lemma StepKeepsInv(backoff: seq<int>, s: State, a: Action, s': State)
    requires Context(s) && Inv(s) && Enabled(s, a) && Ownership.Orderly(s, a) && s' == Do(backoff, s, a)
    ensures Inv(s')
  {
    StepKeepsDeadLetters(backoff, s, a);
    match a {
      case Tick(seconds) =>
        IdleKeepsInv(s, seconds, s.memory);
        assert s' == Idle(s, seconds, s.memory);
      case StepRun(r, i) =>
        assert s' == RunStep(backoff, s, r, i);
        RunStepKeepsInv(backoff, s, r, i);
      case Claim(r, j) =>
        assert s' == ClaimJob(s, r, j);
        ClaimKeepsInv(s, r, j);
      case Crash(r) =>
        assert s' == LoseRun(s, r);
        LoseRunKeepsInv(s, r);
      case Restart =>
        IdleKeepsInv(s, 0, map[]);
        assert s' == Idle(s, 0, map[]);
      case _ =>
        assert s' == ApplyApi(s, ApiAction(s, a).0, ApiAction(s, a).1);
        ApiKeepsInv(s, a);
    }
  }

  lemma {:induction false} ContextOfRun(backoff: seq<int>, actions: seq<Action>)
    requires Ownership.OrderlyRun(backoff, actions)
    ensures Context(Run(backoff, actions))
  {
    Triage.EveryRunKeepsInv(backoff, actions);
    Ownership.EveryRunKeepsInv(backoff, actions);
    Lineage.EveryRunKeepsInv(backoff, actions);
  }

  lemma {:induction false} EveryRunKeepsInv(backoff: seq<int>, actions: seq<Action>)
    requires Ownership.OrderlyRun(backoff, actions)
    ensures Inv(Run(backoff, actions))
  {
    if |actions| > 0 {
      var s, a := Run(backoff, actions[..|actions| - 1]), actions[|actions| - 1];
      EveryRunKeepsInv(backoff, actions[..|actions| - 1]);
      ContextOfRun(backoff, actions[..|actions| - 1]);
      if Enabled(s, a) {
        StepKeepsInv(backoff, s, a, Do(backoff, s, a));
      }
    }
  }

  /** A dead letter of the event, without a key and a lost run, whose run has passed the marking step. */
  ghost predicate DeadLetterDone(s: State, j: Id, e: Id) {
    && j in s.jobs && s.jobs[j].row.event == e && s.jobs[j].row.status == DeadLettered
    && Evidence.Plain(s.jobs[j]) && !MarkDue(s, j)
  }

  /**
    In every interleaving, an event marked `delivery_failed` has a dead-lettered job.  Conversely one
    dead-lettered job without a key that lost no run suffices, whatever the other jobs of the event
    are doing, as soon as its own run has passed the step that marks the event.
   */
  lemma {:induction false} FailedIffDeadLettered(backoff: seq<int>, actions: seq<Action>, e: Id)
    requires Ownership.OrderlyRun(backoff, actions)
    requires e in Run(backoff, actions).events
    ensures var s := Run(backoff, actions);
      && (s.events[e].status == DeliveryFailed ==> HasDeadLetter(s, e))
      && ((exists j :: DeadLetterDone(s, j, e)) ==> s.events[e].status == DeliveryFailed)
  {
    var s := Run(backoff, actions);
    EveryRunKeepsInv(backoff, actions);
    if j :| DeadLetterDone(s, j, e) {
      assert DeadLetterShown(s, j);
    }
  }
}
