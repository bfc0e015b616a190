/**
  When no stale row is reclaimed from a run that is still alive, at most one worker run may write a
  job row at any time, and a terminal row is never written again.
 */
module Ownership {
  import opened Dicts
  import opened Protocol

  ghost predicate SoleWriters(s: State) {
    forall r, q :: r in s.runs && q in s.runs && r != q && Writing(s.runs[r]) && Writing(s.runs[q]) ==>
      s.runs[r].job != s.runs[q].job
  }

  ghost predicate WritersDeliver(s: State) {
    forall r :: r in s.runs && Writing(s.runs[r]) ==>
      s.runs[r].job in s.jobs && s.jobs[s.runs[r].job].row.status == Delivering
  }

  ghost predicate Inv(s: State) {
    SoleWriters(s) && WritersDeliver(s)
  }

  /** A row that is `delivering` is claimed only once no run that may still write it is alive. */
  ghost predicate Orderly(s: State, a: Action) {
    a.Claim? && a.j in s.jobs && s.jobs[a.j].row.status == Delivering ==> !Owned(s, a.j)
  }

  /** Every claim of the run is orderly: jobs become stale only by losing their runs. */
  ghost predicate OrderlyRun(backoff: seq<int>, actions: seq<Action>) {
    |actions| > 0 ==>
      var init, a := actions[..|actions| - 1], actions[|actions| - 1];
      OrderlyRun(backoff, init) && (Enabled(Run(backoff, init), a) ==> Orderly(Run(backoff, init), a))
  }

  ghost predicate Free(s: State, j: Id) {
    Recoverable(s, j) && (s.jobs[j].row.status == Delivering ==> !Owned(s, j))
  }

  /** A run that has settled its outcome never writes the row again. */
  ghost predicate DeltaOwns(run: WorkerRun, t: Tracked, d: Delta) {
    && (d.pc.Some? && Writing(run.(pc := d.pc.value)) ==> Writing(run) && d.job.row.status == Delivering)
    && (!Writing(run) ==> d.job.row == t.row)
  }

  lemma NextDeltaOwns(backoff: seq<int>, s: State, r: Id, i: Input)
    requires CanStep(s, r) && (Writing(s.runs[r]) ==> s.jobs[s.runs[r].job].row.status == Delivering)
    ensures DeltaOwns(s.runs[r], s.jobs[s.runs[r].job], NextDelta(backoff, s, r, i))
  {
  }

  /** The five things a step can do to its job. */
  ghost predicate JobChanges(backoff: seq<int>, now: int, run: WorkerRun, t: Tracked, d: Delta) {
    var n := run.attempts + 1;
    match run.pc
    case Waiting => d.pc == Some(Started) && d.job == Taken(t, n, now)
    case Touched(response) =>
      var final := Outcome(backoff, n, response);
      d.pc == Some(Settled(final)) && d.job == Finished(backoff, t, n, now, final)
    case Suppressed => d.pc == None && d.job == BlockedJob(t)
    case Settled(final) =>
      if final == DeadLettered then d.pc == Some(Marked(final)) && d.job == t
      else d.pc == None && d.job == t.(past := t.past.(closed := Some(Closing(n, final))))
    case Marked(final) => d.pc == None && d.job == t.(past := t.past.(closed := Some(Closing(n, final))))
    case _ =>
      && d.pc.Some? && d.pc.value != Waiting && Writing(run.(pc := d.pc.value))
      && (d.job == t || d.job == t.(row := t.row.(status := Delivering, attempts := n)))
  }

  lemma NextDeltaJobBeforeSending(backoff: seq<int>, s: State, r: Id, i: Input)
    requires CanStep(s, r) && BeforeSending(s.runs[r].pc)
    ensures JobChanges(backoff, s.now, s.runs[r], s.jobs[s.runs[r].job], NextDelta(backoff, s, r, i))
  {
  }

  lemma NextDeltaJobAfterSending(backoff: seq<int>, s: State, r: Id, i: Input)
    requires CanStep(s, r) && !BeforeSending(s.runs[r].pc)
    ensures JobChanges(backoff, s.now, s.runs[r], s.jobs[s.runs[r].job], NextDelta(backoff, s, r, i))
  {
  }

  lemma NextDeltaJob(backoff: seq<int>, s: State, r: Id, i: Input)
    requires CanStep(s, r)
    ensures JobChanges(backoff, s.now, s.runs[r], s.jobs[s.runs[r].job], NextDelta(backoff, s, r, i))
  {
    if BeforeSending(s.runs[r].pc) {
      NextDeltaJobBeforeSending(backoff, s, r, i);
    } else {
      NextDeltaJobAfterSending(backoff, s, r, i);
    }
  }

  lemma ApplyKeepsInv(s: State, r: Id, d: Delta)
    requires Inv(s) && CanStep(s, r) && DeltaOwns(s.runs[r], s.jobs[s.runs[r].job], d)
    ensures Inv(Apply(s, r, d))
  {
  }

  /** An orderly claim never takes a job that a run may still write. */
  lemma ClaimIsFree(s: State, j: Id)
    requires Inv(s) && Free(s, j)
    ensures !Owned(s, j)
  {
  }

  lemma ClaimKeepsInv(s: State, r: Id, j: Id)
    requires Inv(s) && r !in s.runs && Free(s, j)
    ensures Inv(ClaimJob(s, r, j))
  {
    ClaimIsFree(s, j);
    assert forall q :: q in s.runs && Writing(s.runs[q]) ==> IsOwner(s, s.runs[q].job, q);
  }

  /** An api transaction leaves job rows and runs alone, except that it may add a job. */
  lemma ApiKeepsJobs(s: State, a: Action)
    requires Enabled(s, a) && OfApi(a)
    ensures var s' := ApplyApi(s, ApiAction(s, a).0, ApiAction(s, a).1);
      && s'.runs == s.runs && s'.now == s.now && s'.attempts == s.attempts
      && (forall j :: j in s.jobs ==> j in s'.jobs && s'.jobs[j] == s.jobs[j])
      && (forall j :: j in s'.jobs && j !in s.jobs ==>
            s'.jobs[j].row.status == Queued && s'.jobs[j].row.attempts == 0 && s'.jobs[j].row.nextAttempt == s.now &&
            s'.jobs[j].past == Past(0, 0, [], [], None))
  {
  }

  lemma StepKeepsInv(backoff: seq<int>, s: State, a: Action)
    requires Inv(s) && Enabled(s, a) && Orderly(s, a)
    ensures Inv(Do(backoff, s, a))
  {
    if OfApi(a) {
      ApiKeepsJobs(s, a);
    } else if a.StepRun? {
      NextDeltaOwns(backoff, s, a.r, a.i);
      ApplyKeepsInv(s, a.r, NextDelta(backoff, s, a.r, a.i));
    } else if a.Claim? {
      ClaimKeepsInv(s, a.r, a.j);
    }
  }

  /** In every orderly run at most one worker run may write a job row, and such a row is `delivering`. */
  lemma {:induction false} EveryRunKeepsInv(backoff: seq<int>, actions: seq<Action>)
    requires OrderlyRun(backoff, actions)
    ensures SoleWriters(Run(backoff, actions)) && WritersDeliver(Run(backoff, actions))
  {
    if |actions| > 0 {
      var s, a := Run(backoff, actions[..|actions| - 1]), actions[|actions| - 1];
      EveryRunKeepsInv(backoff, actions[..|actions| - 1]);
      if Enabled(s, a) {
        StepKeepsInv(backoff, s, a);
      }
    }
  }

  lemma StepKeepsTerminal(backoff: seq<int>, s: State, a: Action, j: Id)
    requires Inv(s) && Enabled(s, a) && Orderly(s, a) && j in s.jobs && Terminal(s.jobs[j].row.status)
    ensures j in Do(backoff, s, a).jobs && Do(backoff, s, a).jobs[j].row == s.jobs[j].row
  {
    if OfApi(a) {
      ApiKeepsJobs(s, a);
    } else if a.StepRun? {
      NextDeltaOwns(backoff, s, a.r, a.i);
    }
  }

  /** Once delivered, dead-lettered or blocked, a row never changes again, whatever happens next. */
  lemma {:induction false} TerminalForever(backoff: seq<int>, actions: seq<Action>, further: seq<Action>, j: Id)
    requires OrderlyRun(backoff, actions + further)
    requires j in Run(backoff, actions).jobs && Terminal(Run(backoff, actions).jobs[j].row.status)
    ensures var later := Run(backoff, actions + further);
      j in later.jobs && later.jobs[j].row == Run(backoff, actions).jobs[j].row
    decreases |further|
  {
    if |further| == 0 {
      assert actions + further == actions;
    } else {
      var init, a := further[..|further| - 1], further[|further| - 1];
      assert (actions + further)[..|actions + further| - 1] == actions + init;
      TerminalForever(backoff, actions, init, j);
      var s := Run(backoff, actions + init);
      EveryRunKeepsInv(backoff, actions + init);
      if Enabled(s, a) {
        StepKeepsTerminal(backoff, s, a, j);
      }
    }
  }

  // ---------------------------------------------------------------- properties of a job and its owner

  /** Something that holds of a job and of the run that may write it, if there is one. */
  type JobProperty = (Tracked, Option<WorkerRun>) -> bool

  ghost predicate Holds(P: JobProperty, s: State, j: Id)
    requires j in s.jobs
  {
    && (forall r :: IsOwner(s, j, r) ==> P(s.jobs[j], Some(s.runs[r])))
    && (!Owned(s, j) ==> P(s.jobs[j], None))
  }

  ghost function RunAfter(run: WorkerRun, d: Delta): Option<WorkerRun> {
    if d.pc.Some? && Writing(run.(pc := d.pc.value)) then Some(run.(pc := d.pc.value)) else None
  }

  /** The same job, with the same owner, in two states. */
  lemma FrameHolds(P: JobProperty, Q: JobProperty, s: State, s': State, j: Id)
    requires j in s.jobs && j in s'.jobs && Holds(P, s, j)
    requires forall r :: IsOwner(s, j, r) <==> IsOwner(s', j, r)
    requires forall r :: IsOwner(s, j, r) ==> r in s'.runs && s.runs[r] == s'.runs[r]
    requires forall w :: P(s.jobs[j], w) ==> Q(s'.jobs[j], w)
    ensures Holds(Q, s', j)
  {
  }

  /** The owner of a job makes a step. */
  lemma OwnerStepHolds(P: JobProperty, Q: JobProperty, s: State, r: Id, d: Delta)
    requires Inv(s) && CanStep(s, r) && Writing(s.runs[r]) && Holds(P, s, s.runs[r].job)
    requires P(s.jobs[s.runs[r].job], Some(s.runs[r])) ==> Q(d.job, RunAfter(s.runs[r], d))
    ensures Holds(Q, Apply(s, r, d), s.runs[r].job)
  {
    var s', j := Apply(s, r, d), s.runs[r].job;
    assert IsOwner(s, j, r);
    forall q | IsOwner(s', j, q) ensures q == r {
      assert q != r ==> IsOwner(s, j, q);
    }
    assert RunAfter(s.runs[r], d).Some? <==> IsOwner(s', j, r);
  }

  /** Some other run makes a step, perhaps an older one of the same job that has yet to close. */
  lemma OtherStepHolds(P: JobProperty, Q: JobProperty, s: State, r: Id, d: Delta, j: Id)
    requires Inv(s) && CanStep(s, r) && j in s.jobs && Holds(P, s, j)
    requires DeltaOwns(s.runs[r], s.jobs[s.runs[r].job], d)
    requires j == s.runs[r].job ==> !Writing(s.runs[r])
    requires forall w :: P(s.jobs[j], w) ==> Q(Apply(s, r, d).jobs[j], w)
    ensures Holds(Q, Apply(s, r, d), j)
  {
    var s' := Apply(s, r, d);
    assert !IsOwner(s, j, r) && !IsOwner(s', j, r);
    assert forall q :: q != r ==> (IsOwner(s, j, q) <==> IsOwner(s', j, q));
    FrameHolds(P, Q, s, s', j);
  }

  lemma ClaimHolds(P: JobProperty, Q: JobProperty, s: State, r: Id, j: Id)
    requires Inv(s) && r !in s.runs && Free(s, j) && Holds(P, s, j)
    requires var s' := ClaimJob(s, r, j); P(s.jobs[j], None) ==> Q(s'.jobs[j], Some(s'.runs[r]))
    ensures Holds(Q, ClaimJob(s, r, j), j)
  {
    var s' := ClaimJob(s, r, j);
    ClaimIsFree(s, j);
    forall q | IsOwner(s', j, q) ensures q == r {
      assert q != r ==> IsOwner(s, j, q);
    }
    assert IsOwner(s', j, r);
  }

  lemma OtherClaimHolds(P: JobProperty, s: State, r: Id, j: Id, k: Id)
    requires r !in s.runs && j in s.jobs && k in s.jobs && k != j && Holds(P, s, k)
    ensures Holds(P, ClaimJob(s, r, j), k)
  {
    var s' := ClaimJob(s, r, j);
    assert !IsOwner(s, k, r) && !IsOwner(s', k, r);
    assert forall q :: q != r ==> (IsOwner(s, k, q) <==> IsOwner(s', k, q));
    FrameHolds(P, P, s, s', k);
  }

  /** A lost run leaves its job without an owner, if it was the owner. */
  lemma LoseRunHolds(P: JobProperty, Q: JobProperty, s: State, r: Id, k: Id)
    requires Inv(s) && r in s.runs && s.runs[r].job in s.jobs && k in s.jobs && Holds(P, s, k)
    requires IsOwner(s, k, r) && P(s.jobs[k], Some(s.runs[r])) ==> Q(LoseRun(s, r).jobs[k], None)
    requires !IsOwner(s, k, r) ==> forall w :: P(s.jobs[k], w) ==> Q(LoseRun(s, r).jobs[k], w)
    ensures Holds(Q, LoseRun(s, r), k)
  {
    var s' := LoseRun(s, r);
    assert !IsOwner(s', k, r);
    assert forall q :: q != r ==> (IsOwner(s, k, q) <==> IsOwner(s', k, q));
    if IsOwner(s, k, r) {
      assert forall q :: q != r ==> !IsOwner(s, k, q);
    } else {
      FrameHolds(P, Q, s, s', k);
    }
  }

  lemma SameRunsHold(P: JobProperty, Q: JobProperty, s: State, s': State, j: Id)
    requires s'.runs == s.runs && j in s.jobs && j in s'.jobs && Holds(P, s, j)
    requires forall w :: P(s.jobs[j], w) ==> Q(s'.jobs[j], w)
    ensures Holds(Q, s', j)
  {
    assert forall q :: IsOwner(s, j, q) <==> IsOwner(s', j, q);
    FrameHolds(P, Q, s, s', j);
  }

  lemma NewJobHolds(Q: JobProperty, s: State, s': State, j: Id)
    requires Inv(s) && s'.runs == s.runs && j !in s.jobs && j in s'.jobs && Q(s'.jobs[j], None)
    ensures Holds(Q, s', j)
  {
  }

  function Both(P: JobProperty, Q: JobProperty): JobProperty {
    (t, w) => P(t, w) && Q(t, w)
  }

  lemma HoldsBoth(P: JobProperty, Q: JobProperty, s: State, j: Id)
    requires j in s.jobs && Holds(P, s, j) && Holds(Q, s, j)
    ensures Holds(Both(P, Q), s, j)
  {
  }
}
