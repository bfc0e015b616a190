/**
  How often and how soon a job is attempted (core/queue_worker.py, lines 64-66 and 145-158,
  database/repository.py, lines 657-672), in every interleaving.
 */
module RetryPolicy {
  import opened Dicts
  import opened Protocol
  import opened Outbound
  import opened Ownership
  import ClaimTable

  // ---------------------------------------------------------------- counts

  /** Counts of a job with owner `w`: every count is bounded by the policy plus the crashes. */
  predicate Counts(limit: nat, t: Tracked, w: Option<WorkerRun>) {
    var n, c, claims := t.row.attempts, t.past.crashes, t.past.claims;
    if w.Some? then
      var taken := w.value.pc != Waiting;
      && n == (if taken then w.value.attempts + 1 else w.value.attempts)
      && w.value.attempts < limit + c && claims <= limit + c
      && claims <= (if taken then n + c else n + c + 1)
      && n <= (if taken then claims else claims - 1)
    else
      match t.row.status
      case Queued => n == 0 && claims <= c
      case Retrying => 1 <= n < limit && n <= claims <= n + c
      case Delivering => 1 <= c && n < limit + c && claims < limit + c && n <= claims <= n + c
      case Blocked => n == 1 && claims <= limit + c
      case _ => 1 <= n <= limit + c && claims <= limit + c && n <= claims <= n + c
  }

  // ---------------------------------------------------------------- times of a job without crashes

  /** Attempt `k + 1` started no earlier than `backoff[k]` seconds after the outcome of attempt `k`. */
  predicate Spaced(backoff: seq<int>, past: Past) {
    && |past.outcomes| <= |past.starts| <= |past.outcomes| + 1 && |past.starts| <= |backoff|
    && (forall k :: 0 <= k < |past.outcomes| ==> past.starts[k] <= past.outcomes[k])
    && (forall k :: 1 <= k < |past.starts| ==> past.outcomes[k - 1] + backoff[k] <= past.starts[k])
  }

  predicate Timed(backoff: seq<int>, now: int, t: Tracked, w: Option<WorkerRun>) {
    var n, past := t.row.attempts, t.past;
    && Spaced(backoff, past)
    && (|past.starts| > |past.outcomes| ==> past.starts[|past.starts| - 1] <= now)
    && (t.row.status != Blocked ==> |past.starts| == n)
    && if w.Some? then
         if w.value.pc == Waiting then
           |past.outcomes| == n && n < |backoff| && (0 < n ==> past.outcomes[n - 1] + backoff[n] <= now)
         else 1 <= n <= |backoff| && |past.outcomes| == n - 1
       else
         && (t.row.status != Blocked ==> |past.outcomes| == n)
         && (t.row.status == Queued ==> t.row.nextAttempt <= now)
         && (t.row.status == Retrying ==> 1 <= n < |backoff| && t.row.nextAttempt == past.outcomes[n - 1] + backoff[n])
  }

  predicate Fits(backoff: seq<int>, now: int, t: Tracked, w: Option<WorkerRun>) {
    && Counts(|backoff|, t, w)
    && (t.past.crashes == 0 ==> Timed(backoff, now, t, w))
  }

  function FitsAt(backoff: seq<int>, now: int): JobProperty {
    (t, w) => Fits(backoff, now, t, w)
  }

  ghost predicate Inv(backoff: seq<int>, s: State) {
    forall j :: j in s.jobs ==> Holds(FitsAt(backoff, s.now), s, j)
  }

  // ---------------------------------------------------------------- one job through one step

  lemma TakenFits(backoff: seq<int>, now: int, t: Tracked, run: WorkerRun, next: WorkerRun)
    requires run.pc == Waiting && next == run.(pc := Started) && t.row.status == Delivering
    requires Fits(backoff, now, t, Some(run))
    ensures Fits(backoff, now, Taken(t, run.attempts + 1, now), Some(next))
  {
  }

  lemma FinishedFits(backoff: seq<int>, now: int, t: Tracked, run: WorkerRun, final: JobStatus)
    requires run.pc.Touched? && Fits(backoff, now, t, Some(run)) && t.row.status == Delivering
    requires final == Delivered || final == DeadLettered || (final == Retrying && run.attempts + 1 < |backoff|)
    ensures Fits(backoff, now, Finished(backoff, t, run.attempts + 1, now, final), None)
  {
  }

  lemma BlockedFits(backoff: seq<int>, now: int, t: Tracked, run: WorkerRun)
    requires run.pc == Suppressed && Fits(backoff, now, t, Some(run)) && |backoff| > 0
    ensures Fits(backoff, now, BlockedJob(t), None)
  {
  }

  /** Any other step of a writing run leaves the row as it is. */
  lemma SteadyFits(backoff: seq<int>, now: int, t: Tracked, run: WorkerRun, next: WorkerRun)
    requires run.pc != Waiting && next == run.(pc := next.pc) && next.pc != Waiting && t.row.status == Delivering
    requires Fits(backoff, now, t, Some(run))
    ensures Fits(backoff, now, t, Some(next))
    ensures Fits(backoff, now, t.(row := t.row.(status := Delivering, attempts := run.attempts + 1)), Some(next))
  {
  }

  lemma OwnerFits(backoff: seq<int>, now: int, run: WorkerRun, t: Tracked, d: Delta)
    requires |backoff| > 0 && Writing(run) && t.row.status == Delivering
    requires JobChanges(backoff, now, run, t, d) && Fits(backoff, now, t, Some(run))
    ensures Fits(backoff, now, d.job, RunAfter(run, d))
  {
    if run.pc == Waiting {
      TakenFits(backoff, now, t, run, run.(pc := Started));
    } else if run.pc.Touched? {
      FinishedFits(backoff, now, t, run, Outcome(backoff, run.attempts + 1, run.pc.response));
    } else if run.pc == Suppressed {
      BlockedFits(backoff, now, t, run);
    } else {
      SteadyFits(backoff, now, t, run, run.(pc := d.pc.value));
    }
  }

  lemma ClosedFits(backoff: seq<int>, now: int, t: Tracked, closed: Option<Closing>, w: Option<WorkerRun>)
    requires Fits(backoff, now, t, w)
    ensures Fits(backoff, now, t.(past := t.past.(closed := closed)), w)
  {
  }

  /** After its outcome a run only adds to the record of closings. */
  lemma ClosingFits(backoff: seq<int>, now: int, run: WorkerRun, t: Tracked, d: Delta, w: Option<WorkerRun>)
    requires !Writing(run) && JobChanges(backoff, now, run, t, d) && Fits(backoff, now, t, w)
    ensures Fits(backoff, now, d.job, w)
  {
    ClosedFits(backoff, now, t, d.job.past.closed, w);
    assert d.job == t.(past := t.past.(closed := d.job.past.closed));
  }

  lemma ClaimFits(backoff: seq<int>, now: int, t: Tracked, run: WorkerRun)
    requires |backoff| > 0 && Fits(backoff, now, t, None)
    requires t.row.status == Delivering || (t.row.status in {Queued, Retrying} && t.row.nextAttempt <= now)
    requires run.pc == Waiting && run.attempts == t.row.attempts
    ensures Fits(backoff, now, Tracked(t.row.(status := Delivering), t.past.(claims := t.past.claims + 1)), Some(run))
  {
  }

  lemma LaterFits(backoff: seq<int>, now: int, later: int, t: Tracked, w: Option<WorkerRun>)
    requires now <= later && Fits(backoff, now, t, w)
    ensures Fits(backoff, later, t, w)
  {
  }

  lemma NewFits(backoff: seq<int>, now: int, t: Tracked)
    requires t.row.status == Queued && t.row.attempts == 0 && t.row.nextAttempt <= now
    requires t.past == Past(0, 0, [], [], None)
    ensures Fits(backoff, now, t, None)
  {
  }

  // ---------------------------------------------------------------- all jobs through one step

  lemma RunStepKeepsInv(backoff: seq<int>, s: State, r: Id, i: Input, j: Id)
    requires |backoff| > 0 && Ownership.Inv(s) && CanStep(s, r)
    requires j in s.jobs && Holds(FitsAt(backoff, s.now), s, j)
    ensures Holds(FitsAt(backoff, s.now), RunStep(backoff, s, r, i), j)
  {
    var P, d, run := FitsAt(backoff, s.now), NextDelta(backoff, s, r, i), s.runs[r];
    NextDeltaJob(backoff, s, r, i);
    NextDeltaOwns(backoff, s, r, i);
    if j == run.job && Writing(run) {
      if P(s.jobs[j], Some(run)) {
        OwnerFits(backoff, s.now, run, s.jobs[j], d);
      }
      OwnerStepHolds(P, P, s, r, d);
    } else {
      forall w | P(s.jobs[j], w) ensures P(Apply(s, r, d).jobs[j], w) {
        if j == run.job {
          ClosingFits(backoff, s.now, run, s.jobs[j], d, w);
        }
      }
      OtherStepHolds(P, P, s, r, d, j);
    }
  }

  lemma ClaimedJobFits(backoff: seq<int>, s: State, r: Id, j: Id)
    requires |backoff| > 0 && r !in s.runs && Recoverable(s, j) && Fits(backoff, s.now, s.jobs[j], None)
    ensures Fits(backoff, s.now, ClaimJob(s, r, j).jobs[j], Some(ClaimJob(s, r, j).runs[r]))
  {
    var t := s.jobs[j];
    var run := WorkerRun(j, t.row.event, t.row.bridge, t.row.key, false, t.row.attempts, Waiting);
    ClaimFits(backoff, s.now, t, run);
    assert ClaimJob(s, r, j).runs[r] == run;
    assert ClaimJob(s, r, j).jobs[j] == Tracked(t.row.(status := Delivering), t.past.(claims := t.past.claims + 1));
  }

  lemma ClaimKeepsInv(backoff: seq<int>, s: State, r: Id, j: Id, k: Id)
    requires |backoff| > 0 && Ownership.Inv(s) && r !in s.runs && Free(s, j)
    requires k in s.jobs && Holds(FitsAt(backoff, s.now), s, k)
    ensures Holds(FitsAt(backoff, s.now), ClaimJob(s, r, j), k)
  {
    var P := FitsAt(backoff, s.now);
    if k == j {
      if P(s.jobs[j], None) {
        ClaimedJobFits(backoff, s, r, j);
      }
      ClaimHolds(P, P, s, r, j);
    } else {
      OtherClaimHolds(P, s, r, j, k);
    }
  }

  lemma OwnerCrashFits(backoff: seq<int>, s: State, r: Id, k: Id)
    requires Ownership.Inv(s) && IsOwner(s, k, r) && k in s.jobs && Fits(backoff, s.now, s.jobs[k], Some(s.runs[r]))
    ensures Fits(backoff, s.now, LoseRun(s, r).jobs[k], None)
  {
  }

  lemma OtherCrashFits(backoff: seq<int>, s: State, r: Id, k: Id, w: Option<WorkerRun>)
    requires r in s.runs && s.runs[r].job in s.jobs && k in s.jobs && Fits(backoff, s.now, s.jobs[k], w)
    ensures Fits(backoff, s.now, LoseRun(s, r).jobs[k], w)
  {
  }

  lemma CrashKeepsInv(backoff: seq<int>, s: State, r: Id, k: Id)
    requires |backoff| > 0 && Ownership.Inv(s) && r in s.runs && s.runs[r].job in s.jobs
    requires k in s.jobs && Holds(FitsAt(backoff, s.now), s, k)
    ensures Holds(FitsAt(backoff, s.now), LoseRun(s, r), k)
  {
    var P := FitsAt(backoff, s.now);
    if IsOwner(s, k, r) && P(s.jobs[k], Some(s.runs[r])) {
      OwnerCrashFits(backoff, s, r, k);
    }
    forall w | P(s.jobs[k], w) ensures P(LoseRun(s, r).jobs[k], w) {
      OtherCrashFits(backoff, s, r, k, w);
    }
    LoseRunHolds(P, P, s, r, k);
  }

  lemma ApiKeepsInv(backoff: seq<int>, s: State, a: Action, j: Id)
    requires Ownership.Inv(s) && Inv(backoff, s) && Enabled(s, a) && OfApi(a)
    requires j in ApplyApi(s, ApiAction(s, a).0, ApiAction(s, a).1).jobs
    ensures Holds(FitsAt(backoff, s.now), ApplyApi(s, ApiAction(s, a).0, ApiAction(s, a).1), j)
  {
    var s' := ApplyApi(s, ApiAction(s, a).0, ApiAction(s, a).1);
    ApiKeepsJobs(s, a);
    if j in s.jobs {
      SameRunsHold(FitsAt(backoff, s.now), FitsAt(backoff, s.now), s, s', j);
    } else {
      NewFits(backoff, s.now, s'.jobs[j]);
      NewJobHolds(FitsAt(backoff, s.now), s, s', j);
    }
  }

  lemma IdleKeepsInv(backoff: seq<int>, s: State, seconds: nat, memory: ClaimTable.Claims, j: Id)
    requires Inv(backoff, s) && j in s.jobs
    ensures Holds(FitsAt(backoff, s.now + seconds), Idle(s, seconds, memory), j)
  {
    var P, Q := FitsAt(backoff, s.now), FitsAt(backoff, s.now + seconds);
    forall w | P(s.jobs[j], w) ensures Q(s.jobs[j], w) {
      LaterFits(backoff, s.now, s.now + seconds, s.jobs[j], w);
    }
    SameRunsHold(P, Q, s, Idle(s, seconds, memory), j);
  }

  lemma RunStepKeepsAll(backoff: seq<int>, s: State, r: Id, i: Input)
    requires |backoff| > 0 && Ownership.Inv(s) && Inv(backoff, s) && CanStep(s, r)
    ensures Inv(backoff, RunStep(backoff, s, r, i))
  {
    forall j | j in s.jobs ensures Holds(FitsAt(backoff, s.now), RunStep(backoff, s, r, i), j) {
      RunStepKeepsInv(backoff, s, r, i, j);
    }
  }

  lemma ClaimKeepsAll(backoff: seq<int>, s: State, r: Id, j: Id)
    requires |backoff| > 0 && Ownership.Inv(s) && Inv(backoff, s) && r !in s.runs && Free(s, j)
    ensures Inv(backoff, ClaimJob(s, r, j))
  {
    forall k | k in s.jobs ensures Holds(FitsAt(backoff, s.now), ClaimJob(s, r, j), k) {
      ClaimKeepsInv(backoff, s, r, j, k);
    }
  }

  lemma CrashKeepsAll(backoff: seq<int>, s: State, r: Id)
    requires |backoff| > 0 && Ownership.Inv(s) && Inv(backoff, s) && r in s.runs && s.runs[r].job in s.jobs
    ensures Inv(backoff, LoseRun(s, r))
  {
    forall k | k in s.jobs ensures Holds(FitsAt(backoff, s.now), LoseRun(s, r), k) {
      CrashKeepsInv(backoff, s, r, k);
    }
  }

  lemma IdleKeepsAll(backoff: seq<int>, s: State, seconds: nat, memory: ClaimTable.Claims)
    requires Inv(backoff, s)
    ensures Inv(backoff, Idle(s, seconds, memory))
  {
    forall j | j in s.jobs ensures Holds(FitsAt(backoff, s.now + seconds), Idle(s, seconds, memory), j) {
      IdleKeepsInv(backoff, s, seconds, memory, j);
    }
  }

  lemma ApiKeepsAll(backoff: seq<int>, s: State, a: Action)
    requires Ownership.Inv(s) && Inv(backoff, s) && Enabled(s, a) && OfApi(a)
    ensures Inv(backoff, ApplyApi(s, ApiAction(s, a).0, ApiAction(s, a).1))
  {
    var s' := ApplyApi(s, ApiAction(s, a).0, ApiAction(s, a).1);
    forall j | j in s'.jobs ensures Holds(FitsAt(backoff, s.now), s', j) {
      ApiKeepsInv(backoff, s, a, j);
    }
  }

  lemma StepKeepsInv(backoff: seq<int>, s: State, a: Action, s': State)
    requires |backoff| > 0 && Ownership.Inv(s) && Inv(backoff, s) && Enabled(s, a) && Orderly(s, a)
    requires s' == Do(backoff, s, a)
    ensures Inv(backoff, s')
  {
    match a {
      case Tick(seconds) =>
        IdleKeepsAll(backoff, s, seconds, s.memory);
        assert s' == Idle(s, seconds, s.memory);
      case StepRun(r, i) =>
        RunStepKeepsAll(backoff, s, r, i);
        assert s' == RunStep(backoff, s, r, i);
      case Claim(r, j) =>
        ClaimKeepsAll(backoff, s, r, j);
        assert s' == ClaimJob(s, r, j);
      case Crash(r) =>
        CrashKeepsAll(backoff, s, r);
        assert s' == LoseRun(s, r);
      case Restart =>
        IdleKeepsAll(backoff, s, 0, map[]);
        assert s' == Idle(s, 0, map[]);
      case _ =>
        ApiKeepsAll(backoff, s, a);
        assert s' == ApplyApi(s, ApiAction(s, a).0, ApiAction(s, a).1);
    }
  }

  lemma {:induction false} EveryRunKeepsInv(backoff: seq<int>, actions: seq<Action>)
    requires OrderlyRun(backoff, actions)
    requires |backoff| > 0
    ensures Inv(backoff, Run(backoff, actions))
  {
    if |actions| > 0 {
      var s, a := Run(backoff, actions[..|actions| - 1]), actions[|actions| - 1];
      EveryRunKeepsInv(backoff, actions[..|actions| - 1]);
      Ownership.EveryRunKeepsInv(backoff, actions[..|actions| - 1]);
      if Enabled(s, a) {
        StepKeepsInv(backoff, s, a, Do(backoff, s, a));
      }
    }
  }

  // ---------------------------------------------------------------- theorems

  /** The facts about one job of a run. */
  lemma {:induction false} JobOfRun(backoff: seq<int>, actions: seq<Action>, j: Id) returns (w: Option<WorkerRun>)
    requires OrderlyRun(backoff, actions)
    requires |backoff| > 0 && j in Run(backoff, actions).jobs
    ensures var s := Run(backoff, actions);
      Fits(backoff, s.now, s.jobs[j], w) && (w == None <==> !Owned(s, j))
      && (w.Some? ==> s.jobs[j].row.status == Delivering)
  {
    var s := Run(backoff, actions);
    EveryRunKeepsInv(backoff, actions);
    Ownership.EveryRunKeepsInv(backoff, actions);
    assert Holds(FitsAt(backoff, s.now), s, j);
    if Owned(s, j) {
      var r :| IsOwner(s, j, r);
      w := Some(s.runs[r]);
      assert FitsAt(backoff, s.now)(s.jobs[j], w);
    } else {
      w := None;
      assert FitsAt(backoff, s.now)(s.jobs[j], w);
    }
  }

  /**
    In every interleaving a job's attempt count, and the number of times it was claimed, are at
    most the length of the policy plus the crashes it suffered.
   */
  lemma {:induction false} AttemptsAreBounded(backoff: seq<int>, actions: seq<Action>, j: Id)
    requires OrderlyRun(backoff, actions)
    requires |backoff| > 0 && j in Run(backoff, actions).jobs
    ensures var t := Run(backoff, actions).jobs[j];
      t.row.attempts <= |backoff| + t.past.crashes && t.past.claims <= |backoff| + t.past.crashes
  {
    var w := JobOfRun(backoff, actions, j);
  }

  /**
    A job that has been claimed as often as the policy is long, plus once for every crash, is
    terminal as soon as no run owns it.  Before that, without crashes, the number of claims is the
    attempt count, so that the length of the policy minus the count goes down with every claim.
   */
  lemma {:induction false} ClaimsRunOut(backoff: seq<int>, actions: seq<Action>, j: Id)
    requires OrderlyRun(backoff, actions)
    requires |backoff| > 0 && j in Run(backoff, actions).jobs && !Owned(Run(backoff, actions), j)
    ensures var t := Run(backoff, actions).jobs[j];
      && (t.past.claims >= |backoff| + t.past.crashes ==> Terminal(t.row.status))
      && (t.past.crashes == 0 && !Terminal(t.row.status) ==>
            t.row.status in {Queued, Retrying} && t.past.claims == t.row.attempts < |backoff|)
  {
    var w := JobOfRun(backoff, actions, j);
  }

  /** Without crashes, attempt `k + 1` starts no earlier than `backoff[k]` seconds after the outcome of attempt `k`. */
  lemma {:induction false} AttemptsAreSpaced(backoff: seq<int>, actions: seq<Action>, j: Id, k: nat)
    requires OrderlyRun(backoff, actions)
    requires |backoff| > 0 && j in Run(backoff, actions).jobs && Run(backoff, actions).jobs[j].past.crashes == 0
    requires 1 <= k < |Run(backoff, actions).jobs[j].past.starts|
    ensures var past := Run(backoff, actions).jobs[j].past;
      k < |backoff| && k <= |past.outcomes| && past.starts[k] - past.outcomes[k - 1] >= backoff[k]
  {
    var w := JobOfRun(backoff, actions, j);
  }

  /**
    When the recovery query takes a job that no run may write, by the clock alone.  Without crashes a
    new job is due at once, one to be retried as soon as its wait since the last outcome is over, and
    no other is; one left `delivering` by a crash is due 300 seconds after it was created.
   */
  lemma {:induction false} DueWhenWaited(backoff: seq<int>, actions: seq<Action>, j: Id)
    requires OrderlyRun(backoff, actions)
    requires |backoff| > 0 && j in Run(backoff, actions).jobs && !Owned(Run(backoff, actions), j)
    ensures var s := Run(backoff, actions);
      var t := s.jobs[j];
      var n := t.row.attempts;
      && (t.past.crashes == 0 ==>
            && (t.row.status == Retrying ==> 1 <= n < |backoff| && n == |t.past.outcomes|)
            && (Recoverable(s, j) <==>
                  t.row.status == Queued ||
                  (t.row.status == Retrying && t.past.outcomes[n - 1] + backoff[n] <= s.now)))
      && (t.row.status == Delivering ==> t.past.crashes > 0 && (Recoverable(s, j) <==> t.row.created + 300 <= s.now))
  {
    var w := JobOfRun(backoff, actions, j);
  }

  lemma {:induction false} SpacedAddsUp(backoff: seq<int>, past: Past, n: nat)
    requires Spaced(backoff, past) && 1 <= n <= |past.starts|
    ensures past.starts[n - 1] - past.starts[0] >= Waits(backoff, n)
  {
    if n > 1 {
      SpacedAddsUp(backoff, past, n - 1);
      assert past.outcomes[n - 2] + backoff[n - 1] <= past.starts[n - 1];
    }
  }

  /**
    A job dead-lettered after the last attempt of the policy has spent at least all its waits since
    its first attempt.
   */
  lemma {:induction false} DeadLetterTakesAllWaits(backoff: seq<int>, actions: seq<Action>, j: Id)
    requires OrderlyRun(backoff, actions)
    requires |backoff| > 0 && j in Run(backoff, actions).jobs
    requires var t := Run(backoff, actions).jobs[j];
      t.past.crashes == 0 && t.row.status == DeadLettered && t.row.attempts == |backoff|
    ensures var past := Run(backoff, actions).jobs[j].past;
      && |past.starts| == |past.outcomes| == |backoff|
      && past.outcomes[|backoff| - 1] - past.starts[0] >= Waits(backoff, |backoff|)
      && (backoff == DEFAULT_BACKOFF ==> past.outcomes[4] - past.starts[0] >= 9360)
  {
    var w := JobOfRun(backoff, actions, j);
    var past := Run(backoff, actions).jobs[j].past;
    SpacedAddsUp(backoff, past, |backoff|);
    DefaultWaits();
  }

  lemma DefaultWaits()
    ensures Waits(DEFAULT_BACKOFF, 5) == 9360
  {
  }

  /** The steps a run still has to make. */
  function StepsLeft(pc: Pc): nat {
    match pc
    case Waiting => 13
    case Started => 12
    case Announced => 11
    case Gated => 10
    case Missed(_) => 9
    case Cleared => 8
    case Sent(_) => 7
    case Recorded(_) => 6
    case Logged(_) => 5
    case Noted(_) => 4
    case Touched(_) => 3
    case Settled(_) => 2
    case Marked(_) => 1
    case Suppressing => 2
    case Suppressed => 1
  }

  lemma StepsGoDownBeforeSending(backoff: seq<int>, s: State, r: Id, i: Input)
    requires CanStep(s, r) && BeforeSending(s.runs[r].pc)
    ensures var pc := NextDelta(backoff, s, r, i).pc; pc.Some? && StepsLeft(pc.value) < StepsLeft(s.runs[r].pc)
  {
  }

  lemma StepsGoDownAfterSending(backoff: seq<int>, s: State, r: Id, i: Input)
    requires CanStep(s, r) && !BeforeSending(s.runs[r].pc)
    ensures var pc := NextDelta(backoff, s, r, i).pc; pc == None || StepsLeft(pc.value) < StepsLeft(s.runs[r].pc)
  {
  }

  lemma ApplyMovesRun(s: State, r: Id, d: Delta)
    requires CanStep(s, r)
    ensures d.pc == None ==> r !in Apply(s, r, d).runs
    ensures d.pc.Some? ==> r in Apply(s, r, d).runs && Apply(s, r, d).runs[r].pc == d.pc.value
  {
  }

  /** Every step brings a run closer to its end, which is at most thirteen steps away. */
  lemma StepShortensRun(backoff: seq<int>, s: State, r: Id, i: Input)
    requires CanStep(s, r)
    ensures var s' := RunStep(backoff, s, r, i);
      r in s'.runs ==> StepsLeft(s'.runs[r].pc) < StepsLeft(s.runs[r].pc)
  {
    if BeforeSending(s.runs[r].pc) {
      StepsGoDownBeforeSending(backoff, s, r, i);
    } else {
      StepsGoDownAfterSending(backoff, s, r, i);
    }
    ApplyMovesRun(s, r, NextDelta(backoff, s, r, i));
  }
}
