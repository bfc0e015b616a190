/**
  When the runs of a job follow one another without overlap, the ledger never falls behind the row
  (core/queue_worker.py, lines 158-168, database/repository.py, lines 657-672).
 */
module SoloRuns {
  import opened Dicts
  import opened Protocol
  import opened Links
  import Ownership
  import Evidence
  import ClaimTable

  /** No action of the run claims the job while an earlier run of it is still open. */
  ghost predicate ClaimedAtRest(backoff: seq<int>, actions: seq<Action>, j: Id) {
    |actions| > 0 ==>
      var init, a := actions[..|actions| - 1], actions[|actions| - 1];
      && ClaimedAtRest(backoff, init, j)
      && (a.Claim? && a.j == j && Enabled(Run(backoff, init), a) ==> !Evidence.Open(Run(backoff, init), j))
  }

  ghost predicate OneRun(s: State, j: Id) {
    forall r, q :: r in s.runs && q in s.runs && s.runs[r].job == j && s.runs[q].job == j ==> r == q
  }

  /** A run that has settled made the last attempt. */
  ghost predicate UpToDate(s: State, j: Id)
    requires j in s.jobs
  {
    forall r :: r in s.runs && s.runs[r].job == j && !Writing(s.runs[r]) ==>
      s.runs[r].attempts + 1 == s.jobs[j].row.attempts
  }

  ghost predicate InOrder(s: State, j: Id)
    requires j in s.jobs
  {
    Evidence.Plain(s.jobs[j]) && !Evidence.Open(s, j) && s.jobs[j].row.attempts > 0 ==>
      Evidence.ClosedInOrder(s.jobs[j])
  }

  ghost predicate Inv(s: State, j: Id) {
    OneRun(s, j) && (j in s.jobs ==> UpToDate(s, j) && InOrder(s, j))
  }

  /** What the other invariants provide: runs belong to jobs, and a job without a key is never suppressed. */
  ghost predicate Context(s: State) {
    Linked(s) && Ownership.Inv(s) && Evidence.Inv(s)
  }

  // ---------------------------------------------------------------- a worker step

  lemma PlainIsNotSuppressed(s: State, r: Id)
    requires Evidence.Inv(s) && CanStep(s, r) && s.runs[r].pc.Suppressed?
    ensures !Evidence.Plain(s.jobs[s.runs[r].job])
  {
    var j := s.runs[r].job;
    assert Ownership.Holds(Evidence.EvidenceOf(s, j), s, j) && IsOwner(s, j, r);
    assert Evidence.EvidenceOf(s, j)(s.jobs[j], Some(s.runs[r]));
  }

  lemma ApplyKeepsOneRun(s: State, r: Id, d: Delta, j: Id)
    requires OneRun(s, j) && CanStep(s, r)
    ensures OneRun(Apply(s, r, d), j)
  {
  }

  lemma OtherJobKeepsInv(s: State, r: Id, d: Delta, j: Id)
    requires Inv(s, j) && CanStep(s, r) && s.runs[r].job != j
    ensures Inv(Apply(s, r, d), j)
  {
    var s' := Apply(s, r, d);
    if q :| q in s.runs && s.runs[q].job == j {
      assert q in s'.runs && s'.runs[q] == s.runs[q];
    }
  }

  /** The only run of the job goes on. */
  lemma OpenStepKeepsInv(backoff: seq<int>, s: State, r: Id, d: Delta)
    requires CanStep(s, r) && Inv(s, s.runs[r].job) && d.pc.Some?
    requires Ownership.JobChanges(backoff, s.now, s.runs[r], s.jobs[s.runs[r].job], d)
    ensures Inv(Apply(s, r, d), s.runs[r].job)
  {
    var s', j := Apply(s, r, d), s.runs[r].job;
    ApplyKeepsOneRun(s, r, d, j);
    assert r in s'.runs && s'.runs[r].job == j;
    assert Evidence.Open(s', j);
  }

  /** The only run of the job ends. */
  lemma LastStepKeepsInv(backoff: seq<int>, s: State, r: Id, d: Delta)
    requires CanStep(s, r) && Inv(s, s.runs[r].job) && d.pc == None
    requires Ownership.JobChanges(backoff, s.now, s.runs[r], s.jobs[s.runs[r].job], d)
    requires s.runs[r].pc.Suppressed? ==> !Evidence.Plain(s.jobs[s.runs[r].job])
    ensures Inv(Apply(s, r, d), s.runs[r].job)
  {
    ApplyKeepsOneRun(s, r, d, s.runs[r].job);
  }

  lemma RunStepKeepsInv(backoff: seq<int>, s: State, r: Id, i: Input, j: Id)
    requires Context(s) && Inv(s, j) && CanStep(s, r)
    ensures Inv(RunStep(backoff, s, r, i), j)
  {
    var d := NextDelta(backoff, s, r, i);
    Ownership.NextDeltaJob(backoff, s, r, i);
    if s.runs[r].job != j {
      OtherJobKeepsInv(s, r, d, j);
    } else if d.pc.Some? {
      OpenStepKeepsInv(backoff, s, r, d);
    } else {
      if s.runs[r].pc.Suppressed? {
        PlainIsNotSuppressed(s, r);
      }
      LastStepKeepsInv(backoff, s, r, d);
    }
  }

  // ---------------------------------------------------------------- the other steps

  lemma ClaimKeepsInv(s: State, r: Id, k: Id, j: Id)
    requires Inv(s, j) && r !in s.runs && k in s.jobs && (k == j ==> !Evidence.Open(s, j))
    ensures Inv(ClaimJob(s, r, k), j)
  {
    var s' := ClaimJob(s, r, k);
    if k == j {
      assert r in s'.runs && s'.runs[r].job == j;
    } else if q :| q in s.runs && s.runs[q].job == j {
      assert q in s'.runs && s'.runs[q] == s.runs[q];
    }
  }

  lemma LoseRunKeepsInv(s: State, r: Id, j: Id)
    requires Inv(s, j) && r in s.runs && s.runs[r].job in s.jobs
    ensures Inv(LoseRun(s, r), j)
  {
    var s' := LoseRun(s, r);
    if s.runs[r].job != j {
      if q :| q in s.runs && s.runs[q].job == j {
        assert q in s'.runs && s'.runs[q] == s.runs[q];
      }
    }
  }

  lemma ApiKeepsInv(s: State, a: Action, j: Id)
    requires Linked(s) && Inv(s, j) && Enabled(s, a) && OfApi(a)
    ensures Inv(ApplyApi(s, ApiAction(s, a).0, ApiAction(s, a).1), j)
  {
    var s' := ApplyApi(s, ApiAction(s, a).0, ApiAction(s, a).1);
    Ownership.ApiKeepsJobs(s, a);
    assert Evidence.Open(s', j) <==> Evidence.Open(s, j);
    if j !in s.jobs {
      forall r | r in s.runs ensures s.runs[r].job != j {
        assert RunLinked(s, s.runs[r]);
      }
    }
  }

  lemma IdleKeepsInv(s: State, seconds: nat, memory: ClaimTable.Claims, j: Id)
    requires Inv(s, j)
    ensures Inv(Idle(s, seconds, memory), j)
  {
    assert Evidence.Open(Idle(s, seconds, memory), j) <==> Evidence.Open(s, j);
  }

  lemma StepKeepsInv(backoff: seq<int>, s: State, a: Action, s': State, j: Id)
    requires Context(s) && Inv(s, j) && Enabled(s, a) && s' == Do(backoff, s, a)
    requires a.Claim? && a.j == j ==> !Evidence.Open(s, j)
    ensures Inv(s', j)
  {
    match a {
      case Tick(seconds) =>
        IdleKeepsInv(s, seconds, s.memory, j);
        assert s' == Idle(s, seconds, s.memory);
      case StepRun(r, i) =>
        RunStepKeepsInv(backoff, s, r, i, j);
        assert s' == RunStep(backoff, s, r, i);
      case Claim(r, k) =>
        ClaimKeepsInv(s, r, k, j);
        assert s' == ClaimJob(s, r, k);
      case Crash(r) =>
        LoseRunKeepsInv(s, r, j);
        assert s' == LoseRun(s, r);
      case Restart =>
        IdleKeepsInv(s, 0, map[], j);
        assert s' == Idle(s, 0, map[]);
      case _ =>
        ApiKeepsInv(s, a, j);
        assert s' == ApplyApi(s, ApiAction(s, a).0, ApiAction(s, a).1);
    }
  }

  lemma {:induction false} ContextOfRun(backoff: seq<int>, actions: seq<Action>)
    requires Ownership.OrderlyRun(backoff, actions)
    ensures Context(Run(backoff, actions))
  {
    EveryRunIsLinked(backoff, actions);
    Ownership.EveryRunKeepsInv(backoff, actions);
    Evidence.EveryRunKeepsInv(backoff, actions);
  }

  lemma {:induction false} SoloRunKeepsInv(backoff: seq<int>, actions: seq<Action>, j: Id)
    requires Ownership.OrderlyRun(backoff, actions)
    requires ClaimedAtRest(backoff, actions, j)
    ensures Inv(Run(backoff, actions), j)
  {
    if |actions| > 0 {
      var s, a := Run(backoff, actions[..|actions| - 1]), actions[|actions| - 1];
      SoloRunKeepsInv(backoff, actions[..|actions| - 1], j);
      ContextOfRun(backoff, actions[..|actions| - 1]);
      if Enabled(s, a) {
        StepKeepsInv(backoff, s, a, Do(backoff, s, a), j);
      }
    }
  }

  /**
    When no run of the job is open whenever the job is claimed, the last entry a worker wrote for a
    job at rest names the status of its row.
   */
  lemma {:induction false} LedgerEndsWithStatus(backoff: seq<int>, actions: seq<Action>, j: Id)
    requires Ownership.OrderlyRun(backoff, actions)
    requires ClaimedAtRest(backoff, actions, j)
    requires Evidence.AtRest(Run(backoff, actions), j) && Run(backoff, actions).jobs[j].row.attempts > 0
    ensures var s := Run(backoff, actions);
      Evidence.Names(Evidence.LastWorkerMark(s.ledger, j), s.jobs[j].row.status)
  {
    SoloRunKeepsInv(backoff, actions, j);
    Evidence.LastEntryNamesStatus(backoff, actions, j);
  }
}
