/** How many HTTP requests a job can cost (core/queue_worker.py, lines 64-168), in every interleaving. */
module Requests {
  import opened Protocol
  import opened Census
  import Ownership
  import RetryPolicy

  /** The requests sent for a job. */
  function SendsFor(sends: seq<Send>, j: Id): nat {
    if |sends| == 0 then 0
    else SendsFor(sends[..|sends| - 1], j) + One(sends[|sends| - 1].job == j)
  }

  /** A run of the job that has not sent yet. */
  function Unsent(j: Id): RunProperty {
    (run: WorkerRun) => run.job == j && BeforeSending(run.pc)
  }

  /** The requests sent for a job and the runs that may still send one. */
  function Cost(s: State, j: Id): nat {
    SendsFor(s.sends, j) + Count(s.runs, Unsent(j))
  }

  function ClaimsOf(s: State, j: Id): nat {
    if j in s.jobs then s.jobs[j].past.claims else 0
  }

  /** A run sends once, by leaving the part before sending, and no step counts as a claim. */
  ghost predicate SendsOnce(run: WorkerRun, t: Tracked, d: Delta) {
    && One(d.sends) + One(d.pc.Some? && BeforeSending(d.pc.value)) <= One(BeforeSending(run.pc))
    && d.job.past.claims == t.past.claims
  }

  lemma SendsOnceBefore(backoff: seq<int>, s: State, r: Id, i: Input)
    requires CanStep(s, r) && BeforeSending(s.runs[r].pc)
    ensures SendsOnce(s.runs[r], s.jobs[s.runs[r].job], NextDelta(backoff, s, r, i))
  {
  }

  lemma SendsOnceAfter(backoff: seq<int>, s: State, r: Id, i: Input)
    requires CanStep(s, r) && !BeforeSending(s.runs[r].pc)
    ensures SendsOnce(s.runs[r], s.jobs[s.runs[r].job], NextDelta(backoff, s, r, i))
  {
  }

  lemma ApplyCosts(s: State, r: Id, d: Delta, j: Id)
    requires CanStep(s, r) && SendsOnce(s.runs[r], s.jobs[s.runs[r].job], d)
    ensures Cost(Apply(s, r, d), j) <= Cost(s, j) && ClaimsOf(Apply(s, r, d), j) == ClaimsOf(s, j)
  {
    CountApply(s, r, d, Unsent(j));
  }

  lemma OtherStepsCost(backoff: seq<int>, s: State, a: Action, j: Id)
    requires Enabled(s, a) && !a.StepRun?
    ensures Cost(Do(backoff, s, a), j) + ClaimsOf(s, j) <= Cost(s, j) + ClaimsOf(Do(backoff, s, a), j)
  {
    if a.Claim? {
      CountPut(s.runs, Unsent(j), a.r, ClaimJob(s, a.r, a.j).runs[a.r]);
    } else if a.Crash? {
      CountDrop(s.runs, Unsent(j), a.r);
    }
  }

  lemma {:induction false} CostIsClaimed(backoff: seq<int>, actions: seq<Action>, j: Id)
    ensures Cost(Run(backoff, actions), j) <= ClaimsOf(Run(backoff, actions), j)
  {
    if |actions| > 0 {
      var s, a := Run(backoff, actions[..|actions| - 1]), actions[|actions| - 1];
      CostIsClaimed(backoff, actions[..|actions| - 1], j);
      if Enabled(s, a) {
        if a.StepRun? {
          if BeforeSending(s.runs[a.r].pc) {
            SendsOnceBefore(backoff, s, a.r, a.i);
          } else {
            SendsOnceAfter(backoff, s, a.r, a.i);
          }
          ApplyCosts(s, a.r, NextDelta(backoff, s, a.r, a.i), j);
        } else {
          OtherStepsCost(backoff, s, a, j);
        }
      }
    }
  }

  /**
    In every interleaving a job costs at most one request per claim, so no more than the length of
    the policy plus the crashes it suffered.
   */
  lemma {:induction false} RequestsAreBounded(backoff: seq<int>, actions: seq<Action>, j: Id)
    requires Ownership.OrderlyRun(backoff, actions)
    requires |backoff| > 0 && j in Run(backoff, actions).jobs
    ensures var s := Run(backoff, actions);
      SendsFor(s.sends, j) <= s.jobs[j].past.claims <= |backoff| + s.jobs[j].past.crashes
  {
    CostIsClaimed(backoff, actions, j);
    RetryPolicy.AttemptsAreBounded(backoff, actions, j);
  }
}
