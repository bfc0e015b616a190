/**
  What an answer does to a job, in status numbers (services/outbound.py, lines 25-53,
  core/queue_worker.py, lines 145-158): the row at rest follows from the last attempt row.
 */
module Verdicts {
  import opened Dicts
  import opened Protocol
  import opened Outbound
  import opened Ownership
  import ClaimTable
  import Evidence

  /** The last attempt row of a job. */
  function LastOf(attempts: seq<Attempt>, j: Id): Option<Attempt> {
    if |attempts| == 0 then None
    else if attempts[|attempts| - 1].job == j then Some(attempts[|attempts| - 1])
    else LastOf(attempts[..|attempts| - 1], j)
  }

  /** A 2xx answer. */
  predicate IsDelivery(answer: Response) {
    answer.Some? && 200 <= answer.value <= 299
  }

  /** No answer, a timeout, a rate limit or a server error. */
  predicate IsWorthRetrying(answer: Response) {
    answer == None || answer.value == 408 || answer.value == 429 || 500 <= answer.value <= 599
  }

  /** The status of a row after attempt `n` of at most `limit`. */
  predicate Follows(limit: nat, n: nat, answer: Response, status: JobStatus) {
    && (status == Delivered <==> IsDelivery(answer))
    && (status == Retrying <==> n < limit && IsWorthRetrying(answer))
    && (status == DeadLettered <==> !IsDelivery(answer) && (n < limit ==> !IsWorthRetrying(answer)))
  }

  predicate AnswerFits(limit: nat, last: Option<Attempt>, t: Tracked, w: Option<WorkerRun>) {
    Evidence.Plain(t) ==>
      match w
      case None =>
        t.row.attempts > 0 ==>
          last.Some? && last.value.number == t.row.attempts &&
          Follows(limit, t.row.attempts, last.value.response, t.row.status)
      case Some(run) =>
        && !ClaimTable.Keyed(run.key) && !Evidence.Duplicate(run.pc)
        && (Evidence.HasRow(run.pc) ==>
              last.Some? && last.value.number == run.attempts + 1 && last.value.response == run.pc.response)
  }

  function AnswerAt(limit: nat, last: Option<Attempt>): JobProperty {
    (t, w) => AnswerFits(limit, last, t, w)
  }

  function AnswerOf(backoff: seq<int>, s: State, j: Id): JobProperty {
    AnswerAt(|backoff|, LastOf(s.attempts, j))
  }

  ghost predicate Inv(backoff: seq<int>, s: State) {
    && (forall j :: j in s.jobs ==> Holds(AnswerOf(backoff, s, j), s, j))
    && (forall i :: 0 <= i < |s.attempts| ==> s.attempts[i].delivered == IsDelivery(s.attempts[i].response))
  }

  // ---------------------------------------------------------------- a worker step

  /** The answer of a run goes into the attempt row and stays with the run. */
  ghost predicate Keeps(run: WorkerRun, d: Delta) {
    && (run.pc.Sent? ==> d.pc == Some(Recorded(run.pc.response)) && d.response == Some(run.pc.response))
    && (!run.pc.Sent? ==> d.response == None)
    && (d.pc.Some? && Evidence.HasRow(d.pc.value) && !run.pc.Sent? ==>
          Evidence.HasRow(run.pc) && d.pc.value.response == run.pc.response)
  }

  lemma NextDeltaKeeps(backoff: seq<int>, s: State, r: Id, i: Input)
    requires CanStep(s, r)
    ensures Keeps(s.runs[r], NextDelta(backoff, s, r, i))
  {
  }

  /** The last attempt row of job `j` after the step. */
  function LastAfter(last: Option<Attempt>, run: WorkerRun, d: Delta, j: Id): Option<Attempt> {
    if d.response.Some? && run.job == j
    then Some(Attempt(j, run.attempts + 1, Succeeded(d.response.value), d.response.value))
    else last
  }

  lemma ApplyLast(s: State, r: Id, d: Delta, j: Id)
    requires CanStep(s, r)
    ensures LastOf(Apply(s, r, d).attempts, j) == LastAfter(LastOf(s.attempts, j), s.runs[r], d, j)
  {
  }

  lemma OwnerAnswers(backoff: seq<int>, now: int, last: Option<Attempt>, run: WorkerRun, t: Tracked, d: Delta)
    requires Writing(run) && JobChanges(backoff, now, run, t, d) && Keeps(run, d)
    requires !ClaimTable.Keyed(run.key) && !Evidence.Duplicate(run.pc) ==> Evidence.Records(run, d)
    requires AnswerFits(|backoff|, last, t, Some(run))
    ensures AnswerFits(|backoff|, LastAfter(last, run, d, run.job), d.job, RunAfter(run, d))
  {
  }

  lemma ApplyKeepsAnswer(backoff: seq<int>, s: State, r: Id, d: Delta)
    requires Ownership.Inv(s) && CanStep(s, r) && Writing(s.runs[r])
    requires JobChanges(backoff, s.now, s.runs[r], s.jobs[s.runs[r].job], d) && Keeps(s.runs[r], d)
    requires !ClaimTable.Keyed(s.runs[r].key) && !Evidence.Duplicate(s.runs[r].pc) ==> Evidence.Records(s.runs[r], d)
    requires Holds(AnswerOf(backoff, s, s.runs[r].job), s, s.runs[r].job)
    ensures Holds(AnswerOf(backoff, Apply(s, r, d), s.runs[r].job), Apply(s, r, d), s.runs[r].job)
  {
    var run := s.runs[r];
    var P, Q := AnswerOf(backoff, s, run.job), AnswerOf(backoff, Apply(s, r, d), run.job);
    ApplyLast(s, r, d, run.job);
    if P(s.jobs[run.job], Some(run)) {
      OwnerAnswers(backoff, s.now, LastOf(s.attempts, run.job), run, s.jobs[run.job], d);
    }
    OwnerStepHolds(P, Q, s, r, d);
  }

  lemma ClosedFits(limit: nat, last: Option<Attempt>, t: Tracked, closed: Option<Closing>, w: Option<WorkerRun>)
    requires AnswerFits(limit, last, t, w)
    ensures AnswerFits(limit, last, t.(past := t.past.(closed := closed)), w)
  {
  }

  /** A settled run of the job, or a run of another job, makes a step. */
  lemma OthersKeepAnswer(backoff: seq<int>, s: State, r: Id, d: Delta, j: Id)
    requires Ownership.Inv(s) && CanStep(s, r) && j in s.jobs && (j == s.runs[r].job ==> !Writing(s.runs[r]))
    requires JobChanges(backoff, s.now, s.runs[r], s.jobs[s.runs[r].job], d) && Keeps(s.runs[r], d)
    requires DeltaOwns(s.runs[r], s.jobs[s.runs[r].job], d)
    requires Holds(AnswerOf(backoff, s, j), s, j)
    ensures Holds(AnswerOf(backoff, Apply(s, r, d), j), Apply(s, r, d), j)
  {
    var P := AnswerOf(backoff, s, j);
    ApplyLast(s, r, d, j);
    forall w | P(s.jobs[j], w) ensures P(Apply(s, r, d).jobs[j], w) {
      if j == s.runs[r].job {
        ClosedFits(|backoff|, LastOf(s.attempts, j), s.jobs[j], d.job.past.closed, w);
        assert d.job == s.jobs[j].(past := s.jobs[j].past.(closed := d.job.past.closed));
      }
    }
    OtherStepHolds(P, P, s, r, d, j);
  }

  lemma RunStepKeepsAnswer(backoff: seq<int>, s: State, r: Id, i: Input, j: Id)
    requires Ownership.Inv(s) && CanStep(s, r) && j in s.jobs && Holds(AnswerOf(backoff, s, j), s, j)
    ensures Holds(AnswerOf(backoff, RunStep(backoff, s, r, i), j), RunStep(backoff, s, r, i), j)
  {
    NextDeltaJob(backoff, s, r, i);
    NextDeltaOwns(backoff, s, r, i);
    NextDeltaKeeps(backoff, s, r, i);
    var d := NextDelta(backoff, s, r, i);
    if j == s.runs[r].job && Writing(s.runs[r]) {
      if !ClaimTable.Keyed(s.runs[r].key) && !Evidence.Duplicate(s.runs[r].pc) {
        Evidence.NextDeltaRecords(backoff, s, r, i);
      }
      ApplyKeepsAnswer(backoff, s, r, d);
    } else {
      OthersKeepAnswer(backoff, s, r, d, j);
    }
  }

  lemma RunStepKeepsInv(backoff: seq<int>, s: State, r: Id, i: Input)
    requires Ownership.Inv(s) && Inv(backoff, s) && CanStep(s, r)
    ensures Inv(backoff, RunStep(backoff, s, r, i))
  {
    var s' := RunStep(backoff, s, r, i);
    forall j | j in s'.jobs ensures Holds(AnswerOf(backoff, s', j), s', j) {
      RunStepKeepsAnswer(backoff, s, r, i, j);
    }
    NextDeltaKeeps(backoff, s, r, i);
    assert forall x :: 0 <= x < |s.attempts| ==> s'.attempts[x] == s.attempts[x];
  }

  // ---------------------------------------------------------------- the other steps

  lemma ClaimKeepsAnswer(backoff: seq<int>, s: State, r: Id, k: Id, j: Id)
    requires Ownership.Inv(s) && r !in s.runs && Free(s, k)
    requires j in s.jobs && Holds(AnswerOf(backoff, s, j), s, j)
    ensures Holds(AnswerOf(backoff, s, j), ClaimJob(s, r, k), j)
  {
    var P := AnswerOf(backoff, s, j);
    if k == j {
      ClaimHolds(P, P, s, r, j);
    } else {
      OtherClaimHolds(P, s, r, k, j);
    }
  }

  lemma LoseRunKeepsAnswer(backoff: seq<int>, s: State, r: Id, j: Id)
    requires Ownership.Inv(s) && r in s.runs && s.runs[r].job in s.jobs
    requires j in s.jobs && Holds(AnswerOf(backoff, s, j), s, j)
    ensures Holds(AnswerOf(backoff, s, j), LoseRun(s, r), j)
  {
    var P := AnswerOf(backoff, s, j);
    LoseRunHolds(P, P, s, r, j);
  }

  lemma ApiKeepsInv(backoff: seq<int>, s: State, a: Action)
    requires Ownership.Inv(s) && Inv(backoff, s) && Enabled(s, a) && OfApi(a)
    ensures Inv(backoff, ApplyApi(s, ApiAction(s, a).0, ApiAction(s, a).1))
  {
    var s' := ApplyApi(s, ApiAction(s, a).0, ApiAction(s, a).1);
    ApiKeepsJobs(s, a);
    forall j | j in s'.jobs ensures Holds(AnswerOf(backoff, s', j), s', j) {
      if j in s.jobs {
        SameRunsHold(AnswerOf(backoff, s, j), AnswerOf(backoff, s', j), s, s', j);
      } else {
        NewJobHolds(AnswerOf(backoff, s', j), s, s', j);
      }
    }
  }

  lemma SilentKeepsInv(backoff: seq<int>, s: State, s': State)
    requires Inv(backoff, s) && s'.attempts == s.attempts && s'.jobs.Keys == s.jobs.Keys
    requires forall j :: j in s.jobs && Holds(AnswerOf(backoff, s, j), s, j) ==> Holds(AnswerOf(backoff, s, j), s', j)
    ensures Inv(backoff, s')
  {
  }

  lemma IdleKeepsInv(backoff: seq<int>, s: State, seconds: nat, memory: ClaimTable.Claims)
    requires Inv(backoff, s)
    ensures Inv(backoff, Idle(s, seconds, memory))
  {
    var s' := Idle(s, seconds, memory);
    forall j | j in s.jobs && Holds(AnswerOf(backoff, s, j), s, j) ensures Holds(AnswerOf(backoff, s, j), s', j) {
      SameRunsHold(AnswerOf(backoff, s, j), AnswerOf(backoff, s, j), s, s', j);
    }
    SilentKeepsInv(backoff, s, s');
  }

  lemma ClaimKeepsInv(backoff: seq<int>, s: State, r: Id, k: Id)
    requires Ownership.Inv(s) && Inv(backoff, s) && r !in s.runs && Free(s, k)
    ensures Inv(backoff, ClaimJob(s, r, k))
  {
    var s' := ClaimJob(s, r, k);
    forall j | j in s.jobs && Holds(AnswerOf(backoff, s, j), s, j) ensures Holds(AnswerOf(backoff, s, j), s', j) {
      ClaimKeepsAnswer(backoff, s, r, k, j);
    }
    SilentKeepsInv(backoff, s, s');
  }

  lemma LoseRunKeepsInv(backoff: seq<int>, s: State, r: Id)
    requires Ownership.Inv(s) && Inv(backoff, s) && r in s.runs && s.runs[r].job in s.jobs
    ensures Inv(backoff, LoseRun(s, r))
  {
    var s' := LoseRun(s, r);
    forall j | j in s.jobs && Holds(AnswerOf(backoff, s, j), s, j) ensures Holds(AnswerOf(backoff, s, j), s', j) {
      LoseRunKeepsAnswer(backoff, s, r, j);
    }
    SilentKeepsInv(backoff, s, s');
  }

  lemma StepKeepsInv(backoff: seq<int>, s: State, a: Action, s': State)
    requires Ownership.Inv(s) && Evidence.Inv(s) && Inv(backoff, s)
    requires Enabled(s, a) && Orderly(s, a) && s' == Do(backoff, s, a)
    ensures Inv(backoff, s')
  {
    match a {
      case StepRun(r, i) =>
        RunStepKeepsInv(backoff, s, r, i);
        assert s' == RunStep(backoff, s, r, i);
      case Claim(r, k) =>
        ClaimKeepsInv(backoff, s, r, k);
        assert s' == ClaimJob(s, r, k);
      case Crash(r) =>
        LoseRunKeepsInv(backoff, s, r);
        assert s' == LoseRun(s, r);
      case Tick(seconds) =>
        IdleKeepsInv(backoff, s, seconds, s.memory);
        assert s' == Idle(s, seconds, s.memory);
      case Restart =>
        IdleKeepsInv(backoff, s, 0, map[]);
        assert s' == Idle(s, 0, map[]);
      case _ =>
        ApiKeepsInv(backoff, s, a);
        assert s' == ApplyApi(s, ApiAction(s, a).0, ApiAction(s, a).1);
    }
  }

  lemma {:induction false} EveryRunKeepsInv(backoff: seq<int>, actions: seq<Action>)
    requires OrderlyRun(backoff, actions)
    ensures Ownership.Inv(Run(backoff, actions)) && Inv(backoff, Run(backoff, actions))
  {
    Ownership.EveryRunKeepsInv(backoff, actions);
    if |actions| > 0 {
      var s, a := Run(backoff, actions[..|actions| - 1]), actions[|actions| - 1];
      EveryRunKeepsInv(backoff, actions[..|actions| - 1]);
      Evidence.EveryRunKeepsInv(backoff, actions[..|actions| - 1]);
      if Enabled(s, a) {
        StepKeepsInv(backoff, s, a, Do(backoff, s, a));
      }
    }
  }

  /**
    A job at rest that was attempted stands as its last attempt row says: delivered after a 2xx answer;
    due for a retry when attempts are left and there was no answer or one of 408, 429 and 5xx; and
    dead-lettered in every other case.
   */
  lemma {:induction false} StatusFollowsAnswer(backoff: seq<int>, actions: seq<Action>, j: Id)
    requires OrderlyRun(backoff, actions) && Evidence.AtRest(Run(backoff, actions), j)
    requires Run(backoff, actions).jobs[j].row.attempts > 0
    ensures var s := Run(backoff, actions);
      var last, row := LastOf(s.attempts, j), s.jobs[j].row;
      && last.Some? && last.value.number == row.attempts
      && last.value.delivered == IsDelivery(last.value.response)
      && Follows(|backoff|, row.attempts, last.value.response, row.status)
  {
    var s := Run(backoff, actions);
    EveryRunKeepsInv(backoff, actions);
    Evidence.OpenIfOwned(s, j);
    assert AnswerOf(backoff, s, j)(s.jobs[j], None);
    LastIsRow(s.attempts, j);
  }

  lemma {:induction false} LastIsRow(attempts: seq<Attempt>, j: Id)
    ensures LastOf(attempts, j).Some? ==> LastOf(attempts, j).value in attempts
  {
    if |attempts| > 0 {
      LastIsRow(attempts[..|attempts| - 1], j);
    }
  }
}
