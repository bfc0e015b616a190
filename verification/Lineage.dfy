/** Replays point at the first job of their event and keep its key (database/repository.py, lines 963-992). */
module Lineage {
  import opened Dicts
  import opened Protocol
  import opened Links
  import Triage

  ghost predicate RootOf(s: State, j: Id, root: Id) {
    && j in s.jobs && root in s.jobs
    && s.jobs[root].row.original == None
    && s.jobs[root].row.event == s.jobs[j].row.event && s.jobs[root].row.key == s.jobs[j].row.key
  }

  ghost predicate Rooted(s: State, j: Id)
    requires j in s.jobs
  {
    s.jobs[j].row.original.Some? ==> RootOf(s, j, s.jobs[j].row.original.value)
  }

  ghost predicate Inv(s: State) {
    forall j :: j in s.jobs ==> Rooted(s, j)
  }

  lemma KeepsRooted(s: State, s': State, j: Id)
    requires Keeps(s, s') && j in s.jobs && Rooted(s, j)
    ensures Rooted(s', j)
  {
  }

  /** The only new jobs are first jobs and replays of known ones. */
  ghost predicate NewJobsRooted(s: State, d: ApiDelta) {
    d.job.Some? ==>
      var row := d.job.value.1.row;
      || row.original == None
      || exists j :: j in s.jobs && row.event == s.jobs[j].row.event && row.key == s.jobs[j].row.key &&
                     row.original == Some(if s.jobs[j].row.original.Some? then s.jobs[j].row.original.value else j)
  }

  lemma ApiActionRoots(s: State, a: Action)
    requires Enabled(s, a) && OfApi(a)
    ensures NewJobsRooted(s, ApiAction(s, a).1)
  {
  }

  lemma ApiKeepsInv(s: State, a: Id, d: ApiDelta)
    requires Inv(s) && ApiKeepsRows(s, d) && NewJobsRooted(s, d)
    ensures Inv(ApplyApi(s, a, d))
  {
  }

  lemma StepKeepsInv(backoff: seq<int>, s: State, a: Action)
    requires Inv(s) && Enabled(s, a)
    ensures Inv(Do(backoff, s, a))
  {
    if OfApi(a) {
      ApiActionKeepsRows(s, a);
      ApiActionRoots(s, a);
      ApiKeepsInv(s, ApiAction(s, a).0, ApiAction(s, a).1);
    } else {
      StepKeeps(backoff, s, a);
      forall j | j in Do(backoff, s, a).jobs ensures Rooted(Do(backoff, s, a), j) {
        KeepsRooted(s, Do(backoff, s, a), j);
      }
    }
  }

  lemma {:induction false} EveryRunKeepsInv(backoff: seq<int>, actions: seq<Action>)
    ensures Inv(Run(backoff, actions))
  {
    if |actions| > 0 {
      var s, a := Run(backoff, actions[..|actions| - 1]), actions[|actions| - 1];
      EveryRunKeepsInv(backoff, actions[..|actions| - 1]);
      if Enabled(s, a) {
        StepKeepsInv(backoff, s, a);
      }
    }
  }

  lemma RootExists(s: State, j: Id) returns (root: Id)
    requires Inv(s) && j in s.jobs
    ensures RootOf(s, j, root)
  {
    assert Rooted(s, j);
    root := if s.jobs[j].row.original.Some? then s.jobs[j].row.original.value else j;
  }

  lemma RootsAgree(s: State, i: Id, j: Id)
    requires Triage.Inv(s) && Inv(s) && i in s.jobs && j in s.jobs && s.jobs[i].row.event == s.jobs[j].row.event
    ensures s.jobs[i].row.key == s.jobs[j].row.key
    ensures exists root :: RootOf(s, i, root) && RootOf(s, j, root)
  {
    var a := RootExists(s, i);
    var b := RootExists(s, j);
    assert RootOf(s, j, a);
  }

  /** All the jobs of an event carry one idempotency key and lead back to one first job. */
  lemma {:induction false} OneKeyPerEvent(backoff: seq<int>, actions: seq<Action>, i: Id, j: Id)
    requires var s := Run(backoff, actions);
      i in s.jobs && j in s.jobs && s.jobs[i].row.event == s.jobs[j].row.event
    ensures var s := Run(backoff, actions);
      && s.jobs[i].row.key == s.jobs[j].row.key
      && exists root :: RootOf(s, i, root) && RootOf(s, j, root)
  {
    EveryRunKeepsInv(backoff, actions);
    Triage.EveryRunKeepsInv(backoff, actions);
    RootsAgree(Run(backoff, actions), i, j);
  }
}
