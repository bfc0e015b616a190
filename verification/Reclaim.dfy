/**
  What the recovery query can do as it is written (database/repository.py, lines 662-667): it takes a
  `delivering` row five minutes after the job was created, also from a run that is only slow.
 */
module Reclaim {
  import opened Dicts
  import opened Protocol
  import opened Outbound
  import opened Scenarios

  /** One live run waits to settle attempt 1 of the job, and another has begun attempt 2. */
  ghost predicate TwoWriters(s: State) {
    && 0 in s.jobs && 0 in s.events && s.runs.Keys == {0, 1}
    && s.runs[0] == WorkerRun(0, 0, 0, None, false, 0, Touched(None))
    && s.runs[1] == WorkerRun(0, 0, 0, None, false, 1, Started)
    && s.jobs[0].row.status == Delivering && s.jobs[0].row.attempts == 2 && s.jobs[0].past.crashes == 0
  }

  /** The first run waits five minutes for an answer; meanwhile its job is claimed again. */
  lemma ClaimedTwice() returns (actions: seq<Action>)
    ensures TwoWriters(Run(DEFAULT_BACKOFF, actions))
  {
    var backoff := DEFAULT_BACKOFF;
    actions := Ingested(backoff, None);
    actions := Begun(backoff, actions, 0);
    actions := ReachAnswer(backoff, actions, 0, Reply(None));
    Snoc(backoff, actions, Tick(300));
    actions := actions + [Tick(300)];
    actions := Begun(backoff, actions, 1);
  }

  /**
    Two live runs may write one row although no run was lost.  The second delivers the job; then the
    first settles, and the row that was `delivered` becomes `retrying`.
   */
  lemma ReclaimRewritesDelivered() returns (shared: seq<Action>, delivered: seq<Action>, last: Action)
    ensures var s := Run(DEFAULT_BACKOFF, shared); IsOwner(s, 0, 0) && IsOwner(s, 0, 1)
    ensures var s := Run(DEFAULT_BACKOFF, delivered);
      0 in s.jobs && s.jobs[0].row.status == Delivered && s.jobs[0].past.crashes == 0
    ensures var s := Run(DEFAULT_BACKOFF, delivered + [last]); 0 in s.jobs && s.jobs[0].row.status == Retrying
  {
    var backoff := DEFAULT_BACKOFF;
    shared := ClaimedTwice();
    delivered := ReachAnswer(backoff, shared, 1, Reply(Some(200)));
    delivered := Settling(backoff, delivered, 1);
    last := StepRun(0, Reply(None));
    var end := Settling(backoff, delivered, 0);
  }
}
