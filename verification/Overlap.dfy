/**
  Two runs of one job can overlap: the row is due again as soon as an attempt has its outcome, but
  the run that made the attempt still has its closing ledger entry to write.  When it is slow, the
  ledger ends with `retrying` although the job was delivered.
 */
module Overlap {
  import opened Dicts
  import opened Protocol
  import opened Outbound
  import opened Scenarios
  import Evidence
  import Ownership

  /** Run `r` has claimed the job of `s`, attempted it and settled, but not closed. */
  ghost predicate Attempted(backoff: seq<int>, s: State, s': State, r: Id, response: Response) {
    && 0 in s.jobs && Elsewhere(s, s')
    && var t, n := s.jobs[0], s.jobs[0].row.attempts + 1;
       var final := Outcome(backoff, n, response);
       && s'.runs == s.runs[r := WorkerRun(0, t.row.event, t.row.bridge, t.row.key, false, n - 1, Settled(final))]
       && var taken := Taken(Tracked(t.row.(status := Delivering), t.past.(claims := t.past.claims + 1)), n, s.now);
          s'.jobs == s.jobs[0 := Finished(backoff, taken, n, s.now, final)]
  }

  lemma AttemptedInThree(backoff: seq<int>, s: State, b: State, m: State, s': State, r: Id, response: Response)
    requires HasBegun(s, b, r) && OnlyMoved(b, m, r, Touched(response)) && HasSettled(backoff, m, s', r)
    ensures Attempted(backoff, s, s', r, response)
  {
  }

  lemma Attempt(backoff: seq<int>, actions: seq<Action>, r: Id, response: Response) returns (later: seq<Action>)
    requires var s := Run(backoff, actions);
      && r !in s.runs && Recoverable(s, 0) && s.jobs[0].row.event in s.events
      && s.jobs[0].row.key == None && s.jobs[0].row.status != Delivering
    ensures Attempted(backoff, Run(backoff, actions), Run(backoff, later), r, response)
    ensures Ownership.OrderlyRun(backoff, actions) ==> Ownership.OrderlyRun(backoff, later)
  {
    var begun := Begun(backoff, actions, r);
    var answered := ReachAnswer(backoff, begun, r, Reply(response));
    later := Settling(backoff, answered, r);
    AttemptedInThree(backoff, Run(backoff, actions), Run(backoff, begun), Run(backoff, answered), Run(backoff, later),
                     r, response);
  }

  /**
    The first run gets no answer and settles for a retry; a minute later a second run delivers the
    job and closes; then the first run closes.  The job is at rest, has no key and lost no run, and
    yet the last entry of the ledger does not name the status of its row.
   */
  lemma LedgerCanEndBehindRow() returns (actions: seq<Action>)
    ensures var s := Run(DEFAULT_BACKOFF, actions);
      && Ownership.OrderlyRun(DEFAULT_BACKOFF, actions)
      && Evidence.AtRest(s, 0) && s.jobs[0].row.status == Delivered
      && Evidence.LastWorkerMark(s.ledger, 0) == Some(MRetrying)
  {
    var backoff := DEFAULT_BACKOFF;
    actions := Ingested(backoff, None);
    actions := Attempt(backoff, actions, 0, None);
    Snoc(backoff, actions, Tick(60));
    actions := actions + [Tick(60)];
    actions := Attempt(backoff, actions, 1, Some(200));
    actions := ClosedBy(backoff, actions, 1);
    actions := ClosedBy(backoff, actions, 0);
    var s := Run(backoff, actions);
    assert s.runs == map[];
    Evidence.EveryRunKeepsInv(backoff, actions);
    assert Evidence.LastOk(s, 0);
  }
}
