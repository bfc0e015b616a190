/**
  A report whose statements straddle the arrival of another event (database/repository.py, lines
  679-684).
 */
module LateReport {
  import opened Dicts
  import opened Protocol
  import opened Reconciliation
  import opened Scenarios

  function Entry(e: Id, mark: Mark): LedgerEntry {
    LedgerEntry(e, None, 0, 0, mark, None)
  }

  /** Event 0 is received. */
  lemma OneWaiting(backoff: seq<int>) returns (actions: seq<Action>)
    ensures var s := Run(backoff, actions);
      s.events == map[0 := Event(0, 0, Validated)] && s.ledger == [Entry(0, MReceived)] && s.actors.Keys == {0}
  {
    var receive := Receive(0, 0, 0, 0, Validated, None);
    Snoc(backoff, [], receive);
    actions := [] + [receive];
  }

  /** Event 1 is received and rejected. */
  lemma OneRejected(backoff: seq<int>, actions: seq<Action>) returns (further: seq<Action>)
    requires var s := Run(backoff, actions); 1 !in s.events && 1 !in s.actors
    ensures var s, s' := Run(backoff, actions), Run(backoff, actions + further);
      s'.events.Keys == s.events.Keys + {1} && s'.ledger == s.ledger + [Entry(1, MReceived)] + [Entry(1, MRejected)]
  {
    var receive := Receive(1, 1, 0, 0, Rejected, None);
    var step := StepActor(1, Input(0, 0.0, None, false, 0));
    Snoc(backoff, actions, receive);
    assert Run(backoff, actions + [receive]).actors[1] == Ingesting(1, Rejected, None);
    Snoc(backoff, actions + [receive], step);
    further := [receive] + [step];
    assert actions + further == actions + [receive] + [step];
  }

  lemma MissedBetween(s: State, ledger: seq<LedgerEntry>)
    requires s.events == map[0 := Event(0, 0, Validated)] && s.ledger == [Entry(0, MReceived)]
    requires ledger == s.ledger + [Entry(1, MReceived)] + [Entry(1, MRejected)]
    ensures EventsIn(s, 0, 0) == {0} && EventsMarked(ledger, 0, 0, TERMINAL_MARKS) == {1}
    ensures FetchReconciliation(AtOnce(ledger).(received := s.ledger), 0, 0).pending == 0
  {
    assert ledger[2] == Entry(1, MRejected);
    assert s.ledger[..0] == [];
    assert ReceivedCount(s.ledger, 0, 0) == 1;
    assert EventsMarked(ledger, 0, 0, TERMINAL_MARKS) == {1};
  }

  /**
    Event 0 is waiting; event 1 is received and rejected between the first and the last statement;
    the report says that nothing is pending.
   */
  lemma PendingCanBeMissed(backoff: seq<int>) returns (actions: seq<Action>, further: seq<Action>)
    ensures var s, s' := Run(backoff, actions), Run(backoff, actions + further);
      && EventsIn(s, 0, 0) == {0} && EventsMarked(s'.ledger, 0, 0, TERMINAL_MARKS) == {1}
      && FetchReconciliation(AtOnce(s'.ledger).(received := s.ledger), 0, 0).pending == 0
  {
    actions := OneWaiting(backoff);
    further := OneRejected(backoff, actions);
    MissedBetween(Run(backoff, actions), Run(backoff, actions + further).ledger);
  }
}
