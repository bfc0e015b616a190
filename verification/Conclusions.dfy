/**
  The counters of the report against the rows they stand for (database/repository.py, lines 675-685,
  core/queue_worker.py, lines 126-168): every outcome of a row is written into the ledger.
 */
module Conclusions {
  import opened Dicts
  import opened Protocol
  import opened Links
  import opened Reconciliation
  import opened Stranded
  import Ownership
  import Evidence

  ghost predicate HasEntry(s: State, j: Id, mark: Mark) {
    exists i :: 0 <= i < |s.ledger| && s.ledger[i].job == Some(j) && s.ledger[i].mark == mark
  }

  /** The run has settled a dead letter whose closing entry is still to come. */
  predicate Burying(run: WorkerRun) {
    run.pc == Settled(DeadLettered) || run.pc == Marked(DeadLettered)
  }

  ghost predicate BuryDue(s: State, j: Id) {
    exists r :: r in s.runs && s.runs[r].job == j && Burying(s.runs[r])
  }

  ghost predicate RowTold(s: State, j: Id)
    requires j in s.jobs
  {
    && (s.jobs[j].row.status == Delivered ==> HasEntry(s, j, MDelivered))
    && (s.jobs[j].row.status == DeadLettered && s.jobs[j].past.crashes == 0 ==>
          HasEntry(s, j, MDeadLettered) || BuryDue(s, j))
  }

  ghost predicate RowsTold(s: State) {
    && (forall r :: r in s.runs && Concluding(s.runs[r]) ==> HasEntry(s, s.runs[r].job, MDelivered))
    && (forall j :: j in s.jobs ==> RowTold(s, j))
  }

  /** The ledger only grows. */
  ghost predicate Appends(s: State, s': State) {
    |s.ledger| <= |s'.ledger| && s'.ledger[..|s.ledger|] == s.ledger
  }

  lemma KeepsEntries(s: State, s': State, j: Id, mark: Mark)
    requires Appends(s, s') && HasEntry(s, j, mark)
    ensures HasEntry(s', j, mark)
  {
  }

  // ---------------------------------------------------------------- a worker step

  /** The entry comes before the row says `delivered`, and with the end of the run that buries. */
  ghost predicate DeltaTellsRow(run: WorkerRun, t: Tracked, d: Delta) {
    && (d.pc.Some? && Concluding(run.(pc := d.pc.value)) ==> Concluding(run) || d.mark == Some(MDelivered))
    && (d.job.row.status == Delivered ==> t.row.status == Delivered || Concluding(run))
    && (d.job.row.status == DeadLettered ==> t.row.status == DeadLettered || d.pc == Some(Settled(DeadLettered)))
    && (Burying(run) ==> d.pc == Some(Marked(DeadLettered)) || d.mark == Some(MDeadLettered))
    && d.job.past.crashes == t.past.crashes
  }

  lemma TellsRowBeforeSending(backoff: seq<int>, s: State, r: Id, i: Input)
    requires CanStep(s, r) && BeforeSending(s.runs[r].pc)
    ensures DeltaTellsRow(s.runs[r], s.jobs[s.runs[r].job], NextDelta(backoff, s, r, i))
  {
  }

  lemma TellsRowAfterSending(backoff: seq<int>, s: State, r: Id, i: Input)
    requires CanStep(s, r) && !BeforeSending(s.runs[r].pc)
    ensures DeltaTellsRow(s.runs[r], s.jobs[s.runs[r].job], NextDelta(backoff, s, r, i))
  {
  }

  lemma ApplyAppends(s: State, r: Id, d: Delta)
    requires CanStep(s, r)
    ensures Appends(s, Apply(s, r, d))
    ensures d.mark.Some? ==> HasEntry(Apply(s, r, d), s.runs[r].job, d.mark.value)
  {
    if d.mark.Some? {
      var last := Apply(s, r, d).ledger[|s.ledger|];
      assert last.job == Some(s.runs[r].job) && last.mark == d.mark.value;
    }
  }

  lemma ApplyKeepsBurying(s: State, r: Id, d: Delta, j: Id)
    requires CanStep(s, r) && DeltaTellsRow(s.runs[r], s.jobs[s.runs[r].job], d) && BuryDue(s, j)
    ensures BuryDue(Apply(s, r, d), j) || HasEntry(Apply(s, r, d), j, MDeadLettered)
  {
    ApplyAppends(s, r, d);
    var q :| q in s.runs && s.runs[q].job == j && Burying(s.runs[q]);
    if q != r || d.pc == Some(Marked(DeadLettered)) {
      assert q in Apply(s, r, d).runs && Apply(s, r, d).runs[q].job == j && Burying(Apply(s, r, d).runs[q]);
    }
  }

  lemma ApplyTellsRow(s: State, r: Id, d: Delta, j: Id)
    requires RowsTold(s) && CanStep(s, r) && DeltaTellsRow(s.runs[r], s.jobs[s.runs[r].job], d) && j in s.jobs
    ensures RowTold(Apply(s, r, d), j)
  {
    var s' := Apply(s, r, d);
    ApplyAppends(s, r, d);
    assert RowTold(s, j);
    if HasEntry(s, j, MDelivered) {
      KeepsEntries(s, s', j, MDelivered);
    }
    if HasEntry(s, j, MDeadLettered) {
      KeepsEntries(s, s', j, MDeadLettered);
    } else if BuryDue(s, j) {
      ApplyKeepsBurying(s, r, d, j);
    } else if d.pc == Some(Settled(DeadLettered)) && j == s.runs[r].job {
      assert r in s'.runs && s'.runs[r].job == j && Burying(s'.runs[r]);
    }
  }

  lemma ApplyTellsRuns(s: State, r: Id, d: Delta, q: Id)
    requires RowsTold(s) && CanStep(s, r) && DeltaTellsRow(s.runs[r], s.jobs[s.runs[r].job], d)
    requires q in Apply(s, r, d).runs && Concluding(Apply(s, r, d).runs[q])
    ensures HasEntry(Apply(s, r, d), Apply(s, r, d).runs[q].job, MDelivered)
  {
    ApplyAppends(s, r, d);
    if Concluding(s.runs[q]) {
      KeepsEntries(s, Apply(s, r, d), s.runs[q].job, MDelivered);
    }
  }

  lemma RunStepKeepsTelling(backoff: seq<int>, s: State, r: Id, i: Input)
    requires RowsTold(s) && CanStep(s, r)
    ensures RowsTold(RunStep(backoff, s, r, i))
  {
    var s', d := RunStep(backoff, s, r, i), NextDelta(backoff, s, r, i);
    if BeforeSending(s.runs[r].pc) {
      TellsRowBeforeSending(backoff, s, r, i);
    } else {
      TellsRowAfterSending(backoff, s, r, i);
    }
    forall j | j in s'.jobs ensures RowTold(s', j) {
      ApplyTellsRow(s, r, d, j);
    }
    forall q | q in s'.runs && Concluding(s'.runs[q]) ensures HasEntry(s', s'.runs[q].job, MDelivered) {
      ApplyTellsRuns(s, r, d, q);
    }
  }

  // ---------------------------------------------------------------- the other steps

  /** No row gets an outcome, and no run that is about to conclude is new or lost without a trace. */
  ghost predicate NoOutcome(s: State, s': State) {
    && Appends(s, s')
    && (forall r :: r in s'.runs && Concluding(s'.runs[r]) ==> r in s.runs && s.runs[r] == s'.runs[r])
    && (forall j :: j in s'.jobs && s'.jobs[j].row.status in {Delivered, DeadLettered} ==>
          && j in s.jobs && s'.jobs[j].row.status == s.jobs[j].row.status
          && (s'.jobs[j].past.crashes == 0 ==>
                && s.jobs[j].past.crashes == 0
                && forall r :: r in s.runs && s.runs[r].job == j ==> r in s'.runs && s'.runs[r] == s.runs[r]))
  }

  lemma NoOutcomeKeepsTelling(s: State, s': State)
    requires RowsTold(s) && NoOutcome(s, s')
    ensures RowsTold(s')
  {
  }

  lemma ApiHasNoOutcome(s: State, a: Action)
    requires Enabled(s, a) && OfApi(a)
    ensures NoOutcome(s, ApplyApi(s, ApiAction(s, a).0, ApiAction(s, a).1))
  {
  }

  lemma OthersHaveNoOutcome(backoff: seq<int>, s: State, a: Action)
    requires Enabled(s, a) && (a.Tick? || a.Claim? || a.Crash? || a.Restart?)
    ensures NoOutcome(s, Do(backoff, s, a))
  {
  }

  lemma {:induction false} EveryRunTellsRows(backoff: seq<int>, actions: seq<Action>)
    ensures RowsTold(Run(backoff, actions))
  {
    if |actions| > 0 {
      var s, a := Run(backoff, actions[..|actions| - 1]), actions[|actions| - 1];
      EveryRunTellsRows(backoff, actions[..|actions| - 1]);
      if Enabled(s, a) {
        if a.StepRun? {
          RunStepKeepsTelling(backoff, s, a.r, a.i);
        } else {
          if OfApi(a) {
            ApiHasNoOutcome(s, a);
          } else {
            OthersHaveNoOutcome(backoff, s, a);
          }
          NoOutcomeKeepsTelling(s, Do(backoff, s, a));
        }
      }
    }
  }

  // ---------------------------------------------------------------- delivered and dead-lettered events

  /** The events of the scope that have a job with this status. */
  ghost function EventsWith(s: State, account: nat, bridge: nat, status: JobStatus): set<Id> {
    set j | j in s.jobs && s.jobs[j].row.account == account && s.jobs[j].row.bridge == bridge &&
            s.jobs[j].row.status == status :: s.jobs[j].row.event
  }

  /** No run is at work for the scope, and none was lost. */
  ghost predicate JobsAtRest(s: State, account: nat, bridge: nat) {
    forall j :: j in s.jobs && s.jobs[j].row.account == account && s.jobs[j].row.bridge == bridge ==>
      s.jobs[j].past.crashes == 0 && !Evidence.Open(s, j)
  }

  lemma MarkedIffRow(s: State, account: nat, bridge: nat, mark: Mark)
    requires Linked(s) && Told(s) && Stranded.Inv(s) && RowsTold(s) && JobsAtRest(s, account, bridge)
    requires mark in {MDelivered, MDeadLettered}
    ensures EventsMarked(s.ledger, account, bridge, {mark}) == EventsWith(s, account, bridge, FinalOf(mark))
  {
  }

  /**
    When no run is at work for an account and bridge, and none of them was lost, the report counts
    as delivered exactly the events with a delivered job, and as dead letters exactly those with a
    dead-lettered one.
   */
  lemma {:induction false} OutcomesAreCounted(
      backoff: seq<int>, actions: seq<Action>, account: nat, bridge: nat)
    requires Ownership.OrderlyRun(backoff, actions) && JobsAtRest(Run(backoff, actions), account, bridge)
    ensures var s := Run(backoff, actions);
      var report := FetchReconciliation(AtOnce(s.ledger), account, bridge);
      && report.delivered == |EventsWith(s, account, bridge, Delivered)|
      && report.deadLetter == |EventsWith(s, account, bridge, DeadLettered)|
  {
    var s := Run(backoff, actions);
    Stranded.EveryRunKeepsInv(backoff, actions);
    EveryRunTellsRows(backoff, actions);
    MarkedIffRow(s, account, bridge, MDelivered);
    MarkedIffRow(s, account, bridge, MDeadLettered);
  }

  // ---------------------------------------------------------------- rejected and pending events

  ghost predicate HasRejection(s: State, e: Id) {
    exists i :: 0 <= i < |s.ledger| && s.ledger[i].event == e && s.ledger[i].mark == MRejected
  }

  ghost predicate RejectionDue(s: State, e: Id) {
    exists a :: a in s.actors && s.actors[a].Ingesting? && s.actors[a].event == e && s.actors[a].status == Rejected
  }

  ghost predicate RejectionTold(s: State) {
    forall e :: e in s.events && s.events[e].status == Rejected ==> HasRejection(s, e) || RejectionDue(s, e)
  }

  predicate NoHandlerLost(actions: seq<Action>) {
    forall k :: 0 <= k < |actions| ==> !actions[k].LoseActor?
  }

  lemma KeepsRejection(s: State, s': State, e: Id)
    requires Appends(s, s') && HasRejection(s, e)
    ensures HasRejection(s', e)
  {
  }

  lemma ApiKeepsRejections(s: State, a: Action)
    requires RejectionTold(s) && Enabled(s, a) && OfApi(a) && !a.LoseActor?
    ensures RejectionTold(ApplyApi(s, ApiAction(s, a).0, ApiAction(s, a).1))
  {
    var (b, d) := ApiAction(s, a);
    var s' := ApplyApi(s, b, d);
    forall e | e in s'.events && s'.events[e].status == Rejected ensures HasRejection(s', e) || RejectionDue(s', e) {
      if e !in s.events {
        assert b in s'.actors && s'.actors[b].Ingesting? && s'.actors[b].event == e;
      } else if HasRejection(s, e) {
        KeepsRejection(s, s', e);
      } else {
        DueRejectionComes(s, a, e);
      }
    }
  }

  /** The handler of a rejected event writes the entry at its next step. */
  lemma DueRejectionComes(s: State, a: Action, e: Id)
    requires Enabled(s, a) && OfApi(a) && !a.LoseActor? && RejectionDue(s, e)
    ensures var s' := ApplyApi(s, ApiAction(s, a).0, ApiAction(s, a).1); HasRejection(s', e) || RejectionDue(s', e)
  {
    var (b, d) := ApiAction(s, a);
    var s' := ApplyApi(s, b, d);
    var h :| h in s.actors && s.actors[h].Ingesting? && s.actors[h].event == e && s.actors[h].status == Rejected;
    if h != b {
      assert h in s'.actors && s'.actors[h] == s.actors[h];
    } else {
      assert s'.ledger[|s.ledger|].event == e && s'.ledger[|s.ledger|].mark == MRejected;
    }
  }

  /** Whoever steps outside the api process rejects nothing. */
  lemma OthersKeepRejections(s: State, s': State)
    requires RejectionTold(s) && Appends(s, s') && s'.actors == s.actors
    requires forall e :: e in s'.events && s'.events[e].status == Rejected ==>
      e in s.events && s.events[e].status == Rejected
    ensures RejectionTold(s')
  {
  }

  lemma RunStepRejectsNone(backoff: seq<int>, s: State, r: Id, i: Input)
    requires CanStep(s, r) && RunTells(s.runs[r])
    ensures var s' := RunStep(backoff, s, r, i);
      && Appends(s, s') && s'.actors == s.actors
      && forall e :: e in s'.events && s'.events[e].status == Rejected ==>
           e in s.events && s.events[e].status == Rejected
  {
  }

  lemma {:induction false} EveryRunTellsRejections(backoff: seq<int>, actions: seq<Action>)
    requires NoHandlerLost(actions)
    ensures RejectionTold(Run(backoff, actions))
  {
    if |actions| > 0 {
      var before, a := actions[..|actions| - 1], actions[|actions| - 1];
      var s := Run(backoff, before);
      EveryRunTellsRejections(backoff, before);
      EveryRunIsCounted(backoff, before);
      if Enabled(s, a) {
        if OfApi(a) {
          ApiKeepsRejections(s, a);
        } else {
          if a.StepRun? {
            RunStepRejectsNone(backoff, s, a.r, a.i);
          }
          OthersKeepRejections(s, Do(backoff, s, a));
        }
      }
    }
  }

  ghost function RejectedIn(s: State, account: nat, bridge: nat): set<Id> {
    set e | e in EventsIn(s, account, bridge) && s.events[e].status == Rejected
  }

  lemma MarkedIffRejected(s: State, account: nat, bridge: nat)
    requires Linked(s) && Told(s) && RejectionTold(s)
    requires forall a :: a in s.actors ==> !s.actors[a].Ingesting?
    ensures EventsMarked(s.ledger, account, bridge, {MRejected}) == RejectedIn(s, account, bridge)
  {
  }

  lemma TerminalMarks(s: State, account: nat, bridge: nat)
    requires Told(s)
    ensures EventsMarked(s.ledger, account, bridge, TERMINAL_MARKS) ==
            EventsMarked(s.ledger, account, bridge, {MDelivered}) +
            EventsMarked(s.ledger, account, bridge, {MDeadLettered}) +
            EventsMarked(s.ledger, account, bridge, {MRejected})
  {
  }

  lemma TerminalByRows(s: State, account: nat, bridge: nat)
    requires Linked(s) && Told(s) && Stranded.Inv(s) && RowsTold(s) && JobsAtRest(s, account, bridge)
    requires RejectionTold(s) && forall a :: a in s.actors ==> !s.actors[a].Ingesting?
    ensures EventsMarked(s.ledger, account, bridge, TERMINAL_MARKS) ==
            EventsWith(s, account, bridge, Delivered) + EventsWith(s, account, bridge, DeadLettered) +
            RejectedIn(s, account, bridge)
  {
    MarkedIffRow(s, account, bridge, MDelivered);
    MarkedIffRow(s, account, bridge, MDeadLettered);
    MarkedIffRejected(s, account, bridge);
    TerminalMarks(s, account, bridge);
  }

  /**
    When moreover no handler was lost and none is ingesting, pending are exactly the events that were
    not rejected and have neither a delivered nor a dead-lettered job.
   */
  lemma {:induction false} PendingAreUnfinished(
      backoff: seq<int>, actions: seq<Action>, account: nat, bridge: nat)
    requires Ownership.OrderlyRun(backoff, actions) && JobsAtRest(Run(backoff, actions), account, bridge)
    requires NoHandlerLost(actions)
    requires forall a :: a in Run(backoff, actions).actors ==> !Run(backoff, actions).actors[a].Ingesting?
    ensures var s := Run(backoff, actions);
      FetchReconciliation(AtOnce(s.ledger), account, bridge).pending ==
      |EventsIn(s, account, bridge) - EventsWith(s, account, bridge, Delivered)
       - EventsWith(s, account, bridge, DeadLettered) - RejectedIn(s, account, bridge)|
  {
    var s := Run(backoff, actions);
    Stranded.EveryRunKeepsInv(backoff, actions);
    EveryRunTellsRows(backoff, actions);
    EveryRunTellsRejections(backoff, actions);
    TerminalByRows(s, account, bridge);
    PendingIsExact(backoff, actions, account, bridge);
    MinusAll(EventsIn(s, account, bridge), EventsWith(s, account, bridge, Delivered),
             EventsWith(s, account, bridge, DeadLettered), RejectedIn(s, account, bridge));
  }

  lemma MinusAll(events: set<Id>, a: set<Id>, b: set<Id>, c: set<Id>)
    ensures events - (a + b + c) == events - a - b - c
  {
  }
}
