/**
  The reconciliation counters (database/repository.py, lines 675-685) against the ledger of any
  run: what is pending is exactly what has no terminal entry.
 */
module Reconciliation {
  import opened Dicts
  import opened Protocol
  import opened Links
  import Triage

  predicate InScope(entry: LedgerEntry, account: nat, bridge: nat) {
    entry.account == account && entry.bridge == bridge
  }

  /** `count(*)` of the received entries. */
  function ReceivedCount(ledger: seq<LedgerEntry>, account: nat, bridge: nat): nat {
    if |ledger| == 0 then 0
    else
      var last := ledger[|ledger| - 1];
      ReceivedCount(ledger[..|ledger| - 1], account, bridge) +
      (if InScope(last, account, bridge) && last.mark == MReceived then 1 else 0)
  }

  /** `count(distinct event_id)` counts this set. */
  function EventsMarked(ledger: seq<LedgerEntry>, account: nat, bridge: nat, marks: set<Mark>): set<Id> {
    set i | 0 <= i < |ledger| && InScope(ledger[i], account, bridge) && ledger[i].mark in marks :: ledger[i].event
  }

  const TERMINAL_MARKS: set<Mark> := {MDelivered, MDeliveryFailed, MDeadLettered, MRejected, MDropped, MBlocked}

  datatype Report = Report(received: int, delivered: int, failed: int, pending: int, deadLetter: int, unaccounted: int)

  /** The ledger as each of the five counting statements finds it. */
  datatype Ledgers = Ledgers(
    received: seq<LedgerEntry>, delivered: seq<LedgerEntry>, failed: seq<LedgerEntry>, deadLetter: seq<LedgerEntry>,
    terminal: seq<LedgerEntry>)

  /** Nothing is committed between the statements. */
  function AtOnce(ledger: seq<LedgerEntry>): Ledgers {
    Ledgers(ledger, ledger, ledger, ledger, ledger)
  }

  function ClampedAtZero(n: int): int { if n < 0 then 0 else n }

  /** The last counter is zero whatever the statements find. */
  function FetchReconciliation(seen: Ledgers, account: nat, bridge: nat): (report: Report)
    ensures report.unaccounted == 0
  {
    var received := ReceivedCount(seen.received, account, bridge);
    var terminal := |EventsMarked(seen.terminal, account, bridge, TERMINAL_MARKS)|;
    var pending := ClampedAtZero(received - terminal);
    Report(received, |EventsMarked(seen.delivered, account, bridge, {MDelivered})|,
           |EventsMarked(seen.failed, account, bridge, {MDeliveryFailed})|, pending,
           |EventsMarked(seen.deadLetter, account, bridge, {MDeadLettered})|,
           ClampedAtZero(received - terminal - pending))
  }

  /** The received entries of one event. */
  function ReceivedOf(ledger: seq<LedgerEntry>, e: Id): nat {
    if |ledger| == 0 then 0
    else ReceivedOf(ledger[..|ledger| - 1], e) +
         (if ledger[|ledger| - 1].event == e && ledger[|ledger| - 1].mark == MReceived then 1 else 0)
  }

  ghost function EventsIn(s: State, account: nat, bridge: nat): set<Id> {
    set e | e in s.events && s.events[e].account == account && s.events[e].bridge == bridge
  }

  // ---------------------------------------------------------------- invariants

  ghost predicate EntryTold(s: State, entry: LedgerEntry) {
    && entry.mark !in {MDeliveryFailed, MDropped, MBlocked, MArchived}
    && (entry.mark == MRejected ==> entry.event in s.events && s.events[entry.event].status == Rejected)
    && (entry.mark == MDelivered || entry.mark == MDeadLettered ==> entry.job.Some?)
  }

  predicate ActorTells(s: State, actor: Actor) {
    match actor
    case Ingesting(e, status, _) =>
      Ingestible(status) && (status == Rejected ==> e in s.events && s.events[e].status == Rejected)
    case Announcing(_, mark) => mark == MQueued || mark == MReplayed
    case _ => true
  }

  predicate RunTells(run: WorkerRun) {
    match run.pc
    case Settled(final) => final == Retrying || final == Delivered || final == DeadLettered
    case Marked(final) => final == DeadLettered
    case _ => true
  }

  ghost predicate Told(s: State) {
    && (forall i :: 0 <= i < |s.ledger| ==> EntryTold(s, s.ledger[i]))
    && (forall a :: a in s.actors ==> ActorTells(s, s.actors[a]))
    && (forall r :: r in s.runs ==> RunTells(s.runs[r]))
  }

  /** Each event has its one received entry, and the count in each scope is the number of events there. */
  ghost predicate Counted(s: State) {
    && (forall e :: ReceivedOf(s.ledger, e) == if e in s.events then 1 else 0)
    && (forall account, bridge :: ReceivedCount(s.ledger, account, bridge) == |EventsIn(s, account, bridge)|)
  }

  /** A rejected event stays rejected. */
  ghost predicate KeepsRejected(s: State, s': State) {
    forall e :: e in s.events && s.events[e].status == Rejected ==> e in s'.events && s'.events[e].status == Rejected
  }

  lemma KeepsTold(s: State, s': State)
    requires KeepsRejected(s, s')
    ensures forall entry :: EntryTold(s, entry) ==> EntryTold(s', entry)
    ensures forall actor :: ActorTells(s, actor) ==> ActorTells(s', actor)
  {
  }

  lemma AppendCounts(ledger: seq<LedgerEntry>, entry: LedgerEntry)
    ensures forall e :: (ReceivedOf(ledger + [entry], e) ==
                         ReceivedOf(ledger, e) + if entry.event == e && entry.mark == MReceived then 1 else 0)
    ensures forall account, bridge :: (ReceivedCount(ledger + [entry], account, bridge) ==
                                       ReceivedCount(ledger, account, bridge) +
                                       if InScope(entry, account, bridge) && entry.mark == MReceived then 1 else 0)
  {
  }

  /** No event is added and no received entry written: the counts stay. */
  lemma QuietKeepsCounted(s: State, s': State)
    requires Counted(s) && Keeps(s, s') && s'.events.Keys == s.events.Keys
    requires s'.ledger == s.ledger || exists entry :: s'.ledger == s.ledger + [entry] && entry.mark != MReceived
    ensures Counted(s')
  {
    if s'.ledger != s.ledger {
      var entry :| s'.ledger == s.ledger + [entry] && entry.mark != MReceived;
      AppendCounts(s.ledger, entry);
    }
    forall account, bridge ensures EventsIn(s', account, bridge) == EventsIn(s, account, bridge) {
      assert forall e :: e in s.events ==> SameEvent(s.events[e], s'.events[e]);
    }
  }

  lemma ReceiveKeepsCounted(s: State, s': State, e: Id, event: Event)
    requires Counted(s) && e !in s.events
    requires s'.events == s.events[e := event] && s'.ledger == s.ledger + [EventEntry(e, event, MReceived)]
    ensures Counted(s')
  {
    AppendCounts(s.ledger, EventEntry(e, event, MReceived));
    forall account, bridge
      ensures ReceivedCount(s'.ledger, account, bridge) == |EventsIn(s', account, bridge)|
    {
      if event.account == account && event.bridge == bridge {
        assert EventsIn(s', account, bridge) == EventsIn(s, account, bridge) + {e};
      } else {
        assert EventsIn(s', account, bridge) == EventsIn(s, account, bridge);
      }
    }
  }

  // ---------------------------------------------------------------- steps

  /** What a step of a worker run may write down: never a failure, a drop or a block. */
  ghost predicate DeltaTold(run: WorkerRun, d: Delta) {
    && (d.mark.Some? ==> d.mark.value in {MDelivering, MAttempted, MDelivered, MRetrying, MDeadLettered})
    && (d.pc.Some? ==> RunTells(run.(pc := d.pc.value)))
    && (d.eventStatus.Some? ==> d.eventStatus.value == DeliveryFailed || d.eventStatus.value == IdempotencyBlocked)
  }

  lemma DeltaTellsBeforeSending(backoff: seq<int>, s: State, r: Id, i: Input)
    requires CanStep(s, r) && RunTells(s.runs[r]) && BeforeSending(s.runs[r].pc)
    ensures DeltaTold(s.runs[r], NextDelta(backoff, s, r, i))
  {
  }

  lemma DeltaTellsAfterSending(backoff: seq<int>, s: State, r: Id, i: Input)
    requires CanStep(s, r) && RunTells(s.runs[r]) && !BeforeSending(s.runs[r].pc)
    ensures DeltaTold(s.runs[r], NextDelta(backoff, s, r, i))
  {
  }

  lemma DeltaTells(backoff: seq<int>, s: State, r: Id, i: Input)
    requires CanStep(s, r) && RunTells(s.runs[r])
    ensures DeltaTold(s.runs[r], NextDelta(backoff, s, r, i))
  {
    if BeforeSending(s.runs[r].pc) {
      DeltaTellsBeforeSending(backoff, s, r, i);
    } else {
      DeltaTellsAfterSending(backoff, s, r, i);
    }
  }

  lemma ApplyKeepsTold(s: State, r: Id, d: Delta)
    requires Told(s) && CanStep(s, r) && s.events[s.runs[r].event].status != Rejected
    requires DeltaTold(s.runs[r], d)
    ensures Told(Apply(s, r, d))
  {
  }

  lemma ApplyKeepsCounted(s: State, r: Id, d: Delta)
    requires Counted(s) && CanStep(s, r) && SameJob(s.jobs[s.runs[r].job].row, d.job.row)
    requires DeltaTold(s.runs[r], d)
    ensures Counted(Apply(s, r, d))
  {
    ApplyKeeps(s, r, d);
    QuietKeepsCounted(s, Apply(s, r, d));
  }

  lemma RunStepKeepsTold(backoff: seq<int>, s: State, r: Id, i: Input)
    requires Linked(s) && Triage.Inv(s) && Told(s) && Counted(s) && CanStep(s, r)
    ensures Told(RunStep(backoff, s, r, i)) && Counted(RunStep(backoff, s, r, i))
  {
    DeltaTells(backoff, s, r, i);
    DeltaKeepsJob(backoff, s, r, i);
    assert RunLinked(s, s.runs[r]);
    ApplyKeepsTold(s, r, NextDelta(backoff, s, r, i));
    ApplyKeepsCounted(s, r, NextDelta(backoff, s, r, i));
  }

  /** What an api transaction other than a new event writes down. */
  ghost predicate ApiTells(s: State, s': State, d: ApiDelta) {
    && (d.entry.Some? ==> EntryTold(s', d.entry.value) && d.entry.value.mark != MReceived)
    && (d.actor.Some? ==> ActorTells(s', d.actor.value))
    && (d.event.Some? ==> d.event.value.0 in s.events && s.events[d.event.value.0].status != Rejected)
  }

  lemma ApiActionTells(s: State, a: Action)
    requires Linked(s) && Told(s) && Enabled(s, a) && OfApi(a) && !a.Receive?
    ensures var (b, d) := ApiAction(s, a); ApiTells(s, ApplyApi(s, b, d), d)
  {
  }

  lemma ApiKeepsTold(s: State, a: Id, d: ApiDelta)
    requires Told(s) && Counted(s) && ApiKeepsRows(s, d) && ApiTells(s, ApplyApi(s, a, d), d)
    ensures Told(ApplyApi(s, a, d)) && Counted(ApplyApi(s, a, d))
  {
    var s' := ApplyApi(s, a, d);
    ApplyApiKeeps(s, a, d);
    KeepsTold(s, s');
    QuietKeepsCounted(s, s');
  }

  lemma ReceiveKeepsTold(s: State, a: Id, e: Id, event: Event, key: Option<string>)
    requires Told(s) && Counted(s) && e !in s.events && Ingestible(event.status)
    ensures var s' := ApplyApi(s, a, QUIET.(event := Some((e, event)), entry := Some(EventEntry(e, event, MReceived)),
                                            actor := Some(Ingesting(e, event.status, key))));
      Told(s') && Counted(s')
  {
    var s' := ApplyApi(s, a, QUIET.(event := Some((e, event)), entry := Some(EventEntry(e, event, MReceived)),
                                    actor := Some(Ingesting(e, event.status, key))));
    KeepsTold(s, s');
    ReceiveKeepsCounted(s, s', e, event);
  }

  lemma OtherStepsKeepTold(backoff: seq<int>, s: State, a: Action)
    requires Told(s) && Counted(s) && Enabled(s, a) && (a.Tick? || a.Claim? || a.Crash? || a.Restart?)
    ensures Told(Do(backoff, s, a)) && Counted(Do(backoff, s, a))
  {
    StepKeeps(backoff, s, a);
    KeepsTold(s, Do(backoff, s, a));
    QuietKeepsCounted(s, Do(backoff, s, a));
  }

  lemma StepKeepsTold(backoff: seq<int>, s: State, a: Action)
    requires Linked(s) && Triage.Inv(s) && Told(s) && Counted(s) && Enabled(s, a)
    ensures Told(Do(backoff, s, a)) && Counted(Do(backoff, s, a))
  {
    if a.StepRun? {
      RunStepKeepsTold(backoff, s, a.r, a.i);
    } else if a.Receive? {
      ReceiveKeepsTold(s, a.a, a.e, Event(a.account, a.bridge, a.status), a.key);
    } else if OfApi(a) {
      ApiActionKeepsRows(s, a);
      ApiActionTells(s, a);
      ApiKeepsTold(s, ApiAction(s, a).0, ApiAction(s, a).1);
    } else {
      OtherStepsKeepTold(backoff, s, a);
    }
  }

  lemma {:induction false} EveryRunIsCounted(backoff: seq<int>, actions: seq<Action>)
    ensures Told(Run(backoff, actions)) && Counted(Run(backoff, actions))
  {
    if |actions| > 0 {
      var s, a := Run(backoff, actions[..|actions| - 1]), actions[|actions| - 1];
      EveryRunIsCounted(backoff, actions[..|actions| - 1]);
      Triage.EveryRunKeepsInv(backoff, actions[..|actions| - 1]);
      if Enabled(s, a) {
        StepKeepsTold(backoff, s, a);
      }
    }
  }

  // ---------------------------------------------------------------- theorems

  lemma {:induction false} TerminalWereReceived(backoff: seq<int>, actions: seq<Action>, account: nat, bridge: nat)
    ensures var s := Run(backoff, actions);
      EventsMarked(s.ledger, account, bridge, TERMINAL_MARKS) <= EventsIn(s, account, bridge)
  {
    var s := Run(backoff, actions);
    EveryRunIsLinked(backoff, actions);
    forall e | e in EventsMarked(s.ledger, account, bridge, TERMINAL_MARKS) ensures e in EventsIn(s, account, bridge) {
      var i :| 0 <= i < |s.ledger| && InScope(s.ledger[i], account, bridge) && s.ledger[i].event == e;
      assert EntryLinked(s, s.ledger[i]);
    }
  }

  lemma SplitCount(events: set<Id>, terminal: set<Id>)
    ensures |events| - |terminal| == |events - terminal| - |terminal - events|
  {
    assert (events - terminal) + (events * terminal) == events;
    assert (terminal - events) + (events * terminal) == terminal;
  }

  /**
    In every run, account and bridge: the terminal events are among the received ones, each event was
    received once, and when nothing is committed between its statements the report counts as pending
    exactly the events without a terminal entry, with no clamping.
   */
  lemma {:induction false} PendingIsExact(backoff: seq<int>, actions: seq<Action>, account: nat, bridge: nat)
    ensures var s := Run(backoff, actions);
      var report, events := FetchReconciliation(AtOnce(s.ledger), account, bridge), EventsIn(s, account, bridge);
      var terminal := EventsMarked(s.ledger, account, bridge, TERMINAL_MARKS);
      && terminal <= events
      && (forall e :: e in events ==> ReceivedOf(s.ledger, e) == 1)
      && report.received == |events|
      && report.pending == |events - terminal|
      && report.received == |terminal| + report.pending
      && report.unaccounted == 0
  {
    var s := Run(backoff, actions);
    EveryRunIsCounted(backoff, actions);
    TerminalWereReceived(backoff, actions, account, bridge);
    var events, terminal := EventsIn(s, account, bridge), EventsMarked(s.ledger, account, bridge, TERMINAL_MARKS);
    SplitCount(events, terminal);
    assert terminal - events == {};
  }

  /**
    The statements read the ledger one after another.  Between the first and the last, events may be
    received and finished: these `late` ones are subtracted although they were not counted.  So the
    pending count is short by their number, and it is clamped exactly when there are more of them
    than events really pending.
   */
  lemma {:induction false} PendingIsShortByLate(
      backoff: seq<int>, actions: seq<Action>, further: seq<Action>, seen: Ledgers, account: nat, bridge: nat)
    requires seen.received == Run(backoff, actions).ledger && seen.terminal == Run(backoff, actions + further).ledger
    ensures var s, s' := Run(backoff, actions), Run(backoff, actions + further);
      var report, events := FetchReconciliation(seen, account, bridge), EventsIn(s, account, bridge);
      var terminal := EventsMarked(s'.ledger, account, bridge, TERMINAL_MARKS);
      var late := terminal - events;
      && late <= EventsIn(s', account, bridge) - events
      && report.received == |events|
      && report.pending == ClampedAtZero(|events - terminal| - |late|)
      && (report.received < |terminal| <==> |events - terminal| < |late|)
  {
    EveryRunIsCounted(backoff, actions);
    TerminalWereReceived(backoff, actions + further, account, bridge);
    SplitCount(EventsIn(Run(backoff, actions), account, bridge),
               EventsMarked(seen.terminal, account, bridge, TERMINAL_MARKS));
  }

  lemma MarkedHasJob(s: State, e: Id, account: nat, bridge: nat)
    requires Linked(s) && Told(s) && e in EventsMarked(s.ledger, account, bridge, TERMINAL_MARKS)
    ensures e in s.events && (s.events[e].status == Rejected || exists j :: j in s.jobs && s.jobs[j].row.event == e)
  {
  }

  /** Dropping an event writes no ledger entry, so a dropped event is counted as pending for ever. */
  lemma {:induction false} DroppedStaysPending(backoff: seq<int>, actions: seq<Action>, e: Id, account: nat,
          bridge: nat)
    requires var s := Run(backoff, actions); e in s.events && s.events[e].status == Dropped
    ensures e !in EventsMarked(Run(backoff, actions).ledger, account, bridge, TERMINAL_MARKS)
  {
    var s := Run(backoff, actions);
    EveryRunIsCounted(backoff, actions);
    Triage.EveryRunKeepsInv(backoff, actions);
    if e in EventsMarked(s.ledger, account, bridge, TERMINAL_MARKS) {
      MarkedHasJob(s, e, account, bridge);
    }
  }

  /** No step writes a `delivery_failed` entry: the failed counter is always zero. */
  lemma {:induction false} FailedCountIsZero(backoff: seq<int>, actions: seq<Action>, seen: Ledgers, account: nat,
          bridge: nat)
    requires seen.failed == Run(backoff, actions).ledger
    ensures FetchReconciliation(seen, account, bridge).failed == 0
  {
    var s := Run(backoff, actions);
    EveryRunIsCounted(backoff, actions);
    assert EventsMarked(s.ledger, account, bridge, {MDeliveryFailed}) == {} by {
      assert forall i :: 0 <= i < |s.ledger| ==> EntryTold(s, s.ledger[i]);
    }
  }
}
