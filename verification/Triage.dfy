/**
  Parked events are never delivered, and every event is released at most once: by its ingestion,
  by the assistant, or by an operator.
 */
module Triage {
  import opened Dicts
  import opened Protocol
  import opened Links

  /** Held back from delivery. */
  predicate Parked(status: EventStatus) {
    status == Uncertain || status == Rejected || status == Dropped
  }

  /** The event for which a handler is about to create the delivery job. */
  function Releases(actor: Actor): Option<Id> {
    match actor
    case Ingesting(e, status, _) => if Parked(status) then None else Some(e)
    case Creating(e, _, _) => Some(e)
    case _ => None
  }

  ghost predicate ParkedHaveNoJobs(s: State) {
    forall j :: j in s.jobs ==> s.jobs[j].row.event in s.events && !Parked(s.events[s.jobs[j].row.event].status)
  }

  ghost predicate ReleasedAreNotParked(s: State) {
    forall a :: a in s.actors && Releases(s.actors[a]).Some? ==>
      Releases(s.actors[a]).value in s.events && !Parked(s.events[Releases(s.actors[a]).value].status)
  }

  ghost predicate KnownStatuses(s: State) {
    forall a :: a in s.actors && s.actors[a].Ingesting? ==> Ingestible(s.actors[a].status)
  }

  ghost predicate OneReleaser(s: State) {
    forall a, b :: a in s.actors && b in s.actors && a != b && Releases(s.actors[a]).Some? ==>
      Releases(s.actors[a]) != Releases(s.actors[b])
  }

  ghost predicate ReleasersHaveNoJob(s: State) {
    forall a, j :: a in s.actors && j in s.jobs && s.jobs[j].row.original == None ==>
      Releases(s.actors[a]) != Some(s.jobs[j].row.event)
  }

  ghost predicate OneOriginalJob(s: State) {
    forall i, j :: i in s.jobs && j in s.jobs && i != j && s.jobs[i].row.event == s.jobs[j].row.event ==>
      s.jobs[i].row.original.Some? || s.jobs[j].row.original.Some?
  }

  ghost predicate ResolvedOnce(s: State) {
    && (forall i :: 0 <= i < |s.resolutions| ==>
          s.resolutions[i].event in s.events && s.events[s.resolutions[i].event].status != Uncertain)
    && (forall i, j :: 0 <= i < j < |s.resolutions| ==> s.resolutions[i].event != s.resolutions[j].event)
  }

  ghost predicate Inv(s: State) {
    && KnownStatuses(s) && ParkedHaveNoJobs(s) && ReleasedAreNotParked(s) && OneReleaser(s)
    && ReleasersHaveNoJob(s) && OneOriginalJob(s) && ResolvedOnce(s)
  }

  // ---------------------------------------------------------------- steps that add neither job nor release

  /** No job is added, and no event becomes parked. */
  ghost predicate Calm(s: State, s': State) {
    && s'.jobs.Keys == s.jobs.Keys && Keeps(s, s')
    && s'.actors == s.actors && s'.resolutions == s.resolutions
    && (forall e :: e in s.events && Parked(s'.events[e].status) ==> s'.events[e].status == s.events[e].status)
  }

  lemma CalmKeepsInv(s: State, s': State)
    requires Inv(s) && Calm(s, s')
    ensures Inv(s')
  {
  }

  lemma DeltaNeverParks(backoff: seq<int>, s: State, r: Id, i: Input)
    requires CanStep(s, r)
    ensures var d := NextDelta(backoff, s, r, i); d.eventStatus.Some? ==> !Parked(d.eventStatus.value)
  {
  }

  lemma ApplyIsCalm(s: State, r: Id, d: Delta)
    requires CanStep(s, r) && SameJob(s.jobs[s.runs[r].job].row, d.job.row)
    requires d.eventStatus.Some? ==> !Parked(d.eventStatus.value)
    ensures Calm(s, Apply(s, r, d))
  {
  }

  lemma RunStepIsCalm(backoff: seq<int>, s: State, r: Id, i: Input)
    requires CanStep(s, r)
    ensures Calm(s, RunStep(backoff, s, r, i))
  {
    DeltaKeepsJob(backoff, s, r, i);
    DeltaNeverParks(backoff, s, r, i);
    ApplyIsCalm(s, r, NextDelta(backoff, s, r, i));
  }

  // ---------------------------------------------------------------- transactions of the api process

  lemma ReceiveKeepsInv(s: State, a: Id, e: Id, event: Event, key: Option<string>)
    requires Linked(s) && Inv(s) && a !in s.actors && e !in s.events && Ingestible(event.status)
    ensures Inv(ApplyApi(s, a, QUIET.(event := Some((e, event)), entry := Some(EventEntry(e, event, MReceived)),
                                      actor := Some(Ingesting(e, event.status, key)))))
  {
    forall b | b in s.actors ensures Releases(s.actors[b]) != Some(e) {
      assert ActorLinked(s, s.actors[b]);
    }
  }

  /** The handler passes its release on to what it does next, or gives it up. */
  lemma HandoverKeepsInv(s: State, a: Id, d: ApiDelta)
    requires Inv(s) && d.event == None && d.job == None && d.resolution == None
    requires d.actor.Some? ==> !d.actor.value.Ingesting?
    requires d.actor.Some? && Releases(d.actor.value).Some? ==>
      a in s.actors && Releases(s.actors[a]) == Releases(d.actor.value)
    ensures Inv(ApplyApi(s, a, d))
  {
  }

  lemma ResolveKeepsInv(s: State, a: Id, e: Id, status: EventStatus, origin: Option<Origin>)
    requires Inv(s) && e in s.events && s.events[e].status == Uncertain
    requires if origin.Some? then status == Healed else status == Dropped
    ensures Inv(ApplyApi(s, a, Resolve(s, e, status, origin)))
  {
  }

  lemma CreateKeepsInv(s: State, a: Id, newId: Id, e: Id, d: ApiDelta)
    requires Inv(s) && a in s.actors && Releases(s.actors[a]) == Some(e) && newId !in s.jobs && e in s.events
    requires d.event == None && d.resolution == None && (d.actor.Some? ==> d.actor.value.Announcing?)
    requires d.job.Some? && d.job.value.0 == newId && d.job.value.1.row.event == e
    ensures Inv(ApplyApi(s, a, d))
  {
  }

  lemma ReplayKeepsInv(s: State, a: Id, newId: Id, j: Id, d: ApiDelta)
    requires Inv(s) && j in s.jobs && newId !in s.jobs
    requires d.event == None && d.resolution == None && (d.actor.Some? ==> d.actor.value.Announcing?)
    requires d.job.Some? && d.job.value.0 == newId
    requires d.job.value.1.row.event == s.jobs[j].row.event && d.job.value.1.row.original.Some?
    ensures Inv(ApplyApi(s, a, d))
  {
  }

  lemma ApiKeepsInv(s: State, a: Action)
    requires Linked(s) && Inv(s) && Enabled(s, a) && OfApi(a)
    ensures Inv(ApplyApi(s, ApiAction(s, a).0, ApiAction(s, a).1))
  {
    var d := ApiAction(s, a).1;
    match a {
      case Receive(b, e, account, bridge, status, key) =>
        ReceiveKeepsInv(s, b, e, Event(account, bridge, status), key);
      case DropEvent(b, e) => ResolveKeepsInv(s, b, e, Dropped, None);
      case MapEvent(b, e) => ResolveKeepsInv(s, b, e, Healed, Some(FromOperator));
      case LoseActor(b) => HandoverKeepsInv(s, b, d);
      case ReadReplay(b, j) => HandoverKeepsInv(s, b, d);
      case StepActor(b, i) =>
        match s.actors[b] {
          case Ingesting(_, _, _) => HandoverKeepsInv(s, b, d);
          case AskingAi(e) =>
            if i.accepted && s.events[e].status == Uncertain {
              ResolveKeepsInv(s, b, e, Healed, Some(FromAi));
            } else {
              HandoverKeepsInv(s, b, d);
            }
          case Creating(e, _, _) => CreateKeepsInv(s, b, i.newId, e, d);
          case Announcing(_, _) => HandoverKeepsInv(s, b, d);
          case Replaying(j) => ReplayKeepsInv(s, b, i.newId, j, d);
        }
    }
  }

  lemma OtherStepsAreCalm(backoff: seq<int>, s: State, a: Action)
    requires Enabled(s, a) && (a.Tick? || a.Claim? || a.Crash? || a.Restart?)
    ensures Calm(s, Do(backoff, s, a))
  {
  }

  lemma StepKeepsInv(backoff: seq<int>, s: State, a: Action)
    requires Linked(s) && Inv(s) && Enabled(s, a)
    ensures Inv(Do(backoff, s, a))
  {
    if OfApi(a) {
      ApiKeepsInv(s, a);
    } else if a.StepRun? {
      RunStepIsCalm(backoff, s, a.r, a.i);
      CalmKeepsInv(s, RunStep(backoff, s, a.r, a.i));
    } else {
      OtherStepsAreCalm(backoff, s, a);
      CalmKeepsInv(s, Do(backoff, s, a));
    }
  }

  lemma {:induction false} EveryRunKeepsInv(backoff: seq<int>, actions: seq<Action>)
    ensures Linked(Run(backoff, actions)) && Inv(Run(backoff, actions))
  {
    EveryRunIsLinked(backoff, actions);
    if |actions| > 0 {
      var s, a := Run(backoff, actions[..|actions| - 1]), actions[|actions| - 1];
      EveryRunKeepsInv(backoff, actions[..|actions| - 1]);
      if Enabled(s, a) {
        StepKeepsInv(backoff, s, a);
      }
    }
  }

  /**
    In every interleaving: an uncertain, rejected or dropped event has no delivery job, at most one
    of assistant, manual map and manual drop ever succeeds for an event, and an event has at most
    one job that is not a replay.
   */
  lemma {:induction false} ParkedEventsAreSafe(backoff: seq<int>, actions: seq<Action>)
    ensures var s := Run(backoff, actions);
      && (forall j :: j in s.jobs ==> s.jobs[j].row.event in s.events && !Parked(s.events[s.jobs[j].row.event].status))
      && (forall i, j :: 0 <= i < j < |s.resolutions| ==> s.resolutions[i].event != s.resolutions[j].event)
      && (forall i, j :: i in s.jobs && j in s.jobs && i != j && s.jobs[i].row.event == s.jobs[j].row.event ==>
            s.jobs[i].row.original.Some? || s.jobs[j].row.original.Some?)
  {
    EveryRunKeepsInv(backoff, actions);
  }
}
