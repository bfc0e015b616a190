/**
  Every event that may be delivered is served: it has its first job, or exactly one handler is
  about to create it, or such a handler was lost (main.py, lines 215-222, 612-619 and 724-759).
 */
module Service {
  import opened Dicts
  import opened Protocol
  import opened Links
  import opened Triage

  /** The event has a job that is not a replay. */
  ghost predicate HasFirstJob(s: State, e: Id) {
    exists j :: j in s.jobs && s.jobs[j].row.event == e && s.jobs[j].row.original == None
  }

  /** A handler is about to create the first job of the event. */
  ghost predicate InHand(s: State, e: Id) {
    exists a :: a in s.actors && Releases(s.actors[a]) == Some(e)
  }

  /** The event may be delivered. */
  ghost predicate Released(s: State, e: Id) {
    e in s.events && !Parked(s.events[e].status)
  }

  /** The events whose releasing handler was lost. */
  ghost function LostReleases(backoff: seq<int>, actions: seq<Action>): set<Id> {
    if |actions| == 0 then {}
    else
      var before, a := actions[..|actions| - 1], actions[|actions| - 1];
      LostReleases(backoff, before) + LostBy(Run(backoff, before), a)
  }

  ghost function LostBy(s: State, a: Action): set<Id> {
    if a.LoseActor? && a.a in s.actors && Releases(s.actors[a.a]).Some? then {Releases(s.actors[a.a]).value} else {}
  }

  /** Exactly one of the three holds of an event that may be delivered, and none of any other. */
  ghost predicate Accounted(s: State, lost: set<Id>, e: Id) {
    && (Released(s, e) <==> HasFirstJob(s, e) || InHand(s, e) || e in lost)
    && !(HasFirstJob(s, e) && InHand(s, e)) && !(HasFirstJob(s, e) && e in lost) && !(InHand(s, e) && e in lost)
  }

  ghost predicate Inv(s: State, lost: set<Id>) {
    forall e: Id :: Accounted(s, lost, e)
  }

  // ---------------------------------------------------------------- steps that release nothing

  lemma SameAccounts(s: State, s': State, lost: set<Id>)
    requires Inv(s, lost)
    requires forall e: Id :: (Released(s', e) <==> Released(s, e)) && (HasFirstJob(s', e) <==> HasFirstJob(s, e)) &&
                             (InHand(s', e) <==> InHand(s, e))
    ensures Inv(s', lost)
  {
    forall e: Id ensures Accounted(s', lost, e) {
      assert Accounted(s, lost, e);
    }
  }

  lemma CalmKeepsInv(s: State, s': State, lost: set<Id>)
    requires Inv(s, lost) && Calm(s, s') && s'.events.Keys == s.events.Keys
    requires forall e :: Released(s', e) ==> Released(s, e)
    ensures Inv(s', lost)
  {
    forall e: Id ensures HasFirstJob(s', e) <==> HasFirstJob(s, e) {
      if j :| j in s'.jobs && s'.jobs[j].row.event == e && s'.jobs[j].row.original == None {
        assert j in s.jobs && SameJob(s.jobs[j].row, s'.jobs[j].row);
      }
    }
    SameAccounts(s, s', lost);
  }

  /** A run marks an event that has a job, so one that may be delivered already. */
  lemma ApplyReleasesNone(s: State, r: Id, d: Delta)
    requires Linked(s) && Triage.Inv(s) && CanStep(s, r)
    ensures Apply(s, r, d).events.Keys == s.events.Keys
    ensures forall e :: Released(Apply(s, r, d), e) ==> Released(s, e)
  {
  }

  lemma OtherStepsReleaseNone(backoff: seq<int>, s: State, a: Action)
    requires Enabled(s, a) && (a.Tick? || a.Claim? || a.Crash? || a.Restart?)
    ensures Do(backoff, s, a).events == s.events
  {
  }

  // ---------------------------------------------------------------- transactions of the api process

  lemma SameJobsServe(s: State, s': State)
    requires s'.jobs == s.jobs
    ensures forall e: Id :: HasFirstJob(s', e) <==> HasFirstJob(s, e)
  {
  }

  /** Only the handler `a` changes, and with it only the events it releases. */
  lemma OthersInHand(s: State, s': State, a: Id, e: Id)
    requires forall b :: b != a ==> (b in s.actors <==> b in s'.actors) &&
                                    (b in s.actors ==> s'.actors[b] == s.actors[b])
    requires a in s.actors ==> Releases(s.actors[a]) != Some(e)
    requires a in s'.actors ==> Releases(s'.actors[a]) != Some(e)
    ensures InHand(s', e) <==> InHand(s, e)
  {
  }

  lemma ReceiveAccounts(s: State, a: Id, e: Id, event: Event, d: ApiDelta, lost: set<Id>)
    requires Inv(s, lost) && a !in s.actors && e !in s.events && d.job == None && d.event == Some((e, event))
    requires d.actor.Some? && d.actor.value.Ingesting? && d.actor.value.event == e
    requires d.actor.value.status == event.status
    ensures Inv(ApplyApi(s, a, d), lost)
  {
    var s' := ApplyApi(s, a, d);
    SameJobsServe(s, s');
    assert a in s'.actors && s'.actors[a] == d.actor.value;
    forall x: Id ensures Accounted(s', lost, x) {
      assert Accounted(s, lost, x);
      if x != e || Parked(event.status) {
        OthersInHand(s, s', a, x);
      }
    }
  }

  /** What the handler releases, if anything. */
  function ReleaseAt(s: State, a: Id): Option<Id> {
    if a in s.actors then Releases(s.actors[a]) else None
  }

  /** The handler goes on with what it releases, if anything. */
  lemma HandoverAccounts(s: State, a: Id, d: ApiDelta, lost: set<Id>)
    requires Inv(s, lost) && d.event == None && d.job == None
    requires ReleaseAt(s, a) == if d.actor.Some? then Releases(d.actor.value) else None
    ensures Inv(ApplyApi(s, a, d), lost)
  {
    var s' := ApplyApi(s, a, d);
    SameJobsServe(s, s');
    forall x: Id ensures InHand(s', x) <==> InHand(s, x) {
      if ReleaseAt(s, a) == Some(x) {
        assert a in s.actors && a in s'.actors;
      } else {
        OthersInHand(s, s', a, x);
      }
    }
    SameAccounts(s, s', lost);
  }

  lemma LoseAccounts(s: State, a: Id, lost: set<Id>)
    requires Inv(s, lost) && Triage.Inv(s) && a in s.actors
    ensures Inv(ApplyApi(s, a, QUIET), lost + LostBy(s, LoseActor(a)))
  {
    var s' := ApplyApi(s, a, QUIET);
    SameJobsServe(s, s');
    forall x: Id ensures Accounted(s', lost + LostBy(s, LoseActor(a)), x) {
      assert Accounted(s, lost, x);
      if Releases(s.actors[a]) != Some(x) {
        OthersInHand(s, s', a, x);
      }
    }
  }

  lemma ResolveAccounts(s: State, a: Id, e: Id, status: EventStatus, origin: Option<Origin>, lost: set<Id>)
    requires Inv(s, lost) && e in s.events && s.events[e].status == Uncertain && ReleaseAt(s, a) == None
    requires if origin.Some? then status == Healed else status == Dropped
    ensures Inv(ApplyApi(s, a, Resolve(s, e, status, origin)), lost)
  {
    var s' := ApplyApi(s, a, Resolve(s, e, status, origin));
    SameJobsServe(s, s');
    if origin.Some? {
      assert a in s'.actors && Releases(s'.actors[a]) == Some(e);
    }
    forall x: Id ensures Accounted(s', lost, x) {
      assert Accounted(s, lost, x);
      if x != e || origin == None {
        OthersInHand(s, s', a, x);
      }
    }
  }

  lemma CreateAccounts(s: State, a: Id, newId: Id, e: Id, d: ApiDelta, lost: set<Id>)
    requires Inv(s, lost) && Triage.Inv(s) && a in s.actors && Releases(s.actors[a]) == Some(e) && newId !in s.jobs
    requires d.event == None && (d.actor.Some? ==> d.actor.value.Announcing?)
    requires d.job.Some? && d.job.value.0 == newId
    requires d.job.value.1.row.event == e && d.job.value.1.row.original == None
    ensures Inv(ApplyApi(s, a, d), lost)
  {
    var s' := ApplyApi(s, a, d);
    assert newId in s'.jobs && s'.jobs[newId] == d.job.value.1;
    forall x: Id ensures Accounted(s', lost, x) {
      assert Accounted(s, lost, x);
      if x != e {
        OthersInHand(s, s', a, x);
        NewJobServes(s, s', newId, x);
      }
    }
  }

  lemma NewJobServes(s: State, s': State, newId: Id, e: Id)
    requires newId !in s.jobs && newId in s'.jobs && s'.jobs == s.jobs[newId := s'.jobs[newId]]
    requires s'.jobs[newId].row.event != e || s'.jobs[newId].row.original.Some?
    ensures HasFirstJob(s', e) <==> HasFirstJob(s, e)
  {
    if j :| j in s.jobs && s.jobs[j].row.event == e && s.jobs[j].row.original == None {
      assert j in s'.jobs && s'.jobs[j] == s.jobs[j];
    }
  }

  lemma ReplayAccounts(s: State, a: Id, newId: Id, d: ApiDelta, lost: set<Id>)
    requires Inv(s, lost) && ReleaseAt(s, a) == None && newId !in s.jobs
    requires d.event == None && (d.actor.Some? ==> d.actor.value.Announcing?)
    requires d.job.Some? && d.job.value.0 == newId && d.job.value.1.row.original.Some?
    ensures Inv(ApplyApi(s, a, d), lost)
  {
    var s' := ApplyApi(s, a, d);
    forall x: Id ensures (InHand(s', x) <==> InHand(s, x)) && (HasFirstJob(s', x) <==> HasFirstJob(s, x)) {
      OthersInHand(s, s', a, x);
      NewJobServes(s, s', newId, x);
    }
    SameAccounts(s, s', lost);
  }

  lemma ActorAccounts(s: State, a: Id, i: Input, lost: set<Id>)
    requires Inv(s, lost) && Triage.Inv(s) && ActorCanStep(s, a, i.newId)
    ensures Inv(ApplyApi(s, a, NextApiDelta(s, a, i)), lost)
  {
    var d := NextApiDelta(s, a, i);
    match s.actors[a] {
      case Ingesting(_, _, _) => HandoverAccounts(s, a, d, lost);
      case AskingAi(e) =>
        if i.accepted && s.events[e].status == Uncertain {
          ResolveAccounts(s, a, e, Healed, Some(FromAi), lost);
        } else {
          HandoverAccounts(s, a, d, lost);
        }
      case Creating(e, _, _) => CreateAccounts(s, a, i.newId, e, d, lost);
      case Announcing(_, _) => HandoverAccounts(s, a, d, lost);
      case Replaying(_) => ReplayAccounts(s, a, i.newId, d, lost);
    }
  }

  lemma ApiAccounts(s: State, a: Action, lost: set<Id>)
    requires Inv(s, lost) && Triage.Inv(s) && Enabled(s, a) && OfApi(a)
    ensures Inv(ApplyApi(s, ApiAction(s, a).0, ApiAction(s, a).1), lost + LostBy(s, a))
  {
    var d := ApiAction(s, a).1;
    assert !a.LoseActor? ==> lost + LostBy(s, a) == lost;
    match a {
      case Receive(b, e, account, bridge, status, _) =>
        ReceiveAccounts(s, b, e, Event(account, bridge, status), d, lost);
      case DropEvent(b, e) => ResolveAccounts(s, b, e, Dropped, None, lost);
      case MapEvent(b, e) => ResolveAccounts(s, b, e, Healed, Some(FromOperator), lost);
      case LoseActor(b) => LoseAccounts(s, b, lost);
      case ReadReplay(b, _) => HandoverAccounts(s, b, d, lost);
      case StepActor(b, i) => ActorAccounts(s, b, i, lost);
    }
  }

  lemma StepAccounts(backoff: seq<int>, s: State, a: Action, lost: set<Id>)
    requires Linked(s) && Inv(s, lost) && Triage.Inv(s) && Enabled(s, a)
    ensures Inv(Do(backoff, s, a), lost + LostBy(s, a))
  {
    if OfApi(a) {
      ApiAccounts(s, a, lost);
    } else {
      assert lost + LostBy(s, a) == lost;
      if a.StepRun? {
        RunStepIsCalm(backoff, s, a.r, a.i);
        ApplyReleasesNone(s, a.r, NextDelta(backoff, s, a.r, a.i));
        CalmKeepsInv(s, RunStep(backoff, s, a.r, a.i), lost);
      } else {
        OtherStepsAreCalm(backoff, s, a);
        OtherStepsReleaseNone(backoff, s, a);
        CalmKeepsInv(s, Do(backoff, s, a), lost);
      }
    }
  }

  lemma {:induction false} EveryRunAccounts(backoff: seq<int>, actions: seq<Action>)
    ensures Inv(Run(backoff, actions), LostReleases(backoff, actions))
  {
    if |actions| > 0 {
      var before, a := actions[..|actions| - 1], actions[|actions| - 1];
      var s := Run(backoff, before);
      EveryRunAccounts(backoff, before);
      Triage.EveryRunKeepsInv(backoff, before);
      if Enabled(s, a) {
        StepAccounts(backoff, s, a, LostReleases(backoff, before));
      } else {
        assert LostReleases(backoff, before) + LostBy(s, a) == LostReleases(backoff, before);
      }
    }
  }

  // ---------------------------------------------------------------- who may be delivered

  /** The step `k` received the event as validated or healed. */
  ghost predicate Admitted(backoff: seq<int>, actions: seq<Action>, e: Id, k: nat) {
    && k < |actions| && actions[k].Receive? && actions[k].e == e
    && Enabled(Run(backoff, actions[..k]), actions[k])
    && (actions[k].status == Validated || actions[k].status == Healed)
  }

  /** The assistant or an operator mapped the event. */
  ghost predicate Mapped(s: State, e: Id) {
    exists i: nat :: i < |s.resolutions| && s.resolutions[i].event == e && s.resolutions[i].origin.Some?
  }

  ghost predicate AdmittedOrMapped(backoff: seq<int>, actions: seq<Action>, e: Id) {
    Mapped(Run(backoff, actions), e) || EverAdmitted(backoff, actions, e)
  }

  ghost predicate EverAdmitted(backoff: seq<int>, actions: seq<Action>, e: Id) {
    exists k: nat :: Admitted(backoff, actions, e, k)
  }

  /** What one step releases: a new event, or an uncertain one that is mapped. */
  ghost predicate ReleasesBy(s: State, a: Action, s': State, e: Id) {
    || (a.Receive? && a.e == e && (a.status == Validated || a.status == Healed))
    || (Mapped(s', e) && !Mapped(s, e))
  }

  lemma ApiReleases(s: State, a: Action, e: Id)
    requires Triage.Inv(s) && Enabled(s, a) && OfApi(a)
    ensures var s' := ApplyApi(s, ApiAction(s, a).0, ApiAction(s, a).1);
      && (Mapped(s, e) ==> Mapped(s', e))
      && (Released(s', e) <==> Released(s, e) || ReleasesBy(s, a, s', e))
  {
    var d := ApiAction(s, a).1;
    var s' := ApplyApi(s, ApiAction(s, a).0, d);
    MapsBy(s, s', d, e);
  }

  lemma MapsBy(s: State, s': State, d: ApiDelta, e: Id)
    requires s'.resolutions == if d.resolution.Some? then s.resolutions + [d.resolution.value] else s.resolutions
    ensures Mapped(s', e) <==>
            Mapped(s, e) || (d.resolution.Some? && d.resolution.value.event == e && d.resolution.value.origin.Some?)
  {
    if i: nat :| i < |s.resolutions| && s.resolutions[i].event == e && s.resolutions[i].origin.Some? {
      assert s'.resolutions[i] == s.resolutions[i];
    }
    if d.resolution.Some? {
      assert s'.resolutions[|s.resolutions|] == d.resolution.value;
    }
  }

  lemma StepReleases(backoff: seq<int>, s: State, a: Action, e: Id)
    requires Linked(s) && Triage.Inv(s) && Enabled(s, a)
    ensures var s' := Do(backoff, s, a);
      && (Mapped(s, e) ==> Mapped(s', e))
      && (Released(s', e) <==> Released(s, e) || ReleasesBy(s, a, s', e))
  {
    if OfApi(a) {
      ApiReleases(s, a, e);
    } else if a.StepRun? {
      RunStepIsCalm(backoff, s, a.r, a.i);
      ApplyReleasesNone(s, a.r, NextDelta(backoff, s, a.r, a.i));
    } else {
      OtherStepsAreCalm(backoff, s, a);
      OtherStepsReleaseNone(backoff, s, a);
    }
  }

  lemma AdmittedExtends(backoff: seq<int>, actions: seq<Action>, e: Id)
    requires |actions| > 0
    ensures EverAdmitted(backoff, actions, e) <==>
            EverAdmitted(backoff, actions[..|actions| - 1], e) || Admitted(backoff, actions, e, |actions| - 1)
  {
    var before := actions[..|actions| - 1];
    forall k: nat | k < |before| ensures Admitted(backoff, actions, e, k) <==> Admitted(backoff, before, e, k) {
      assert before[..k] == actions[..k];
    }
  }

  /** The events that may be delivered are those received as validated or healed, and those mapped later. */
  lemma {:induction false} ReleasedIffAdmittedOrMapped(backoff: seq<int>, actions: seq<Action>, e: Id)
    ensures Released(Run(backoff, actions), e) <==> AdmittedOrMapped(backoff, actions, e)
  {
    if |actions| > 0 {
      var before, a := actions[..|actions| - 1], actions[|actions| - 1];
      var s := Run(backoff, before);
      ReleasedIffAdmittedOrMapped(backoff, before, e);
      AdmittedExtends(backoff, actions, e);
      Triage.EveryRunKeepsInv(backoff, before);
      if Enabled(s, a) {
        StepReleases(backoff, s, a, e);
      }
    }
  }

  /**
    In every interleaving: an event received as validated or healed, or mapped later, has its first
    job, or it is in the hands of exactly one handler, or that handler was lost; only one of the three
    holds, and none of them holds of any other event.
   */
  lemma {:induction false} EveryReleasedEventIsServed(backoff: seq<int>, actions: seq<Action>, e: Id)
    ensures var s, lost := Run(backoff, actions), LostReleases(backoff, actions);
      && (AdmittedOrMapped(backoff, actions, e) <==> HasFirstJob(s, e) || InHand(s, e) || e in lost)
      && !(HasFirstJob(s, e) && InHand(s, e)) && !(HasFirstJob(s, e) && e in lost) && !(InHand(s, e) && e in lost)
      && (forall a, b :: a in s.actors && b in s.actors && Releases(s.actors[a]) == Some(e) == Releases(s.actors[b]) ==>
            a == b)
  {
    EveryRunAccounts(backoff, actions);
    assert Accounted(Run(backoff, actions), LostReleases(backoff, actions), e);
    Triage.EveryRunKeepsInv(backoff, actions);
    ReleasedIffAdmittedOrMapped(backoff, actions, e);
  }
}
