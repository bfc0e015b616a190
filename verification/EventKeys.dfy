/**
  The idempotency key of a job: the key of the webhook for an event delivered at once, and none for
  an event mapped later (main.py, lines 215-222, 612-619 and 751-758).
 */
module EventKeys {
  import opened Dicts
  import opened Protocol
  import opened Links
  import opened Triage
  import Service
  import Lineage

  type Keys = map<Id, Option<string>>

  /** The key each event was received with. */
  ghost function ReceivedKeys(backoff: seq<int>, actions: seq<Action>): Keys {
    if |actions| == 0 then map[]
    else
      var before, a := actions[..|actions| - 1], actions[|actions| - 1];
      var keys := ReceivedKeys(backoff, before);
      if a.Receive? && Enabled(Run(backoff, before), a) then keys[a.e := a.key] else keys
  }

  /** The key that the jobs of an event have to carry. */
  ghost function KeyOf(s: State, keys: Keys, e: Id): Option<string> {
    if Service.Mapped(s, e) || e !in keys then None else keys[e]
  }

  /** The key a handler passes on to the job it is about to create. */
  function Passes(actor: Actor): Option<string> {
    match actor
    case Ingesting(_, _, key) => key
    case Creating(_, key, _) => key
    case _ => None
  }

  ghost predicate HandlersPass(s: State, keys: Keys) {
    forall a :: a in s.actors && Releases(s.actors[a]).Some? ==>
      Passes(s.actors[a]) == KeyOf(s, keys, Releases(s.actors[a]).value)
  }

  ghost predicate FirstJobsCarry(s: State, keys: Keys) {
    forall j :: j in s.jobs && s.jobs[j].row.original == None ==>
      s.jobs[j].row.key == KeyOf(s, keys, s.jobs[j].row.event)
  }

  ghost predicate Inv(s: State, keys: Keys) {
    HandlersPass(s, keys) && FirstJobsCarry(s, keys) && keys.Keys == s.events.Keys && ResolvedWereKnown(s)
  }

  ghost predicate ResolvedWereKnown(s: State) {
    forall e :: Service.Mapped(s, e) ==> e in s.events
  }

  lemma QuietKeepsInv(s: State, s': State, keys: Keys)
    requires Inv(s, keys) && Keeps(s, s') && s'.jobs.Keys == s.jobs.Keys && s'.events.Keys == s.events.Keys
    requires s'.actors == s.actors && s'.resolutions == s.resolutions
    ensures Inv(s', keys)
  {
  }

  lemma ReceiveKeepsInv(s: State, a: Id, e: Id, event: Event, key: Option<string>, d: ApiDelta, keys: Keys)
    requires Linked(s) && Triage.Inv(s) && Inv(s, keys) && e !in s.events
    requires d.event == Some((e, event)) && d.actor == Some(Ingesting(e, event.status, key))
    requires d.job == None && d.resolution == None
    ensures Inv(ApplyApi(s, a, d), keys[e := key])
  {
  }

  /** The handler passes its key on, to what it does next or to the job it creates. */
  ghost predicate PassesOn(s: State, a: Id, d: ApiDelta) {
    && (d.actor.Some? && Releases(d.actor.value).Some? ==>
          a in s.actors && Releases(s.actors[a]) == Releases(d.actor.value) &&
          Passes(s.actors[a]) == Passes(d.actor.value))
    && (d.job.Some? ==>
          && d.job.value.0 !in s.jobs
          && (d.job.value.1.row.original == None ==>
                a in s.actors && Releases(s.actors[a]) == Some(d.job.value.1.row.event) &&
                Passes(s.actors[a]) == d.job.value.1.row.key))
  }

  lemma HandoverKeepsInv(s: State, a: Id, d: ApiDelta, keys: Keys)
    requires Inv(s, keys) && d.event == None && d.resolution == None && PassesOn(s, a, d)
    ensures Inv(ApplyApi(s, a, d), keys)
  {
  }

  /** Before it is mapped, an uncertain event has neither a job nor a handler that releases it. */
  lemma ResolveKeepsInv(s: State, a: Id, e: Id, status: EventStatus, origin: Option<Origin>, keys: Keys)
    requires Triage.Inv(s) && Inv(s, keys) && e in s.events && s.events[e].status == Uncertain
    ensures Inv(ApplyApi(s, a, Resolve(s, e, status, origin)), keys)
  {
    var d := Resolve(s, e, status, origin);
    var s' := ApplyApi(s, a, d);
    forall x: Id ensures Service.Mapped(s', x) <==> Service.Mapped(s, x) || (x == e && origin.Some?) {
      Service.MapsBy(s, s', d, x);
    }
  }

  lemma ActorKeepsInv(s: State, a: Id, i: Input, keys: Keys)
    requires Triage.Inv(s) && Inv(s, keys) && ActorCanStep(s, a, i.newId)
    ensures Inv(ApplyApi(s, a, NextApiDelta(s, a, i)), keys)
  {
    var actor := s.actors[a];
    if actor.AskingAi? && i.accepted && s.events[actor.event].status == Uncertain {
      ResolveKeepsInv(s, a, actor.event, Healed, Some(FromAi), keys);
    } else {
      HandoverKeepsInv(s, a, NextApiDelta(s, a, i), keys);
    }
  }

  lemma ApiKeepsInv(s: State, a: Action, keys: Keys)
    requires Linked(s) && Triage.Inv(s) && Inv(s, keys) && Enabled(s, a) && OfApi(a)
    ensures Inv(ApplyApi(s, ApiAction(s, a).0, ApiAction(s, a).1), if a.Receive? then keys[a.e := a.key] else keys)
  {
    var d := ApiAction(s, a).1;
    match a {
      case Receive(b, e, account, bridge, status, key) =>
        ReceiveKeepsInv(s, b, e, Event(account, bridge, status), key, d, keys);
      case DropEvent(b, e) => ResolveKeepsInv(s, b, e, Dropped, None, keys);
      case MapEvent(b, e) => ResolveKeepsInv(s, b, e, Healed, Some(FromOperator), keys);
      case LoseActor(b) => HandoverKeepsInv(s, b, d, keys);
      case ReadReplay(b, _) => HandoverKeepsInv(s, b, d, keys);
      case StepActor(b, i) => ActorKeepsInv(s, b, i, keys);
    }
  }

  lemma StepKeepsInv(backoff: seq<int>, s: State, a: Action, keys: Keys)
    requires Linked(s) && Triage.Inv(s) && Inv(s, keys) && Enabled(s, a)
    ensures Inv(Do(backoff, s, a), if a.Receive? then keys[a.e := a.key] else keys)
  {
    if OfApi(a) {
      ApiKeepsInv(s, a, keys);
    } else if a.StepRun? {
      RunStepIsCalm(backoff, s, a.r, a.i);
      Service.ApplyReleasesNone(s, a.r, NextDelta(backoff, s, a.r, a.i));
      QuietKeepsInv(s, RunStep(backoff, s, a.r, a.i), keys);
    } else {
      OtherStepsAreCalm(backoff, s, a);
      Service.OtherStepsReleaseNone(backoff, s, a);
      QuietKeepsInv(s, Do(backoff, s, a), keys);
    }
  }

  lemma {:induction false} EveryRunKeepsInv(backoff: seq<int>, actions: seq<Action>)
    ensures Inv(Run(backoff, actions), ReceivedKeys(backoff, actions))
  {
    if |actions| > 0 {
      var before, a := actions[..|actions| - 1], actions[|actions| - 1];
      EveryRunKeepsInv(backoff, before);
      Triage.EveryRunKeepsInv(backoff, before);
      if Enabled(Run(backoff, before), a) {
        StepKeepsInv(backoff, Run(backoff, before), a, ReceivedKeys(backoff, before));
      }
    }
  }

  /**
    Every job, replays included, carries the account, the bridge and the key its event was received
    with; only the jobs of an event that was mapped by the assistant or an operator carry no key.
   */
  lemma {:induction false} JobsCarryTheirEvent(backoff: seq<int>, actions: seq<Action>, j: Id)
    requires j in Run(backoff, actions).jobs
    ensures var s, keys := Run(backoff, actions), ReceivedKeys(backoff, actions);
      var row := s.jobs[j].row;
      && row.event in s.events && row.event in keys
      && row.account == s.events[row.event].account && row.bridge == s.events[row.event].bridge
      && row.key == if Service.Mapped(s, row.event) then None else keys[row.event]
  {
    var s := Run(backoff, actions);
    EveryRunKeepsInv(backoff, actions);
    EveryRunIsLinked(backoff, actions);
    Lineage.EveryRunKeepsInv(backoff, actions);
    assert JobLinked(s, j);
    var root := Lineage.RootExists(s, j);
  }
}
