/** What every step keeps about identity: rows are never lost, and references stay good. */
module Links {
  import opened Protocol
  import ClaimTable

  predicate SameEvent(e: Event, f: Event) {
    e.account == f.account && e.bridge == f.bridge
  }

  predicate SameJob(j: Job, k: Job) {
    j == k.(status := j.status, attempts := j.attempts, nextAttempt := j.nextAttempt)
  }

  /** Events and jobs persist; only their status columns change. */
  ghost predicate Keeps(s: State, s': State) {
    && (forall e :: e in s.events ==> e in s'.events && SameEvent(s.events[e], s'.events[e]))
    && (forall j :: j in s.jobs ==> j in s'.jobs && SameJob(s.jobs[j].row, s'.jobs[j].row))
  }

  /** A worker step only ever changes status columns of its own job. */
  lemma DeltaKeepsJob(backoff: seq<int>, s: State, r: Id, i: Input)
    requires CanStep(s, r)
    ensures SameJob(s.jobs[s.runs[r].job].row, NextDelta(backoff, s, r, i).job.row)
  {
  }

  lemma ApplyKeeps(s: State, r: Id, d: Delta)
    requires CanStep(s, r) && SameJob(s.jobs[s.runs[r].job].row, d.job.row)
    ensures Keeps(s, Apply(s, r, d))
  {
  }

  /** An api transaction changes the status of a known event or adds a new one, and only adds jobs. */
  ghost predicate ApiKeepsRows(s: State, d: ApiDelta) {
    && (d.event.Some? && d.event.value.0 in s.events ==> SameEvent(s.events[d.event.value.0], d.event.value.1))
    && (d.job.Some? ==> d.job.value.0 !in s.jobs)
  }

  lemma ApiActionKeepsRows(s: State, a: Action)
    requires Enabled(s, a) && OfApi(a)
    ensures ApiKeepsRows(s, ApiAction(s, a).1)
  {
  }

  lemma ApplyApiKeeps(s: State, a: Id, d: ApiDelta)
    requires ApiKeepsRows(s, d)
    ensures Keeps(s, ApplyApi(s, a, d))
  {
  }

  lemma StepKeeps(backoff: seq<int>, s: State, a: Action)
    requires Enabled(s, a)
    ensures Keeps(s, Do(backoff, s, a))
  {
    match a {
      case Tick(_) =>
      case Restart =>
      case Claim(_, _) =>
      case Crash(_) =>
      case StepRun(r, i) =>
        DeltaKeepsJob(backoff, s, r, i);
        ApplyKeeps(s, r, NextDelta(backoff, s, r, i));
      case _ =>
        ApiActionKeepsRows(s, a);
        ApplyApiKeeps(s, ApiAction(s, a).0, ApiAction(s, a).1);
    }
  }

  ghost predicate JobLinked(s: State, j: Id)
    requires j in s.jobs
  {
    var row := s.jobs[j].row;
    row.event in s.events && row.account == s.events[row.event].account && row.bridge == s.events[row.event].bridge
  }

  ghost predicate RunLinked(s: State, run: WorkerRun) {
    && run.job in s.jobs
    && var row := s.jobs[run.job].row;
       && run.event == row.event && run.bridge == row.bridge && run.key == row.key
       && (run.pc.Missed? ==> ClaimTable.Keyed(run.key))
  }

  ghost predicate ActorLinked(s: State, actor: Actor) {
    match actor
    case Ingesting(e, _, _) => e in s.events
    case AskingAi(e) => e in s.events
    case Creating(e, _, _) => e in s.events
    case Announcing(j, _) => j in s.jobs
    case Replaying(j) => j in s.jobs
  }

  ghost predicate EntryLinked(s: State, entry: LedgerEntry) {
    && entry.event in s.events
    && entry.account == s.events[entry.event].account && entry.bridge == s.events[entry.event].bridge
    && (entry.job.Some? ==> entry.job.value in s.jobs && s.jobs[entry.job.value].row.event == entry.event)
  }

  ghost predicate Linked(s: State) {
    && (forall j :: j in s.jobs ==> JobLinked(s, j))
    && (forall r :: r in s.runs ==> RunLinked(s, s.runs[r]))
    && (forall a :: a in s.actors ==> ActorLinked(s, s.actors[a]))
    && (forall i :: 0 <= i < |s.ledger| ==> EntryLinked(s, s.ledger[i]))
  }

  lemma KeepsLinks(s: State, s': State)
    requires Keeps(s, s')
    ensures forall run :: RunLinked(s, run) ==> RunLinked(s', run)
    ensures forall actor :: ActorLinked(s, actor) ==> ActorLinked(s', actor)
    ensures forall entry :: EntryLinked(s, entry) ==> EntryLinked(s', entry)
    ensures forall j :: j in s.jobs && JobLinked(s, j) ==> JobLinked(s', j)
  {
  }

  lemma DeltaMisses(backoff: seq<int>, s: State, r: Id, i: Input)
    requires CanStep(s, r)
    ensures var pc := NextDelta(backoff, s, r, i).pc; pc.Some? && pc.value.Missed? ==> ClaimTable.Keyed(s.runs[r].key)
  {
  }

  lemma ApplyLinks(s: State, r: Id, d: Delta)
    requires Linked(s) && CanStep(s, r) && SameJob(s.jobs[s.runs[r].job].row, d.job.row)
    requires d.pc.Some? && d.pc.value.Missed? ==> ClaimTable.Keyed(s.runs[r].key)
    ensures Linked(Apply(s, r, d))
  {
    var s' := Apply(s, r, d);
    ApplyKeeps(s, r, d);
    KeepsLinks(s, s');
    assert RunLinked(s', s.runs[r]) && JobLinked(s', s.runs[r].job);
  }

  /** Everything an api transaction adds is linked to rows that exist by then. */
  ghost predicate ApiLinked(s: State, s': State, d: ApiDelta) {
    && (d.actor.Some? ==> ActorLinked(s', d.actor.value))
    && (d.job.Some? ==> d.job.value.0 in s'.jobs && JobLinked(s', d.job.value.0))
    && (d.entry.Some? ==> EntryLinked(s', d.entry.value))
  }

  lemma ApiActionLinks(s: State, a: Action)
    requires Linked(s) && Enabled(s, a) && OfApi(a)
    ensures var (b, d) := ApiAction(s, a); ApiLinked(s, ApplyApi(s, b, d), d)
  {
  }

  lemma ApplyApiLinks(s: State, a: Id, d: ApiDelta)
    requires Linked(s) && ApiKeepsRows(s, d) && ApiLinked(s, ApplyApi(s, a, d), d)
    ensures Linked(ApplyApi(s, a, d))
  {
    ApplyApiKeeps(s, a, d);
    KeepsLinks(s, ApplyApi(s, a, d));
  }

  lemma ClaimLinks(s: State, r: Id, j: Id)
    requires Linked(s) && j in s.jobs
    ensures Linked(ClaimJob(s, r, j))
  {
  }

  lemma LoseRunLinks(s: State, r: Id)
    requires Linked(s) && r in s.runs && s.runs[r].job in s.jobs
    ensures Linked(LoseRun(s, r))
  {
  }

  lemma StepLinks(backoff: seq<int>, s: State, a: Action)
    requires Linked(s) && Enabled(s, a)
    ensures Linked(Do(backoff, s, a))
  {
    match a {
      case StepRun(r, i) =>
        DeltaKeepsJob(backoff, s, r, i);
        DeltaMisses(backoff, s, r, i);
        ApplyLinks(s, r, NextDelta(backoff, s, r, i));
      case Tick(_) =>
        KeepsLinks(s, Do(backoff, s, a));
      case Restart =>
        KeepsLinks(s, Do(backoff, s, a));
      case Claim(r, j) =>
        ClaimLinks(s, r, j);
      case Crash(r) =>
        LoseRunLinks(s, r);
      case _ =>
        ApiActionKeepsRows(s, a);
        ApiActionLinks(s, a);
        ApplyApiLinks(s, ApiAction(s, a).0, ApiAction(s, a).1);
    }
  }

  /** References stay good in every run; in particular no worker run is ever stuck. */
  lemma {:induction false} EveryRunIsLinked(backoff: seq<int>, actions: seq<Action>)
    ensures Linked(Run(backoff, actions))
    ensures forall r :: r in Run(backoff, actions).runs ==> CanStep(Run(backoff, actions), r)
  {
    if |actions| > 0 {
      EveryRunIsLinked(backoff, actions[..|actions| - 1]);
      var s, a := Run(backoff, actions[..|actions| - 1]), actions[|actions| - 1];
      if Enabled(s, a) {
        StepLinks(backoff, s, a);
      }
    }
    var s := Run(backoff, actions);
    forall r | r in s.runs ensures CanStep(s, r) {
      assert RunLinked(s, s.runs[r]) && JobLinked(s, s.runs[r].job);
    }
  }
}
