/**
  Durable delivery, triage and replay as one interleaved step system (main.py,
  core/queue_worker.py, database/repository.py), in the split deployment: the api process
  enqueues nothing, so every queue entry comes from the recovery claim.

  A committed transaction is one step.  A worker run is a sequence of such steps and can be lost
  between any two of them; so can a request handler.
 */
module Protocol {
  import opened Dicts
  import opened Outbound
  import ClaimTable

  type Id = nat

  // ---------------------------------------------------------------- rows

  datatype EventStatus = Validated | Healed | Rejected | Uncertain | DeliveryFailed | Dropped | IdempotencyBlocked

  datatype Event = Event(account: nat, bridge: nat, status: EventStatus)

  datatype JobStatus = Queued | Delivering | Retrying | Delivered | DeadLettered | Blocked

  predicate Terminal(status: JobStatus) {
    status == Delivered || status == DeadLettered || status == Blocked
  }

  datatype Job = Job(
    event: Id, account: nat, bridge: nat, key: Option<string>, original: Option<Id>, replays: nat,
    status: JobStatus, attempts: nat, nextAttempt: int, created: int)

  /** What a ledger entry records. */
  datatype Mark =
    | MReceived | MValidated | MHealed | MUncertain | MRejected | MQueued | MDelivering | MAttempted
    | MDelivered | MRetrying | MDeliveryFailed | MDeadLettered | MReplayed | MArchived | MDropped | MBlocked

  datatype LedgerEntry = LedgerEntry(event: Id, job: Option<Id>, account: nat, bridge: nat, mark: Mark,
          attempt: Option<nat>)

  datatype Attempt = Attempt(job: Id, number: nat, delivered: bool, response: Response)

  datatype ClaimRow = ClaimRow(event: Id, expires: int)

  const CLAIM_TTL: int := 86400

  const STALE_SECONDS: int := 300

  // ---------------------------------------------------------------- actors

  /** Where a worker run stands; each constructor names the last thing that was committed. */
  datatype Pc =
    | Waiting                       // in the queue
    | Started                       // row delivering, count raised
    | Announced                     // ledger: delivering
    | Gated                         // past the in-memory claim
    | Missed(reading: int)          // no live claim row was found
    | Cleared                       // allowed to send
    | Sent(response: Response)
    | Recorded(response: Response)  // attempt row
    | Logged(response: Response)    // ledger: delivery_attempted
    | Noted(response: Response)     // ledger: delivered or retrying
    | Touched(response: Response)   // row updated by the callback
    | Settled(final: JobStatus)     // row has its outcome
    | Marked(final: JobStatus)      // event marked as failed
    | Suppressing                   // duplicate found
    | Suppressed                    // event marked as blocked

  /** A queue entry, then the run that took it. */
  datatype WorkerRun = WorkerRun(
    job: Id, event: Id, bridge: nat, key: Option<string>, isReplay: bool, attempts: nat, pc: Pc)

  /** The run may still write the job row. */
  predicate Writing(run: WorkerRun) {
    !run.pc.Settled? && !run.pc.Marked?
  }

  /** A run that has not sent yet. */
  predicate BeforeSending(pc: Pc) {
    pc.Waiting? || pc.Started? || pc.Announced? || pc.Gated? || pc.Missed? || pc.Cleared?
  }

  datatype Origin = FromIngest | FromAi | FromOperator

  /** Request handlers and background tasks of the api process. */
  datatype Actor =
    | Ingesting(event: Id, status: EventStatus, key: Option<string>)
    | AskingAi(event: Id)
    | Creating(event: Id, key: Option<string>, origin: Origin)
    | Announcing(job: Id, mark: Mark)
    | Replaying(job: Id)

  // ---------------------------------------------------------------- state

  /** What happened to a job so far; no program reads it. */
  datatype Past = Past(crashes: nat, claims: nat, starts: seq<int>, outcomes: seq<int>, closed: Option<Closing>)

  /** The attempt and outcome of the run that last wrote its closing ledger entry. */
  datatype Closing = Closing(attempt: nat, final: JobStatus)

  datatype Tracked = Tracked(row: Job, past: Past)

  datatype Use = Use(bridge: nat, key: string, event: Id)

  datatype Send = Send(job: Id, event: Id, bridge: nat, key: Option<string>)

  datatype Resolution = Resolution(event: Id, origin: Option<Origin>)

  datatype State = State(
    now: int,
    events: map<Id, Event>,
    jobs: map<Id, Tracked>,
    attempts: seq<Attempt>,
    ledger: seq<LedgerEntry>,
    claims: map<(nat, string), ClaimRow>,
    memory: ClaimTable.Claims,
    runs: map<Id, WorkerRun>,
    actors: map<Id, Actor>,
    granted: seq<Use>,
    sends: seq<Send>,
    resolutions: seq<Resolution>)

  const INITIAL: State := State(0, map[], map[], [], [], map[], map[], map[], map[], [], [], [])

  /** What the environment decides at a step. */
  datatype Input = Input(reading: int, clock: real, response: Response, accepted: bool, newId: Id)

  datatype Action =
    | Tick(seconds: nat)
    | Receive(a: Id, e: Id, account: nat, bridge: nat, status: EventStatus, key: Option<string>)
    | StepActor(a: Id, i: Input)
    | LoseActor(a: Id)
    | DropEvent(a: Id, e: Id)
    | MapEvent(a: Id, e: Id)
    | ReadReplay(a: Id, j: Id)
    | Claim(r: Id, j: Id)
    | StepRun(r: Id, i: Input)
    | Crash(r: Id)
    | Restart

  // ---------------------------------------------------------------- small helpers

  function MarkOf(status: JobStatus): Mark {
    match status
    case Queued => MQueued
    case Delivering => MDelivering
    case Retrying => MRetrying
    case Delivered => MDelivered
    case DeadLettered => MDeadLettered
    case Blocked => MBlocked
  }

  function MarkOfEvent(status: EventStatus): Mark {
    match status
    case Validated => MValidated
    case Healed => MHealed
    case Rejected => MRejected
    case Uncertain => MUncertain
    case DeliveryFailed => MDeliveryFailed
    case Dropped => MDropped
    case IdempotencyBlocked => MBlocked
  }

  // ---------------------------------------------------------------- the worker run

  /** core/queue_worker.py, lines 147-156. */
  function Outcome(backoff: seq<int>, attempt: nat, response: Response): JobStatus {
    if Succeeded(response) then Delivered
    else if IsRetryable(response) && attempt < |backoff| then Retrying
    else DeadLettered
  }

  /** What one step of a worker run changes: its own job row, and at most one row of each other kind. */
  datatype Delta = Delta(
    pc: Option<Pc>,                     // where the run stands next; none when it is over
    job: Tracked,
    eventStatus: Option<EventStatus>,
    mark: Option<Mark>,
    attempt: Option<nat>,               // the attempt number of the ledger entry
    response: Option<Response>,         // an attempt row
    sends: bool,
    grants: bool,
    claims: map<(nat, string), ClaimRow>,
    memory: ClaimTable.Claims)

  ghost predicate CanStep(s: State, r: Id) {
    && r in s.runs && s.runs[r].job in s.jobs && s.runs[r].event in s.events
    && (s.runs[r].pc.Missed? ==> ClaimTable.Keyed(s.runs[r].key))
  }

  /** `claim_idempotency_key` up to its select: an unexpired row decides, otherwise an insert follows. */
  function Lookup(s: State, run: WorkerRun, d: Delta, reading: int): Delta {
    if !ClaimTable.Keyed(run.key) then d.(pc := Some(Cleared))
    else
      var slot := (run.bridge, run.key.value);
      if slot in s.claims && s.claims[slot].expires > reading then
        if s.claims[slot].event == run.event then d.(pc := Some(Cleared), grants := true)
        else d.(pc := Some(Suppressing))
      else d.(pc := Some(Missed(reading)))
  }

  /** Rows that expired before `t` now expire at `t`. */
  function TouchExpired(claims: map<(nat, string), ClaimRow>, t: int): map<(nat, string), ClaimRow> {
    map c | c in claims :: if claims[c].expires <= t then claims[c].(expires := t) else claims[c]
  }

  /** The update of expired rows and the insert, undone together when the unique constraint objects. */
  function InsertClaim(s: State, run: WorkerRun, d: Delta): Delta
    requires run.pc.Missed? && ClaimTable.Keyed(run.key)
  {
    var t, slot := run.pc.reading, (run.bridge, run.key.value);
    if slot in s.claims then d.(pc := Some(Suppressing))
    else
      d.(pc := Some(Cleared), grants := true,
         claims := TouchExpired(s.claims, t)[slot := ClaimRow(run.event, t + CLAIM_TTL)])
  }

  /** The row when attempt `n` begins. */
  function Taken(t: Tracked, n: nat, now: int): Tracked {
    Tracked(t.row.(status := Delivering, attempts := n), t.past.(starts := t.past.starts + [now]))
  }

  /** The row when attempt `n` has its outcome; a retry is due after the wait of the policy. */
  function Finished(backoff: seq<int>, t: Tracked, n: nat, now: int, final: JobStatus): Tracked
    requires final == Retrying ==> n < |backoff|
  {
    Tracked(t.row.(status := final, attempts := n,
                   nextAttempt := if final == Retrying then now + backoff[n] else t.row.nextAttempt),
            t.past.(outcomes := t.past.outcomes + [now]))
  }

  function BlockedJob(t: Tracked): Tracked {
    t.(row := t.row.(status := Blocked, attempts := 1))
  }

  /** The next committed step of run `r` (core/queue_worker.py, lines 64-168). */
  function NextDelta(backoff: seq<int>, s: State, r: Id, i: Input): Delta
    requires CanStep(s, r)
  {
    var run := s.runs[r];
    var n, t := run.attempts + 1, s.jobs[run.job];
    var d := Delta(Some(run.pc), t, None, None, None, None, false, false, s.claims, s.memory);
    match run.pc
    case Waiting =>
      d.(pc := Some(Started), job := Taken(t, n, s.now))
    case Started =>
      d.(pc := Some(Announced), mark := Some(MDelivering))
    case Announced =>
      var call := ClaimTable.Call(run.key, i.clock);
      if !ClaimTable.Keyed(run.key) || run.isReplay then d.(pc := Some(Gated))
      else d.(pc := Some(if ClaimTable.Grants(s.memory, call) then Gated else Suppressing),
              memory := ClaimTable.After(s.memory, call))
    case Gated => Lookup(s, run, d, i.reading)
    case Missed(_) => InsertClaim(s, run, d)
    case Cleared =>
      d.(pc := Some(Sent(i.response)), sends := true)
    case Sent(response) =>
      d.(pc := Some(Recorded(response)), response := Some(response))
    case Recorded(response) =>
      d.(pc := Some(Logged(response)), mark := Some(MAttempted), attempt := Some(n))
    case Logged(response) =>
      var mark := if Succeeded(response) then MDelivered else MRetrying;
      d.(pc := Some(Noted(response)), mark := Some(mark), attempt := Some(n))
    case Noted(response) =>
      d.(pc := Some(Touched(response)), job := t.(row := t.row.(status := Delivering, attempts := n)))
    case Touched(response) =>
      var final := Outcome(backoff, n, response);
      d.(pc := Some(Settled(final)), job := Finished(backoff, t, n, s.now, final))
    case Settled(final) =>
      if final == DeadLettered then d.(pc := Some(Marked(final)), eventStatus := Some(DeliveryFailed))
      else Closed(d, n, final)
    case Marked(final) => Closed(d, n, final)
    case Suppressing =>
      d.(pc := Some(Suppressed), eventStatus := Some(IdempotencyBlocked))
    case Suppressed =>
      d.(pc := None, job := BlockedJob(t))
  }

  /** The closing ledger entry ends the run. */
  function Closed(d: Delta, n: nat, final: JobStatus): Delta {
    d.(pc := None, mark := Some(MarkOf(final)), job := d.job.(past := d.job.past.(closed := Some(Closing(n, final)))))
  }

  function Apply(s: State, r: Id, d: Delta): State
    requires CanStep(s, r)
  {
    var run := s.runs[r];
    var row := d.job.row;
    s.(jobs := s.jobs[run.job := d.job],
       runs := if d.pc.Some? then s.runs[r := run.(pc := d.pc.value)] else s.runs - {r},
       events := if d.eventStatus.Some?
                 then s.events[run.event := s.events[run.event].(status := d.eventStatus.value)] else s.events,
       ledger := if d.mark.Some?
                 then s.ledger +
                      [LedgerEntry(row.event, Some(run.job), row.account, row.bridge, d.mark.value, d.attempt)]
                 else s.ledger,
       attempts := if d.response.Some?
                   then s.attempts + [Attempt(run.job, run.attempts + 1, Succeeded(d.response.value), d.response.value)]
                   else s.attempts,
       sends := if d.sends then s.sends + [Send(run.job, run.event, run.bridge, run.key)] else s.sends,
       granted := if d.grants && ClaimTable.Keyed(run.key)
                  then s.granted + [Use(run.bridge, run.key.value, run.event)] else s.granted,
       claims := d.claims,
       memory := d.memory)
  }

  function RunStep(backoff: seq<int>, s: State, r: Id, i: Input): State
    requires CanStep(s, r)
  {
    Apply(s, r, NextDelta(backoff, s, r, i))
  }

  /** The recovery query takes a row when it is due, or delivering and stale, whoever is at work on it. */
  ghost predicate Recoverable(s: State, j: Id) {
    && j in s.jobs
    && var row := s.jobs[j].row;
       || ((row.status == Queued || row.status == Retrying) && row.nextAttempt <= s.now)
       || (row.status == Delivering && row.created <= s.now - STALE_SECONDS)
  }

  /** A run that may still write the row is alive. */
  ghost predicate Owned(s: State, j: Id) {
    exists r :: IsOwner(s, j, r)
  }

  ghost predicate IsOwner(s: State, j: Id, r: Id) {
    r in s.runs && s.runs[r].job == j && Writing(s.runs[r])
  }

  // ---------------------------------------------------------------- the api process

  function NewJob(s: State, e: Id, key: Option<string>): Tracked
    requires e in s.events
  {
    Tracked(Job(e, s.events[e].account, s.events[e].bridge, key, None, 0, Queued, 0, s.now, s.now),
            Past(0, 0, [], [], None))
  }

  /** `replay_delivery_job`: the lineage points at the first job of the chain. */
  function ReplayOf(s: State, j: Id): Tracked
    requires j in s.jobs
  {
    var row := s.jobs[j].row;
    Tracked(row.(original := if row.original.Some? then row.original else Some(j), replays := row.replays + 1,
                 status := Queued, attempts := 0, nextAttempt := s.now, created := s.now),
            Past(0, 0, [], [], None))
  }

  function EventEntry(e: Id, event: Event, mark: Mark): LedgerEntry {
    LedgerEntry(e, None, event.account, event.bridge, mark, None)
  }

  /** What one transaction of the api process changes. */
  datatype ApiDelta = ApiDelta(
    actor: Option<Actor>,               // what the handler does next; none when it is done
    event: Option<(Id, Event)>,
    job: Option<(Id, Tracked)>,
    entry: Option<LedgerEntry>,
    resolution: Option<Resolution>)

  const QUIET: ApiDelta := ApiDelta(None, None, None, None, None)

  ghost predicate ActorCanStep(s: State, a: Id, newId: Id) {
    && a in s.actors
    && match s.actors[a]
       case Ingesting(e, _, _) => e in s.events
       case AskingAi(e) => e in s.events
       case Creating(e, _, _) => e in s.events && newId !in s.jobs
       case Announcing(j, _) => j in s.jobs
       case Replaying(j) => j in s.jobs && newId !in s.jobs
  }

  /**
    `receive_webhook`, `resolve_and_forward_uncertain`, `resolve_triage` and `replay_delivery`, a
    transaction at a time.
   */
  function NextApiDelta(s: State, a: Id, i: Input): ApiDelta
    requires ActorCanStep(s, a, i.newId)
  {
    match s.actors[a]
    case Ingesting(e, status, key) =>
      QUIET.(entry := Some(EventEntry(e, s.events[e], MarkOfEvent(status))),
             actor := if status == Rejected then None
                      else if status == Uncertain then Some(AskingAi(e))
                      else Some(Creating(e, key, FromIngest)))
    case AskingAi(e) =>
      // An unsure answer, or an event no longer uncertain, leaves everything as it is.
      if i.accepted && s.events[e].status == Uncertain then Resolve(s, e, Healed, Some(FromAi))
      else QUIET
    case Creating(e, key, origin) =>
      QUIET.(job := Some((i.newId, NewJob(s, e, key))),
             actor := if origin == FromIngest then Some(Announcing(i.newId, MQueued)) else None)
    case Announcing(j, mark) =>
      var row := s.jobs[j].row;
      QUIET.(entry := Some(LedgerEntry(row.event, Some(j), row.account, row.bridge, mark, None)))
    case Replaying(j) =>
      QUIET.(job := Some((i.newId, ReplayOf(s, j))), actor := Some(Announcing(i.newId, MReplayed)))
  }

  /** An uncertain event is mapped by the assistant or an operator, who then creates the job, or dropped. */
  function Resolve(s: State, e: Id, status: EventStatus, origin: Option<Origin>): ApiDelta
    requires e in s.events
  {
    QUIET.(event := Some((e, s.events[e].(status := status))),
           resolution := Some(Resolution(e, origin)),
           actor := if origin.Some? then Some(Creating(e, None, origin.value)) else None)
  }

  function ApplyApi(s: State, a: Id, d: ApiDelta): State {
    s.(actors := if d.actor.Some? then s.actors[a := d.actor.value] else s.actors - {a},
       events := if d.event.Some? then s.events[d.event.value.0 := d.event.value.1] else s.events,
       jobs := if d.job.Some? then s.jobs[d.job.value.0 := d.job.value.1] else s.jobs,
       ledger := if d.entry.Some? then s.ledger + [d.entry.value] else s.ledger,
       resolutions := if d.resolution.Some? then s.resolutions + [d.resolution.value] else s.resolutions)
  }

  // ---------------------------------------------------------------- all actions

  predicate Ingestible(status: EventStatus) {
    status == Validated || status == Healed || status == Rejected || status == Uncertain
  }

  ghost predicate Enabled(s: State, a: Action) {
    match a
    case Tick(_) => true
    case Receive(b, e, _, _, status, _) => b !in s.actors && e !in s.events && Ingestible(status)
    case StepActor(b, i) => ActorCanStep(s, b, i.newId)
    case LoseActor(b) => b in s.actors
    case DropEvent(b, e) => b !in s.actors && e in s.events && s.events[e].status == Uncertain
    case MapEvent(b, e) => b !in s.actors && e in s.events && s.events[e].status == Uncertain
    case ReadReplay(b, j) =>
      b !in s.actors && j in s.jobs && (s.jobs[j].row.status == DeadLettered || s.jobs[j].row.status == Retrying)
    case Claim(r, j) => r !in s.runs && Recoverable(s, j)
    case StepRun(r, _) => CanStep(s, r)
    case Crash(r) => r in s.runs && s.runs[r].job in s.jobs
    case Restart => s.runs == map[]
  }

  predicate OfApi(a: Action) {
    !a.Tick? && !a.Claim? && !a.StepRun? && !a.Crash? && !a.Restart?
  }

  /** The change that an enabled action of the api process makes, and the handler that makes it. */
  ghost function ApiAction(s: State, a: Action): (Id, ApiDelta)
    requires Enabled(s, a) && OfApi(a)
  {
    match a
    case Receive(b, e, account, bridge, status, key) =>
      var event := Event(account, bridge, status);
      (b, QUIET.(event := Some((e, event)), entry := Some(EventEntry(e, event, MReceived)),
                 actor := Some(Ingesting(e, status, key))))
    case StepActor(b, i) => (b, NextApiDelta(s, b, i))
    case LoseActor(b) => (b, QUIET)
    case DropEvent(b, e) => (b, Resolve(s, e, Dropped, None))
    case MapEvent(b, e) => (b, Resolve(s, e, Healed, Some(FromOperator)))
    case ReadReplay(b, j) => (b, QUIET.(actor := Some(Replaying(j))))
  }

  /** The recovery claim: the row becomes `delivering` and an entry goes into the queue. */
  function ClaimJob(s: State, r: Id, j: Id): State
    requires j in s.jobs
  {
    var t := s.jobs[j];
    s.(runs := s.runs[r := WorkerRun(j, t.row.event, t.row.bridge, t.row.key, false, t.row.attempts, Waiting)],
       jobs := s.jobs[j := Tracked(t.row.(status := Delivering), t.past.(claims := t.past.claims + 1))])
  }

  /** Time passes, or the worker process starts again, its runs lost one by one before, with an empty table. */
  function Idle(s: State, seconds: nat, memory: ClaimTable.Claims): State {
    s.(now := s.now + seconds, memory := memory)
  }

  /** A lost run leaves every row as it was. */
  function LoseRun(s: State, r: Id): State
    requires r in s.runs && s.runs[r].job in s.jobs
  {
    var j := s.runs[r].job;
    var t := s.jobs[j];
    s.(runs := s.runs - {r}, jobs := s.jobs[j := t.(past := t.past.(crashes := t.past.crashes + 1))])
  }

  ghost function Do(backoff: seq<int>, s: State, a: Action): State
    requires Enabled(s, a)
  {
    match a
    case Tick(seconds) => Idle(s, seconds, s.memory)
    case Claim(r, j) => ClaimJob(s, r, j)
    case StepRun(r, i) => RunStep(backoff, s, r, i)
    case Crash(r) => LoseRun(s, r)
    case Restart => Idle(s, 0, map[])
    case _ => var (b, d) := ApiAction(s, a); ApplyApi(s, b, d)
  }

  /** Every interleaving is a sequence of actions; one that is not enabled does nothing. */
  ghost function Run(backoff: seq<int>, actions: seq<Action>): State {
    if |actions| == 0 then INITIAL
    else
      var s, a := Run(backoff, actions[..|actions| - 1]), actions[|actions| - 1];
      if Enabled(s, a) then Do(backoff, s, a) else s
  }
}
