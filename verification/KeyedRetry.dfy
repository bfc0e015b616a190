/**
  Two runs in which a job with an idempotency key is blocked by its own claim: a retry within the day
  is stopped by the in-memory table, and one a day later by the claim row that has expired
  (core/queue_worker.py, lines 68-102, database/repository.py, lines 724-766).
 */
module KeyedRetry {
  import opened Dicts
  import opened Protocol
  import opened Outbound
  import opened Scenarios
  import ClaimTable
  import Ownership

  const KEY: string := "order-1"

  const SLOT: (nat, string) := (0, KEY)

  /** What the clocks of the worker process show, with an answer. */
  function At(clock: real, reading: int, response: Response): Input {
    Input(reading, clock, response, false, 0)
  }

  ghost predicate Stands(s: State, r: Id, pc: Pc) {
    && Underway(s, r) && s.runs[r].key == Some(KEY) && s.runs[r].bridge == 0 && s.runs[r].event == 0
    && !s.runs[r].isReplay && s.runs[r].pc == pc
  }

  /** From `s` to `s'` run `r` has claimed the job, begun and announced the attempt. */
  ghost predicate HasAnnounced(s: State, s': State, r: Id) {
    && 0 in s.jobs && Elsewhere(s, s') && Grows(s, s', [], []) && Stands(s', r, Announced)
    && var t, n := s.jobs[0], s.jobs[0].row.attempts + 1;
       var claimed := Tracked(t.row.(status := Delivering), t.past.(claims := t.past.claims + 1));
       && s'.runs == s.runs[r := WorkerRun(0, 0, 0, Some(KEY), false, n - 1, Announced)]
       && s'.jobs == s.jobs[0 := Taken(claimed, n, s.now)]
  }

  lemma Announces(backoff: seq<int>, actions: seq<Action>, r: Id, i: Input) returns (later: seq<Action>)
    requires Ownership.OrderlyRun(backoff, actions)
    requires var s := Run(backoff, actions);
      && r !in s.runs && Recoverable(s, 0) && 0 in s.events && s.jobs[0].row.event == 0
      && s.jobs[0].row.key == Some(KEY) && s.jobs[0].row.bridge == 0 && s.jobs[0].row.status != Delivering
    ensures HasAnnounced(Run(backoff, actions), Run(backoff, later), r)
    ensures Ownership.OrderlyRun(backoff, later) && actions <= later
  {
    var begun := Begun(backoff, actions, r);
    PlainStep(backoff, Run(backoff, begun), r, i);
    Snoc(backoff, begun, StepRun(r, i));
    later := begun + [StepRun(r, i)];
  }

  /** Only the run and the claims have changed. */
  ghost predicate OnlyClaimed(s: State, s': State, r: Id, pc: Pc)
    requires r in s.runs
  {
    && s'.runs == s.runs[r := s.runs[r].(pc := pc)]
    && s'.jobs == s.jobs && s'.events == s.events && s'.now == s.now && Grows(s, s', [], [])
  }

  /** The step of run `r` at the in-memory table. */
  lemma Gate(backoff: seq<int>, s: State, r: Id, i: Input)
    requires Stands(s, r, Announced)
    ensures var call, s' := ClaimTable.Call(Some(KEY), i.clock), RunStep(backoff, s, r, i);
      && OnlyClaimed(s, s', r, if ClaimTable.Grants(s.memory, call) then Gated else Suppressing)
      && s'.claims == s.claims && s'.memory == ClaimTable.After(s.memory, call)
  {
    assert s.jobs[s.runs[r].job := s.jobs[s.runs[r].job]] == s.jobs;
  }

  /** The select of run `r` when no claim row is live. */
  lemma Select(backoff: seq<int>, s: State, r: Id, i: Input)
    requires Stands(s, r, Gated) && (SLOT in s.claims ==> s.claims[SLOT].expires <= i.reading)
    ensures var s' := RunStep(backoff, s, r, i);
      OnlyClaimed(s, s', r, Missed(i.reading)) && s'.claims == s.claims && s'.memory == s.memory
  {
    assert s.jobs[s.runs[r].job := s.jobs[s.runs[r].job]] == s.jobs;
  }

  /** The insert of run `r`, refused when there is a row of the same key. */
  lemma Insert(backoff: seq<int>, s: State, r: Id, i: Input)
    requires r in s.runs && s.runs[r].pc.Missed? && Stands(s, r, s.runs[r].pc)
    ensures var t, s' := s.runs[r].pc.reading, RunStep(backoff, s, r, i);
      && OnlyClaimed(s, s', r, if SLOT in s.claims then Suppressing else Cleared) && s'.memory == s.memory
      && s'.claims == if SLOT in s.claims then s.claims
                      else TouchExpired(s.claims, t)[SLOT := ClaimRow(0, t + CLAIM_TTL)]
  {
    assert s.jobs[s.runs[r].job := s.jobs[s.runs[r].job]] == s.jobs;
  }

  /** Run `r` has asked the in-memory table, at a clock reading. */
  ghost predicate HasAsked(s: State, s': State, r: Id, clock: real)
    requires r in s.runs
  {
    var call := ClaimTable.Call(Some(KEY), clock);
    && OnlyClaimed(s, s', r, if ClaimTable.Grants(s.memory, call) then Gated else Suppressing)
    && s'.claims == s.claims && s'.memory == ClaimTable.After(s.memory, call)
  }

  lemma Asking(backoff: seq<int>, actions: seq<Action>, r: Id, i: Input) returns (later: seq<Action>)
    requires Stands(Run(backoff, actions), r, Announced)
    ensures HasAsked(Run(backoff, actions), Run(backoff, later), r, i.clock)
    ensures Ownership.OrderlyRun(backoff, actions) ==> Ownership.OrderlyRun(backoff, later)
    ensures actions <= later
  {
    Gate(backoff, Run(backoff, actions), r, i);
    Snoc(backoff, actions, StepRun(r, i));
    later := actions + [StepRun(r, i)];
  }

  /** Run `r` has asked the claim rows, when none of its key was live. */
  ghost predicate HasInserted(s: State, s': State, r: Id, reading: int)
    requires r in s.runs
  {
    && OnlyClaimed(s, s', r, if SLOT in s.claims then Suppressing else Cleared) && s'.memory == s.memory
    && s'.claims == if SLOT in s.claims then s.claims
                    else TouchExpired(s.claims, reading)[SLOT := ClaimRow(0, reading + CLAIM_TTL)]
  }

  lemma Inserting(backoff: seq<int>, actions: seq<Action>, r: Id, i: Input) returns (later: seq<Action>)
    requires var s := Run(backoff, actions);
      Stands(s, r, Gated) && (SLOT in s.claims ==> s.claims[SLOT].expires <= i.reading)
    ensures HasInserted(Run(backoff, actions), Run(backoff, later), r, i.reading)
    ensures Ownership.OrderlyRun(backoff, actions) ==> Ownership.OrderlyRun(backoff, later)
    ensures actions <= later
  {
    Select(backoff, Run(backoff, actions), r, i);
    Snoc(backoff, actions, StepRun(r, i));
    later := actions + [StepRun(r, i)];
    Insert(backoff, Run(backoff, later), r, i);
    Snoc(backoff, later, StepRun(r, i));
    later := later + [StepRun(r, i)];
  }

  /** A duplicate marks the event and then the job, and the run is over. */
  ghost predicate HasSuppressed(s: State, s': State, r: Id) {
    && Stands(s, r, Suppressing)
    && s'.runs == s.runs - {r} && s'.now == s.now && s'.claims == s.claims && s'.memory == s.memory
    && s'.jobs == s.jobs[s.runs[r].job := BlockedJob(s.jobs[s.runs[r].job])]
    && s'.events == s.events[0 := s.events[0].(status := IdempotencyBlocked)]
    && Grows(s, s', [], [])
  }

  lemma Suppression(backoff: seq<int>, actions: seq<Action>, r: Id) returns (later: seq<Action>)
    requires Stands(Run(backoff, actions), r, Suppressing)
    ensures HasSuppressed(Run(backoff, actions), Run(backoff, later), r)
    ensures Ownership.OrderlyRun(backoff, actions) ==> Ownership.OrderlyRun(backoff, later)
    ensures actions <= later
  {
    var i := Reply(None);
    Snoc(backoff, actions, StepRun(r, i));
    later := actions + [StepRun(r, i)];
    Snoc(backoff, later, StepRun(r, i));
    later := later + [StepRun(r, i)];
  }

  /** One event, one job, no run, and one request with one attempt row, answered by `response`. */
  ghost predicate OneAttempt(s: State, response: Response) {
    && s.runs == map[] && s.events.Keys == {0} && s.jobs.Keys == {0}
    && s.jobs[0].row.key == Some(KEY) && s.jobs[0].past.crashes == 0
    && s.sends == [Send(0, 0, 0, Some(KEY))] && s.attempts == [Attempt(0, 1, false, response)]
  }

  /** After the first attempt: the job is due for a retry in a minute, and both tables hold its key. */
  ghost predicate Retryable(s: State, response: Response) {
    && OneAttempt(s, response) && s.now == 0
    && s.claims == map[SLOT := ClaimRow(0, CLAIM_TTL)] && s.memory == map[KEY := ClaimTable.TTL]
    && s.jobs[0].row == Job(0, 0, 0, Some(KEY), None, 0, Retrying, 1, 60, 0)
  }

  /** The first attempt has passed both claims and is about to send. */
  ghost predicate Authorized(s: State) {
    && Stands(s, 0, Cleared) && s.runs == map[0 := WorkerRun(0, 0, 0, Some(KEY), false, 0, Cleared)] && s.now == 0
    && s.events.Keys == {0} && s.jobs.Keys == {0} && s.sends == [] && s.attempts == []
    && s.claims == map[SLOT := ClaimRow(0, CLAIM_TTL)] && s.memory == map[KEY := ClaimTable.TTL]
    && s.jobs[0].row == Job(0, 0, 0, Some(KEY), None, 0, Delivering, 1, 0, 0) && s.jobs[0].past.crashes == 0
  }

  /** What `Ingested` leaves behind. */
  ghost predicate Fresh(s: State) {
    && s.runs == map[] && s.now == 0 && s.events.Keys == {0} && s.claims == map[] && s.memory == map[]
    && s.sends == [] && s.attempts == []
    && s.jobs == map[0 := Tracked(Job(0, 0, 0, Some(KEY), None, 0, Queued, 0, 0, 0), Past(0, 0, [], [], None))]
  }

  lemma AuthorizedInThree(f: State, n: State, a: State, s: State)
    requires Fresh(f) && HasAnnounced(f, n, 0) && HasAsked(n, a, 0, 0.0) && HasInserted(a, s, 0, 0)
    ensures Authorized(s)
  {
  }

  lemma Authorization(backoff: seq<int>) returns (actions: seq<Action>)
    ensures Authorized(Run(backoff, actions)) && Ownership.OrderlyRun(backoff, actions)
  {
    var i := At(0.0, 0, None);
    var ingested := Ingested(backoff, Some(KEY));
    var announced := Announces(backoff, ingested, 0, i);
    var asked := Asking(backoff, announced, 0, i);
    actions := Inserting(backoff, asked, 0, i);
    AuthorizedInThree(Run(backoff, ingested), Run(backoff, announced), Run(backoff, asked), Run(backoff, actions));
  }

  lemma SettledAfterAnswer(s: State, a: State, b: State, response: Response)
    requires Authorized(s) && Answered(s, a, 0, response) && IsRetryable(response)
    requires HasSettled(DEFAULT_BACKOFF, a, b, 0)
    ensures b.runs == map[0 := WorkerRun(0, 0, 0, Some(KEY), false, 0, Settled(Retrying))]
    ensures Retryable(b.(runs := map[]), response)
  {
  }

  /** The first attempt fails in a way that is worth a retry. */
  lemma FirstAttempt(response: Response) returns (actions: seq<Action>)
    requires IsRetryable(response)
    ensures Retryable(Run(DEFAULT_BACKOFF, actions), response) && Ownership.OrderlyRun(DEFAULT_BACKOFF, actions)
  {
    var backoff := DEFAULT_BACKOFF;
    var authorized := Authorization(backoff);
    var answered := ReachAnswer(backoff, authorized, 0, At(0.0, 0, response));
    var settled := Settling(backoff, answered, 0);
    SettledAfterAnswer(Run(backoff, authorized), Run(backoff, answered), Run(backoff, settled), response);
    actions := ClosedBy(backoff, settled, 0);
  }

  /** The retry has been announced, `seconds` after the first attempt. */
  ghost predicate Retried(f: State, s: State, seconds: nat) {
    && Stands(s, 1, Announced) && s.runs == map[1 := WorkerRun(0, 0, 0, Some(KEY), false, 1, Announced)]
    && s.jobs.Keys == {0} && s.jobs[0].past.crashes == 0 && s.jobs[0].row.key == Some(KEY)
    && s.events.Keys == {0} && s.now == seconds && s.claims == f.claims && s.memory == f.memory
    && Grows(f, s, [], [])
  }

  lemma SecondAttempt(first: seq<Action>, seconds: nat, i: Input, response: Response) returns (later: seq<Action>)
    requires Retryable(Run(DEFAULT_BACKOFF, first), response) && 60 <= seconds
    requires Ownership.OrderlyRun(DEFAULT_BACKOFF, first)
    ensures Retried(Run(DEFAULT_BACKOFF, first), Run(DEFAULT_BACKOFF, later), seconds)
    ensures Ownership.OrderlyRun(DEFAULT_BACKOFF, later) && first <= later
  {
    Snoc(DEFAULT_BACKOFF, first, Tick(seconds));
    later := first + [Tick(seconds)];
    later := Announces(DEFAULT_BACKOFF, later, 1, i);
  }

  /** The retry has been found to be a duplicate. */
  ghost predicate Stopped(f: State, s: State, seconds: nat) {
    && Stands(s, 1, Suppressing) && s.runs.Keys == {1} && s.runs[1].job == 0
    && s.jobs.Keys == {0} && s.jobs[0].past.crashes == 0 && s.jobs[0].row.key == Some(KEY)
    && s.events.Keys == {0} && s.now == seconds && Grows(f, s, [], []) && s.claims == f.claims
  }

  lemma StoppedByTable(f: State, t: State, s: State)
    requires f.memory == map[KEY := ClaimTable.TTL] && Retried(f, t, 60) && HasAsked(t, s, 1, 60.0)
    ensures Stopped(f, s, 60) && s.memory == f.memory
  {
  }

  lemma StoppedByRow(f: State, t: State, a: State, s: State)
    requires f.memory == map[KEY := ClaimTable.TTL] && SLOT in f.claims
    requires Retried(f, t, 90000) && HasAsked(t, a, 1, 90000.0) && HasInserted(a, s, 1, 90000)
    ensures Stopped(f, s, 90000) && s.memory == map[KEY := 90000.0 + ClaimTable.TTL]
  {
  }

  /** A minute later the table in memory stops the retry. */
  lemma StopAtTable(first: seq<Action>, response: Response) returns (later: seq<Action>)
    requires Retryable(Run(DEFAULT_BACKOFF, first), response) && Ownership.OrderlyRun(DEFAULT_BACKOFF, first)
    ensures var f, s := Run(DEFAULT_BACKOFF, first), Run(DEFAULT_BACKOFF, later);
      Stopped(f, s, 60) && s.memory == f.memory
    ensures Ownership.OrderlyRun(DEFAULT_BACKOFF, later) && first <= later
  {
    var i := At(60.0, 60, None);
    var retried := SecondAttempt(first, 60, i, response);
    later := Asking(DEFAULT_BACKOFF, retried, 1, i);
    StoppedByTable(Run(DEFAULT_BACKOFF, first), Run(DEFAULT_BACKOFF, retried), Run(DEFAULT_BACKOFF, later));
  }

  /** More than a day later the table in memory lets the retry pass, and the insert of the claim row stops it. */
  lemma StopAtRow(first: seq<Action>, response: Response) returns (later: seq<Action>)
    requires Retryable(Run(DEFAULT_BACKOFF, first), response) && Ownership.OrderlyRun(DEFAULT_BACKOFF, first)
    ensures var f, s := Run(DEFAULT_BACKOFF, first), Run(DEFAULT_BACKOFF, later);
      Stopped(f, s, 90000) && s.memory == map[KEY := 90000.0 + ClaimTable.TTL]
    ensures Ownership.OrderlyRun(DEFAULT_BACKOFF, later) && first <= later
  {
    var i := At(90000.0, 90000, None);
    var retried := SecondAttempt(first, 90000, i, response);
    var asked := Asking(DEFAULT_BACKOFF, retried, 1, i);
    later := Inserting(DEFAULT_BACKOFF, asked, 1, i);
    StoppedByRow(Run(DEFAULT_BACKOFF, first), Run(DEFAULT_BACKOFF, retried), Run(DEFAULT_BACKOFF, asked),
                 Run(DEFAULT_BACKOFF, later));
  }

  /** The job and its event are blocked for good, with no request beyond that of the first attempt. */
  ghost predicate BlockedForGood(s: State, response: Response) {
    && OneAttempt(s, response)
    && s.jobs[0].row.status == Blocked && s.events[0].status == IdempotencyBlocked
  }

  lemma EndsBlocked(f: State, m: State, s: State, seconds: nat, response: Response)
    requires Retryable(f, response) && Stopped(f, m, seconds) && HasSuppressed(m, s, 1)
    ensures BlockedForGood(s, response) && s.now == seconds && s.claims == f.claims && s.memory == m.memory
  {
  }

  /**
    The first request is answered 503, which makes the job due for a retry.  A minute later the retry
    is suppressed by the table in memory, which still holds the key that the first attempt claimed:
    the table is as the first attempt left it, and the claim row is a day from expiry.
   */
  lemma RetryIsBlocked() returns (first: seq<Action>, actions: seq<Action>)
    ensures first <= actions && Ownership.OrderlyRun(DEFAULT_BACKOFF, actions)
    ensures Retryable(Run(DEFAULT_BACKOFF, first), Some(503))
    ensures var s := Run(DEFAULT_BACKOFF, actions);
      && BlockedForGood(s, Some(503)) && s.now == 60
      && s.memory == map[KEY := 86400.0] && s.claims == map[SLOT := ClaimRow(0, 86400)]
  {
    first := FirstAttempt(Some(503));
    var stopped := StopAtTable(first, Some(503));
    actions := Suppression(DEFAULT_BACKOFF, stopped, 1);
    EndsBlocked(Run(DEFAULT_BACKOFF, first), Run(DEFAULT_BACKOFF, stopped), Run(DEFAULT_BACKOFF, actions), 60,
                Some(503));
  }

  /**
    The first request gets no answer, and the worker comes back to the job more than a day later.
    The table in memory grants the key again, as its new entry shows; but the claim row, which has
    expired and names this very event, makes the insert fail.
   */
  lemma ExpiredClaimBlocksItsOwnEvent() returns (first: seq<Action>, actions: seq<Action>)
    ensures first <= actions && Ownership.OrderlyRun(DEFAULT_BACKOFF, actions)
    ensures Retryable(Run(DEFAULT_BACKOFF, first), None)
    ensures var s := Run(DEFAULT_BACKOFF, actions);
      && BlockedForGood(s, None) && s.now == 90000
      && s.memory == map[KEY := 176400.0]
      && s.claims == map[SLOT := ClaimRow(0, 86400)] && s.claims[SLOT].expires < s.now
  {
    first := FirstAttempt(None);
    var stopped := StopAtRow(first, None);
    actions := Suppression(DEFAULT_BACKOFF, stopped, 1);
    EndsBlocked(Run(DEFAULT_BACKOFF, first), Run(DEFAULT_BACKOFF, stopped), Run(DEFAULT_BACKOFF, actions), 90000, None);
  }
}
