/**
  The worker run as the straight-line program it is (`_run_job_on_loop`, core/queue_worker.py,
  lines 64-168), over the tables of the database and the in-memory claims, and proved to do what
  the steps of the protocol do when nothing comes in between.
 */
module DeliveryWorker {
  import opened Dicts
  import opened Outbound
  import opened Protocol
  import ClaimTable

  function Rows(jobs: map<Id, Tracked>): map<Id, Job> {
    map j | j in jobs :: jobs[j].row
  }

  lemma RowsPut(jobs: map<Id, Tracked>, j: Id, t: Tracked)
    ensures Rows(jobs[j := t]) == Rows(jobs)[j := t.row]
    ensures j in jobs && jobs[j].row == t.row ==> Rows(jobs[j := t]) == Rows(jobs)
    ensures j in jobs && jobs[j] == t ==> jobs[j := t] == jobs
  {
  }

  /** What runs on its own: run `r`, with a policy and with the answers of its environment. */
  datatype Solo = Solo(backoff: seq<int>, r: Id, i: Input)

  ghost predicate Moves(solo: Solo, trace: seq<State>, x: nat)
    requires x + 1 < |trace|
  {
    CanStep(trace[x], solo.r) && trace[x + 1] == RunStep(solo.backoff, trace[x], solo.r, solo.i)
  }

  /** The steps of the run lead from `s` to `s'` along the trace. */
  ghost predicate Leads(solo: Solo, trace: seq<State>, s: State, s': State) {
    && |trace| > 0 && trace[0] == s && trace[|trace| - 1] == s'
    && forall x {:trigger Moves(solo, trace, x)} :: 0 <= x < |trace| - 1 ==> Moves(solo, trace, x)
  }

  lemma OneMove(solo: Solo, s: State)
    requires CanStep(s, solo.r)
    ensures Leads(solo, [s, RunStep(solo.backoff, s, solo.r, solo.i)], s, RunStep(solo.backoff, s, solo.r, solo.i))
  {
  }

  function Join(first: seq<State>, second: seq<State>): seq<State>
    requires |second| > 0
  {
    first + second[1..]
  }

  lemma JoinLeads(solo: Solo, first: seq<State>, second: seq<State>, s: State, m: State, s': State)
    requires Leads(solo, first, s, m) && Leads(solo, second, m, s')
    ensures Leads(solo, Join(first, second), s, s') && |Join(first, second)| == |first| + |second| - 1
  {
    var trace := Join(first, second);
    forall x: nat | x < |trace| - 1 ensures Moves(solo, trace, x) {
      if x < |first| - 1 {
        assert Moves(solo, first, x);
      } else {
        assert Moves(solo, second, x - (|first| - 1));
      }
    }
  }

  /** The select of a durable claim and, when it finds nothing, the insert. */
  lemma ClaimMoves(solo: Solo, s: State) returns (trace: seq<State>, s': State)
    requires CanStep(s, solo.r) && s.runs[solo.r].pc == Gated
    ensures Leads(solo, trace, s, s') && |trace| <= 3 && CanStep(s', solo.r)
    ensures s'.now == s.now && s'.events == s.events && s'.jobs == s.jobs && s'.attempts == s.attempts
    ensures s'.ledger == s.ledger && s'.memory == s.memory
    ensures var run := s.runs[solo.r];
      if !ClaimTable.Keyed(run.key) then s'.claims == s.claims && s'.runs[solo.r] == run.(pc := Cleared)
      else
        var slot := (run.bridge, run.key.value);
        var granted := slot !in s.claims ||
                       (s.claims[slot].expires > solo.i.reading && s.claims[slot].event == run.event);
        var row := ClaimRow(run.event, solo.i.reading + CLAIM_TTL);
        && s'.claims == (if slot in s.claims then s.claims else TouchExpired(s.claims, solo.i.reading)[slot := row])
        && s'.runs[solo.r] == run.(pc := if granted then Cleared else Suppressing)
  {
    RowsPut(s.jobs, s.runs[solo.r].job, s.jobs[s.runs[solo.r].job]);
    OneMove(solo, s);
    s' := RunStep(solo.backoff, s, solo.r, solo.i);
    trace := [s, s'];
    if s'.runs[solo.r].pc.Missed? {
      var m := s';
      OneMove(solo, m);
      s' := RunStep(solo.backoff, m, solo.r, solo.i);
      JoinLeads(solo, trace, [m, s'], s, m, s');
      trace := Join(trace, [m, s']);
    }
  }

  /** The step that settles an attempt. */
  lemma SettleMoves(solo: Solo, s: State)
    requires CanStep(s, solo.r) && s.runs[solo.r].pc.Touched?
    ensures var run, s' := s.runs[solo.r], RunStep(solo.backoff, s, solo.r, solo.i);
      var n := run.attempts + 1;
      var final := Outcome(solo.backoff, n, run.pc.response);
      && s' == s.(runs := s.runs[solo.r := run.(pc := Settled(final))],
                  jobs := s.jobs[run.job := Finished(solo.backoff, s.jobs[run.job], n, s.now, final)])
  {
  }

  class Database {
    var events: map<Id, Event>
    var jobs: map<Id, Job>
    var attempts: seq<Attempt>
    var ledger: seq<LedgerEntry>
    var claims: map<(nat, string), ClaimRow>
    const registry: ClaimTable.ClaimRegistry

    /** An empty database and a fresh process. */
    constructor ()
      ensures Shows(INITIAL) && fresh(registry)
    {
      events, jobs, attempts, ledger, claims := map[], map[], [], [], map[];
      registry := new ClaimTable.ClaimRegistry();
    }

    /** The tables are those of the state. */
    ghost predicate Shows(s: State)
      reads this, registry
    {
      && events == s.events && jobs == Rows(s.jobs) && attempts == s.attempts && ledger == s.ledger
      && claims == s.claims && registry.claims == s.memory
    }

    /** The tables show a state in which the run of `entry` stands at `pc`. */
    ghost predicate Stands(solo: Solo, s: State, entry: WorkerRun, pc: Pc)
      reads this, registry
    {
      Shows(s) && CanStep(s, solo.r) && s.runs[solo.r] == entry.(pc := pc)
    }

    /** The tables show a state in which the run is over. */
    ghost predicate Over(solo: Solo, s: State)
      reads this, registry
    {
      Shows(s) && solo.r !in s.runs
    }

    // -------------------------------------------------------------- transactions

    method UpdateDeliveryJob(j: Id, status: JobStatus, count: nat, next: Option<int>)
      modifies this`jobs
      ensures jobs == if j !in old(jobs) then old(jobs)
        else old(jobs)[j := old(jobs)[j].(status := status, attempts := count,
                            nextAttempt := if next.Some? then next.value else old(jobs)[j].nextAttempt)]
    {
      if j in jobs {
        var row := jobs[j].(status := status, attempts := count);
        if next.Some? {
          row := row.(nextAttempt := next.value);
        }
        jobs := jobs[j := row];
      }
    }

    method AppendJobLifecycle(j: Id, mark: Mark, attempt: Option<nat>)
      modifies this`ledger
      ensures ledger == if j in jobs
        then old(ledger) + [LedgerEntry(jobs[j].event, Some(j), jobs[j].account, jobs[j].bridge, mark, attempt)]
        else old(ledger)
    {
      if j in jobs {
        ledger := ledger + [LedgerEntry(jobs[j].event, Some(j), jobs[j].account, jobs[j].bridge, mark, attempt)];
      }
    }

    method RecordDeliveryAttempt(j: Id, number: nat, response: Response)
      modifies this`attempts
      ensures attempts == old(attempts) + [Attempt(j, number, Succeeded(response), response)]
    {
      attempts := attempts + [Attempt(j, number, Succeeded(response), response)];
    }

    /** `mark_delivery_failed` and `mark_idempotency_blocked`. */
    method MarkEvent(e: Id, status: EventStatus)
      modifies this`events
      ensures events == if e in old(events) then old(events)[e := old(events)[e].(status := status)] else old(events)
    {
      if e in events {
        events := events[e := events[e].(status := status)];
      }
    }

    method ClaimIdempotencyKey(bridge: nat, event: Id, key: string, reading: int) returns (granted: bool)
      modifies this`claims
      ensures granted <==> ((bridge, key) !in old(claims) ||
                            (old(claims)[(bridge, key)].expires > reading && old(claims)[(bridge, key)].event == event))
      ensures claims == if (bridge, key) in old(claims) then old(claims)
                        else TouchExpired(old(claims), reading)[(bridge, key) := ClaimRow(event, reading + CLAIM_TTL)]
    {
      if (bridge, key) in claims && claims[(bridge, key)].expires > reading {
        return claims[(bridge, key)].event == event;
      }
      var touched := TouchExpired(claims, reading);
      if (bridge, key) in touched {
        return false;
      }
      claims := touched[(bridge, key) := ClaimRow(event, reading + CLAIM_TTL)];
      return true;
    }

    // -------------------------------------------------------------- the run

    /** One queue entry from start to end, in at most thirteen steps of the protocol. */
    method RunJob(entry: WorkerRun, now: int, solo: Solo, ghost s: State)
      returns (ghost trace: seq<State>, ghost s': State)
      requires Stands(solo, s, entry, Waiting) && s.now == now
      modifies this, registry
      ensures Over(solo, s') && Leads(solo, trace, s, s') && |trace| <= 14
    {
      ghost var m: State;
      trace, m := Begin(entry, solo, s);
      ghost var rest;
      rest, s' := ClaimAndDeliver(entry, now, solo, m);
      JoinLeads(solo, trace, rest, s, m, s');
      trace := Join(trace, rest);
    }

    method Begin(entry: WorkerRun, solo: Solo, ghost s: State) returns (ghost trace: seq<State>, ghost s': State)
      requires Stands(solo, s, entry, Waiting)
      modifies this`jobs, this`ledger
      ensures Stands(solo, s', entry, Announced) && Leads(solo, trace, s, s') && |trace| == 3 && s'.now == s.now
    {
      ghost var m: State;
      trace, m := TakeJob(entry, solo, s);
      AppendJobLifecycle(entry.job, MDelivering, None);
      RowsPut(m.jobs, entry.job, m.jobs[entry.job]);
      OneMove(solo, m);
      s' := RunStep(solo.backoff, m, solo.r, solo.i);
      JoinLeads(solo, trace, [m, s'], s, m, s');
      trace := Join(trace, [m, s']);
    }

    method TakeJob(entry: WorkerRun, solo: Solo, ghost s: State) returns (ghost trace: seq<State>, ghost s': State)
      requires Stands(solo, s, entry, Waiting)
      modifies this`jobs
      ensures Stands(solo, s', entry, Started) && Leads(solo, trace, s, s') && |trace| == 2 && s'.now == s.now
    {
      UpdateDeliveryJob(entry.job, Delivering, entry.attempts + 1, None);
      RowsPut(s.jobs, entry.job, Taken(s.jobs[entry.job], entry.attempts + 1, s.now));
      OneMove(solo, s);
      s' := RunStep(solo.backoff, s, solo.r, solo.i);
      trace := [s, s'];
    }

    method ClaimAndDeliver(entry: WorkerRun, now: int, solo: Solo, ghost s: State)
      returns (ghost trace: seq<State>, ghost s': State)
      requires Stands(solo, s, entry, Announced) && s.now == now
      modifies this, registry
      ensures Over(solo, s') && Leads(solo, trace, s, s') && |trace| <= 12
    {
      var passed;
      ghost var m: State;
      passed, trace, m := PassGate(entry, solo, s);
      ghost var rest;
      if passed {
        rest, s' := AuthorizeAndDeliver(entry, now, solo, m);
      } else {
        rest, s' := Suppress(entry, solo, m);
      }
      JoinLeads(solo, trace, rest, s, m, s');
      trace := Join(trace, rest);
    }

    /** The in-memory claim; entries without a key and replays skip it. */
    method PassGate(entry: WorkerRun, solo: Solo, ghost s: State)
      returns (passed: bool, ghost trace: seq<State>, ghost s': State)
      requires Stands(solo, s, entry, Announced)
      modifies registry
      ensures Stands(solo, s', entry, if passed then Gated else Suppressing)
      ensures Leads(solo, trace, s, s') && |trace| == 2 && s'.now == s.now
    {
      passed := true;
      if ClaimTable.Keyed(entry.key) && !entry.isReplay {
        passed := registry.Claim(entry.key, solo.i.clock);
      }
      RowsPut(s.jobs, entry.job, s.jobs[entry.job]);
      OneMove(solo, s);
      s' := RunStep(solo.backoff, s, solo.r, solo.i);
      trace := [s, s'];
    }

    method AuthorizeAndDeliver(entry: WorkerRun, now: int, solo: Solo, ghost s: State)
      returns (ghost trace: seq<State>, ghost s': State)
      requires Stands(solo, s, entry, Gated) && s.now == now
      modifies this, registry
      ensures Over(solo, s') && Leads(solo, trace, s, s') && |trace| <= 11
    {
      var granted;
      ghost var m: State;
      granted, trace, m := Authorize(entry, solo, s);
      ghost var rest;
      if granted {
        rest, s' := Deliver(entry, now, solo, m);
      } else {
        rest, s' := Suppress(entry, solo, m);
      }
      JoinLeads(solo, trace, rest, s, m, s');
      trace := Join(trace, rest);
    }

    /** The durable claim; entries without a key need none. */
    method Authorize(entry: WorkerRun, solo: Solo, ghost s: State)
      returns (granted: bool, ghost trace: seq<State>, ghost s': State)
      requires Stands(solo, s, entry, Gated)
      modifies this`claims
      ensures Stands(solo, s', entry, if granted then Cleared else Suppressing)
      ensures Leads(solo, trace, s, s') && |trace| <= 3 && s'.now == s.now
    {
      granted := true;
      if ClaimTable.Keyed(entry.key) {
        granted := ClaimIdempotencyKey(entry.bridge, entry.event, entry.key.value, solo.i.reading);
      }
      trace, s' := ClaimMoves(solo, s);
    }

    /** A duplicate: the event and the job are marked, and nothing is sent. */
    method Suppress(entry: WorkerRun, solo: Solo, ghost s: State) returns (ghost trace: seq<State>, ghost s': State)
      requires Stands(solo, s, entry, Suppressing)
      modifies this`events, this`jobs
      ensures Over(solo, s') && Leads(solo, trace, s, s') && |trace| == 3
    {
      ghost var m: State;
      trace, m := BlockEvent(entry, solo, s);
      UpdateDeliveryJob(entry.job, Blocked, 1, None);
      RowsPut(m.jobs, entry.job, BlockedJob(m.jobs[entry.job]));
      OneMove(solo, m);
      s' := RunStep(solo.backoff, m, solo.r, solo.i);
      JoinLeads(solo, trace, [m, s'], s, m, s');
      trace := Join(trace, [m, s']);
    }

    method BlockEvent(entry: WorkerRun, solo: Solo, ghost s: State) returns (ghost trace: seq<State>, ghost s': State)
      requires Stands(solo, s, entry, Suppressing)
      modifies this`events
      ensures Stands(solo, s', entry, Suppressed) && Leads(solo, trace, s, s') && |trace| == 2
    {
      MarkEvent(entry.event, IdempotencyBlocked);
      RowsPut(s.jobs, entry.job, s.jobs[entry.job]);
      OneMove(solo, s);
      s' := RunStep(solo.backoff, s, solo.r, solo.i);
      trace := [s, s'];
    }

    /** The HTTP call and everything that follows from its answer. */
    method Deliver(entry: WorkerRun, now: int, solo: Solo, ghost s: State)
      returns (ghost trace: seq<State>, ghost s': State)
      requires Stands(solo, s, entry, Cleared) && s.now == now
      modifies this`events, this`jobs, this`ledger, this`attempts
      ensures Over(solo, s') && Leads(solo, trace, s, s') && |trace| <= 9
    {
      ghost var m, recorded: State;
      trace, m := Post(entry, solo, s);
      ghost var next;
      next, recorded := RecordAttempt(entry, solo.i.response, solo, m);
      JoinLeads(solo, trace, next, s, m, recorded);
      trace := Join(trace, next);
      next, s' := Conclude(entry, solo.i.response, now, solo, recorded);
      JoinLeads(solo, trace, next, s, recorded, s');
      trace := Join(trace, next);
    }

    /** The request itself leaves the tables alone. */
    ghost method Post(entry: WorkerRun, solo: Solo, s: State) returns (trace: seq<State>, s': State)
      requires Stands(solo, s, entry, Cleared)
      ensures Stands(solo, s', entry, Sent(solo.i.response)) && Leads(solo, trace, s, s') && |trace| == 2
      ensures s'.now == s.now
    {
      RowsPut(s.jobs, entry.job, s.jobs[entry.job]);
      OneMove(solo, s);
      s' := RunStep(solo.backoff, s, solo.r, solo.i);
      trace := [s, s'];
    }

    /** The callback of the HTTP call: attempt row, two ledger entries, and the row again. */
    method RecordAttempt(entry: WorkerRun, response: Response, solo: Solo, ghost s: State)
      returns (ghost trace: seq<State>, ghost s': State)
      requires Stands(solo, s, entry, Sent(response))
      modifies this`attempts, this`ledger, this`jobs
      ensures Stands(solo, s', entry, Touched(response)) && Leads(solo, trace, s, s') && |trace| == 5 && s'.now == s.now
    {
      ghost var next;
      ghost var a, b, c: State;
      trace, a := AddAttemptRow(entry, response, solo, s);
      next, b := LogAttempt(entry, response, solo, a);
      JoinLeads(solo, trace, next, s, a, b);
      trace := Join(trace, next);
      next, c := LogOutcome(entry, response, solo, b);
      JoinLeads(solo, trace, next, s, b, c);
      trace := Join(trace, next);
      next, s' := TouchRow(entry, response, solo, c);
      JoinLeads(solo, trace, next, s, c, s');
      trace := Join(trace, next);
    }

    method AddAttemptRow(entry: WorkerRun, response: Response, solo: Solo, ghost s: State)
      returns (ghost trace: seq<State>, ghost s': State)
      requires Stands(solo, s, entry, Sent(response))
      modifies this`attempts
      ensures Stands(solo, s', entry, Recorded(response)) && Leads(solo, trace, s, s') && |trace| == 2
      ensures s'.now == s.now
    {
      RecordDeliveryAttempt(entry.job, entry.attempts + 1, response);
      RowsPut(s.jobs, entry.job, s.jobs[entry.job]);
      OneMove(solo, s);
      s' := RunStep(solo.backoff, s, solo.r, solo.i);
      trace := [s, s'];
    }

    method LogAttempt(entry: WorkerRun, response: Response, solo: Solo, ghost s: State)
      returns (ghost trace: seq<State>, ghost s': State)
      requires Stands(solo, s, entry, Recorded(response))
      modifies this`ledger
      ensures Stands(solo, s', entry, Logged(response)) && Leads(solo, trace, s, s') && |trace| == 2 && s'.now == s.now
    {
      AppendJobLifecycle(entry.job, MAttempted, Some(entry.attempts + 1));
      RowsPut(s.jobs, entry.job, s.jobs[entry.job]);
      OneMove(solo, s);
      s' := RunStep(solo.backoff, s, solo.r, solo.i);
      trace := [s, s'];
    }

    method LogOutcome(entry: WorkerRun, response: Response, solo: Solo, ghost s: State)
      returns (ghost trace: seq<State>, ghost s': State)
      requires Stands(solo, s, entry, Logged(response))
      modifies this`ledger
      ensures Stands(solo, s', entry, Noted(response)) && Leads(solo, trace, s, s') && |trace| == 2 && s'.now == s.now
    {
      AppendJobLifecycle(entry.job, if Succeeded(response) then MDelivered else MRetrying, Some(entry.attempts + 1));
      RowsPut(s.jobs, entry.job, s.jobs[entry.job]);
      OneMove(solo, s);
      s' := RunStep(solo.backoff, s, solo.r, solo.i);
      trace := [s, s'];
    }

    method TouchRow(entry: WorkerRun, response: Response, solo: Solo, ghost s: State)
      returns (ghost trace: seq<State>, ghost s': State)
      requires Stands(solo, s, entry, Noted(response))
      modifies this`jobs
      ensures Stands(solo, s', entry, Touched(response)) && Leads(solo, trace, s, s') && |trace| == 2 && s'.now == s.now
    {
      var j, n := entry.job, entry.attempts + 1;
      UpdateDeliveryJob(j, Delivering, n, None);
      RowsPut(s.jobs, j, s.jobs[j].(row := s.jobs[j].row.(status := Delivering, attempts := n)));
      OneMove(solo, s);
      s' := RunStep(solo.backoff, s, solo.r, solo.i);
      trace := [s, s'];
    }

    /** The outcome: delivered, due again, or dead-lettered. */
    method Conclude(entry: WorkerRun, response: Response, now: int, solo: Solo, ghost s: State)
      returns (ghost trace: seq<State>, ghost s': State)
      requires Stands(solo, s, entry, Touched(response)) && s.now == now
      modifies this`events, this`jobs, this`ledger
      ensures Over(solo, s') && Leads(solo, trace, s, s') && |trace| <= 4
    {
      var finalStatus := DecideOutcome(solo.backoff, entry.attempts + 1, response);
      ghost var m: State;
      trace, m := Settle(entry, response, finalStatus, now, solo, s);
      ghost var next;
      if finalStatus == DeadLettered {
        ghost var marked: State;
        next, marked := MarkFailed(entry, solo, m);
        JoinLeads(solo, trace, next, s, m, marked);
        trace := Join(trace, next);
        m := marked;
      }
      next, s' := WriteClosing(entry, finalStatus, solo, m);
      JoinLeads(solo, trace, next, s, m, s');
      trace := Join(trace, next);
    }

    method DecideOutcome(backoff: seq<int>, n: nat, response: Response) returns (finalStatus: JobStatus)
      ensures finalStatus == Outcome(backoff, n, response)
    {
      if Succeeded(response) {
        finalStatus := Delivered;
      } else if IsRetryable(response) && n < |backoff| {
        finalStatus := Retrying;
      } else {
        finalStatus := DeadLettered;
      }
    }

    method Settle(entry: WorkerRun, response: Response, finalStatus: JobStatus, now: int, solo: Solo, ghost s: State)
      returns (ghost trace: seq<State>, ghost s': State)
      requires Stands(solo, s, entry, Touched(response)) && s.now == now
      requires finalStatus == Outcome(solo.backoff, entry.attempts + 1, response)
      modifies this`jobs
      ensures Stands(solo, s', entry, Settled(finalStatus)) && Leads(solo, trace, s, s') && |trace| == 2
    {
      var j, n := entry.job, entry.attempts + 1;
      var next := if finalStatus == Retrying then Some(now + solo.backoff[n]) else None;
      UpdateDeliveryJob(j, finalStatus, n, next);
      RowsPut(s.jobs, j, Finished(solo.backoff, s.jobs[j], n, now, finalStatus));
      OneMove(solo, s);
      SettleMoves(solo, s);
      s' := s.(runs := s.runs[solo.r := entry.(pc := Settled(finalStatus))],
               jobs := s.jobs[j := Finished(solo.backoff, s.jobs[j], n, now, finalStatus)]);
      trace := [s, s'];
    }

    method MarkFailed(entry: WorkerRun, solo: Solo, ghost s: State) returns (ghost trace: seq<State>, ghost s': State)
      requires Stands(solo, s, entry, Settled(DeadLettered))
      modifies this`events
      ensures Stands(solo, s', entry, Marked(DeadLettered)) && Leads(solo, trace, s, s') && |trace| == 2
    {
      MarkEvent(entry.event, DeliveryFailed);
      RowsPut(s.jobs, entry.job, s.jobs[entry.job]);
      OneMove(solo, s);
      s' := RunStep(solo.backoff, s, solo.r, solo.i);
      trace := [s, s'];
    }

    method WriteClosing(entry: WorkerRun, finalStatus: JobStatus, solo: Solo, ghost s: State)
      returns (ghost trace: seq<State>, ghost s': State)
      requires Stands(solo, s, entry, if finalStatus == DeadLettered then Marked(finalStatus) else Settled(finalStatus))
      modifies this`ledger
      ensures Over(solo, s') && Leads(solo, trace, s, s') && |trace| == 2
    {
      var j, n := entry.job, entry.attempts + 1;
      AppendJobLifecycle(j, MarkOf(finalStatus), None);
      RowsPut(s.jobs, j, s.jobs[j].(past := s.jobs[j].past.(closed := Some(Closing(n, finalStatus)))));
      OneMove(solo, s);
      s' := RunStep(solo.backoff, s, solo.r, solo.i);
      trace := [s, s'];
    }
  }
}
