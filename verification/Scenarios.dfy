/** Pieces of concrete runs: one event, one job, and the steps of the worker runs that deliver it. */
module Scenarios {
  import opened Dicts
  import opened Protocol
  import opened Outbound
  import Ownership

  lemma Snoc(backoff: seq<int>, actions: seq<Action>, a: Action)
    requires Enabled(Run(backoff, actions), a)
    ensures Run(backoff, actions + [a]) == Do(backoff, Run(backoff, actions), a)
    ensures Ownership.OrderlyRun(backoff, actions) && Ownership.Orderly(Run(backoff, actions), a) ==>
      Ownership.OrderlyRun(backoff, actions + [a])
  {
  }

  /** The steps between begin and outcome that depend on neither table of claims. */
  function PlainNext(pc: Pc, response: Response): Pc {
    match pc
    case Started => Announced
    case Announced => Gated
    case Gated => Cleared
    case Cleared => Sent(response)
    case Sent(x) => Recorded(x)
    case Recorded(x) => Logged(x)
    case Logged(x) => Noted(x)
    case Noted(x) => Touched(x)
    case _ => pc
  }

  function PlainStepsLeft(pc: Pc): nat {
    match pc
    case Started => 8
    case Announced => 7
    case Gated => 6
    case Cleared => 5
    case Sent(_) => 4
    case Recorded(_) => 3
    case Logged(_) => 2
    case Noted(_) => 1
    case _ => 0
  }

  /** Neither the events nor the claims nor the clock have moved. */
  ghost predicate Elsewhere(s: State, s': State) {
    s'.events == s.events && s'.now == s.now && s'.claims == s.claims && s'.memory == s.memory
  }

  /** The two states differ at most in what run `r` has recorded. */
  ghost predicate OnlyMoved(s: State, s': State, r: Id, pc: Pc)
    requires r in s.runs
  {
    s'.runs == s.runs[r := s.runs[r].(pc := pc)] && s'.jobs == s.jobs && Elsewhere(s, s')
  }

  ghost predicate Underway(s: State, r: Id) {
    && r in s.runs && s.runs[r].job in s.jobs && s.runs[r].event in s.events
    && var row := s.jobs[s.runs[r].job].row; row.status == Delivering && row.attempts == s.runs[r].attempts + 1
  }

  /** Without a key every step is plain; with one, those before the claims and those after them. */
  predicate IsPlain(run: WorkerRun) {
    run.key == None || run.pc.Started? || PlainStepsLeft(run.pc) <= 5
  }

  /** A step that leaves its job, the events and the claims alone. */
  predicate Moves(s: State, t: Tracked, d: Delta, pc: Pc) {
    d.pc == Some(pc) && d.job == t && d.eventStatus == None && d.claims == s.claims && d.memory == s.memory
  }

  lemma PlainDelta(backoff: seq<int>, s: State, r: Id, i: Input)
    requires Underway(s, r) && IsPlain(s.runs[r]) && PlainStepsLeft(s.runs[r].pc) > 0
    ensures Moves(s, s.jobs[s.runs[r].job], NextDelta(backoff, s, r, i), PlainNext(s.runs[r].pc, i.response))
  {
    var t := s.jobs[s.runs[r].job];
    assert t.(row := t.row.(status := Delivering, attempts := s.runs[r].attempts + 1)) == t;
  }

  lemma ApplyMoves(s: State, r: Id, d: Delta, pc: Pc)
    requires CanStep(s, r) && Moves(s, s.jobs[s.runs[r].job], d, pc)
    ensures OnlyMoved(s, Apply(s, r, d), r, pc)
  {
    assert s.jobs[s.runs[r].job := d.job] == s.jobs;
  }

  /** The request that a step of the run sends. */
  function SentBy(run: WorkerRun): seq<Send> {
    if run.pc.Cleared? then [Send(run.job, run.event, run.bridge, run.key)] else []
  }

  /** The attempt row that a step of the run writes. */
  function RecordedBy(run: WorkerRun): seq<Attempt> {
    if run.pc.Sent? then [Attempt(run.job, run.attempts + 1, Succeeded(run.pc.response), run.pc.response)] else []
  }

  /** What has been sent and recorded grows by this much. */
  ghost predicate Grows(s: State, s': State, sends: seq<Send>, attempts: seq<Attempt>) {
    s'.sends == s.sends + sends && s'.attempts == s.attempts + attempts
  }

  lemma PlainRecords(backoff: seq<int>, s: State, r: Id, i: Input)
    requires Underway(s, r) && IsPlain(s.runs[r]) && PlainStepsLeft(s.runs[r].pc) > 0
    ensures Grows(s, RunStep(backoff, s, r, i), SentBy(s.runs[r]), RecordedBy(s.runs[r]))
  {
  }

  lemma PlainStep(backoff: seq<int>, s: State, r: Id, i: Input)
    requires Underway(s, r) && IsPlain(s.runs[r]) && PlainStepsLeft(s.runs[r].pc) > 0
    ensures OnlyMoved(s, RunStep(backoff, s, r, i), r, PlainNext(s.runs[r].pc, i.response))
    ensures Grows(s, RunStep(backoff, s, r, i), SentBy(s.runs[r]), RecordedBy(s.runs[r]))
  {
    PlainDelta(backoff, s, r, i);
    ApplyMoves(s, r, NextDelta(backoff, s, r, i), PlainNext(s.runs[r].pc, i.response));
    PlainRecords(backoff, s, r, i);
  }

  /** Run `r` is between its begin, or its claims, and the answer `i.response`. */
  ghost predicate OnItsWay(s: State, r: Id, i: Input) {
    && Underway(s, r)
    && var run := s.runs[r];
       && (run.key == None || PlainStepsLeft(run.pc) <= 5)
       && (PlainStepsLeft(run.pc) > 0 || run.pc == Touched(i.response))
       && (PlainStepsLeft(run.pc) < 5 ==> run.pc.response == i.response)
  }

  /** The request that the run has yet to send, if it has not been sent. */
  function SendLeft(run: WorkerRun): seq<Send> {
    if PlainStepsLeft(run.pc) >= 5 then [Send(run.job, run.event, run.bridge, run.key)] else []
  }

  /** The attempt row that the run has yet to write, if it has not been written. */
  function AttemptLeft(run: WorkerRun, response: Response): seq<Attempt> {
    if PlainStepsLeft(run.pc) >= 4 then [Attempt(run.job, run.attempts + 1, Succeeded(response), response)] else []
  }

  /** From `s` to `s'` run `r` has come to its answer. */
  ghost predicate Answered(s: State, s': State, r: Id, response: Response)
    requires r in s.runs
  {
    && OnlyMoved(s, s', r, Touched(response))
    && Grows(s, s', SendLeft(s.runs[r]), AttemptLeft(s.runs[r], response))
  }

  lemma PlainStepOnItsWay(backoff: seq<int>, s: State, r: Id, i: Input)
    requires OnItsWay(s, r, i) && PlainStepsLeft(s.runs[r].pc) > 0
    ensures var s' := RunStep(backoff, s, r, i);
      OnItsWay(s', r, i) && PlainStepsLeft(s'.runs[r].pc) < PlainStepsLeft(s.runs[r].pc)
    ensures var s' := RunStep(backoff, s, r, i);
      && SendLeft(s.runs[r]) == SentBy(s.runs[r]) + SendLeft(s'.runs[r])
      && AttemptLeft(s.runs[r], i.response) == RecordedBy(s.runs[r]) + AttemptLeft(s'.runs[r], i.response)
    ensures OnlyMoved(s, RunStep(backoff, s, r, i), r, RunStep(backoff, s, r, i).runs[r].pc)
    ensures Grows(s, RunStep(backoff, s, r, i), SentBy(s.runs[r]), RecordedBy(s.runs[r]))
  {
    PlainStep(backoff, s, r, i);
  }

  lemma AnsweredLater(s: State, m: State, s': State, r: Id, response: Response)
    requires r in s.runs && r in m.runs && OnlyMoved(s, m, r, m.runs[r].pc)
    requires Grows(s, m, SentBy(s.runs[r]), RecordedBy(s.runs[r])) && Answered(m, s', r, response)
    requires SendLeft(s.runs[r]) == SentBy(s.runs[r]) + SendLeft(m.runs[r])
    requires AttemptLeft(s.runs[r], response) == RecordedBy(s.runs[r]) + AttemptLeft(m.runs[r], response)
    ensures Answered(s, s', r, response)
  {
  }

  /** A run that has begun reaches its answer, whatever it is. */
  lemma {:induction false} ReachAnswer(backoff: seq<int>, actions: seq<Action>, r: Id, i: Input)
    returns (later: seq<Action>)
    requires OnItsWay(Run(backoff, actions), r, i)
    ensures Answered(Run(backoff, actions), Run(backoff, later), r, i.response)
    ensures Ownership.OrderlyRun(backoff, actions) ==> Ownership.OrderlyRun(backoff, later)
    decreases PlainStepsLeft(Run(backoff, actions).runs[r].pc)
  {
    var s := Run(backoff, actions);
    if PlainStepsLeft(s.runs[r].pc) == 0 {
      assert s.runs[r := s.runs[r].(pc := Touched(i.response))] == s.runs;
      later := actions;
    } else {
      PlainStepOnItsWay(backoff, s, r, i);
      Snoc(backoff, actions, StepRun(r, i));
      var m := Run(backoff, actions + [StepRun(r, i)]);
      later := ReachAnswer(backoff, actions + [StepRun(r, i)], r, i);
      AnsweredLater(s, m, Run(backoff, later), r, i.response);
    }
  }

  function Reply(response: Response): Input {
    Input(0, 0.0, response, false, 0)
  }

  /** One event and its queued job. */
  lemma Ingested(backoff: seq<int>, key: Option<string>) returns (actions: seq<Action>)
    ensures var s := Run(backoff, actions);
      && s.runs == map[] && s.now == 0 && s.events.Keys == {0} && s.claims == map[] && s.memory == map[]
      && s.sends == [] && s.attempts == []
      && s.jobs == map[0 := Tracked(Job(0, 0, 0, key, None, 0, Queued, 0, 0, 0), Past(0, 0, [], [], None))]
    ensures Ownership.OrderlyRun(backoff, actions)
  {
    var receive, step := Receive(0, 0, 0, 0, Validated, key), StepActor(0, Reply(None));
    actions := [];
    Snoc(backoff, actions, receive);
    actions := actions + [receive];
    assert Run(backoff, actions).actors == map[0 := Ingesting(0, Validated, key)];
    Snoc(backoff, actions, step);
    actions := actions + [step];
    assert Run(backoff, actions).actors == map[0 := Creating(0, key, FromIngest)];
    Snoc(backoff, actions, step);
    actions := actions + [step];
  }

  /** From `s` to `s'` run `r` has claimed job 0 and begun its next attempt. */
  ghost predicate HasBegun(s: State, s': State, r: Id) {
    && 0 in s.jobs && Elsewhere(s, s') && Grows(s, s', [], [])
    && var t, n := s.jobs[0], s.jobs[0].row.attempts + 1;
       var claimed := Tracked(t.row.(status := Delivering), t.past.(claims := t.past.claims + 1));
       && s'.runs == s.runs[r := WorkerRun(0, t.row.event, t.row.bridge, t.row.key, false, n - 1, Started)]
       && s'.jobs == s.jobs[0 := Taken(claimed, n, s.now)]
  }

  lemma Begun(backoff: seq<int>, actions: seq<Action>, r: Id) returns (later: seq<Action>)
    requires var s := Run(backoff, actions);
      r !in s.runs && Recoverable(s, 0) && s.jobs[0].row.event in s.events
    ensures HasBegun(Run(backoff, actions), Run(backoff, later), r)
    ensures actions <= later
    ensures Run(backoff, actions).jobs[0].row.status != Delivering && Ownership.OrderlyRun(backoff, actions) ==>
      Ownership.OrderlyRun(backoff, later)
  {
    Snoc(backoff, actions, Claim(r, 0));
    later := actions + [Claim(r, 0)];
    Snoc(backoff, later, StepRun(r, Reply(None)));
    later := later + [StepRun(r, Reply(None))];
  }

  /** From `s` to `s'` run `r` has written the outcome of its attempt into the row. */
  ghost predicate HasSettled(backoff: seq<int>, s: State, s': State, r: Id) {
    && r in s.runs && s.runs[r].pc.Touched? && s.runs[r].job in s.jobs && Elsewhere(s, s') && Grows(s, s', [], [])
    && var run := s.runs[r];
       var n := run.attempts + 1;
       var final := Outcome(backoff, n, run.pc.response);
       && s'.runs == s.runs[r := run.(pc := Settled(final))]
       && s'.jobs == s.jobs[run.job := Finished(backoff, s.jobs[run.job], n, s.now, final)]
  }

  lemma Settling(backoff: seq<int>, actions: seq<Action>, r: Id) returns (later: seq<Action>)
    requires CanStep(Run(backoff, actions), r) && Run(backoff, actions).runs[r].pc.Touched?
    ensures HasSettled(backoff, Run(backoff, actions), Run(backoff, later), r)
    ensures later == actions + [StepRun(r, Reply(None))]
    ensures Ownership.OrderlyRun(backoff, actions) ==> Ownership.OrderlyRun(backoff, later)
  {
    Snoc(backoff, actions, StepRun(r, Reply(None)));
    later := actions + [StepRun(r, Reply(None))];
  }

  /** Run `r` writes its closing entry. */
  lemma ClosedBy(backoff: seq<int>, actions: seq<Action>, r: Id) returns (later: seq<Action>)
    requires var s := Run(backoff, actions);
      && r in s.runs && s.runs[r].job == 0 && 0 in s.jobs && s.runs[r].event in s.events
      && s.runs[r].pc.Settled? && s.runs[r].pc.final != DeadLettered
    ensures var s, s' := Run(backoff, actions), Run(backoff, later);
      && Elsewhere(s, s') && s'.runs == s.runs - {r} && s'.jobs.Keys == s.jobs.Keys
      && s'.jobs[0] == s.jobs[0].(past := s.jobs[0].past.(closed :=
           Some(Closing(s.runs[r].attempts + 1, s.runs[r].pc.final))))
      && Grows(s, s', [], [])
    ensures Ownership.OrderlyRun(backoff, actions) ==> Ownership.OrderlyRun(backoff, later)
  {
    Snoc(backoff, actions, StepRun(r, Reply(None)));
    later := actions + [StepRun(r, Reply(None))];
  }
}
