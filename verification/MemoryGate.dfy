/**
  What the in-memory claim does to keyed deliveries of one worker process
  (core/queue_worker.py, lines 44-55 and 68-82): it knows keys only, neither bridge nor event, and
  recovered entries never count as replays, so it stops the retries and replays of a keyed job too.
 */
module MemoryGate {
  import opened Dicts
  import opened Protocol
  import opened Census
  import ClaimTable

  // ---------------------------------------------------------------- the calls that a run makes

  predicate AtGate(run: WorkerRun) {
    run.pc == Announced && ClaimTable.Keyed(run.key) && !run.isReplay
  }

  ghost predicate MakesCall(s: State, a: Action) {
    Enabled(s, a) && a.StepRun? && AtGate(s.runs[a.r])
  }

  ghost function CallOf(s: State, a: Action): ClaimTable.Call
    requires MakesCall(s, a)
  {
    ClaimTable.Call(s.runs[a.r].key, a.i.clock)
  }

  ghost predicate Restarts(s: State, a: Action) {
    Enabled(s, a) && a.Restart?
  }

  /** The calls of `_claim` since the worker process last started, in the order of its lock. */
  ghost function GateCalls(backoff: seq<int>, actions: seq<Action>): seq<ClaimTable.Call> {
    if |actions| == 0 then []
    else
      var s, a := Run(backoff, actions[..|actions| - 1]), actions[|actions| - 1];
      var calls := GateCalls(backoff, actions[..|actions| - 1]);
      if Restarts(s, a) then [] else if MakesCall(s, a) then calls + [CallOf(s, a)] else calls
  }

  lemma NextDeltaMemory(backoff: seq<int>, s: State, r: Id, i: Input)
    requires CanStep(s, r)
    ensures NextDelta(backoff, s, r, i).memory ==
            if AtGate(s.runs[r]) then ClaimTable.After(s.memory, ClaimTable.Call(s.runs[r].key, i.clock)) else s.memory
  {
  }

  lemma StepMemory(backoff: seq<int>, s: State, a: Action)
    requires Enabled(s, a)
    ensures Do(backoff, s, a).memory ==
            if a.Restart? then map[]
            else if MakesCall(s, a) then ClaimTable.After(s.memory, CallOf(s, a))
            else s.memory
  {
    if a.StepRun? {
      NextDeltaMemory(backoff, s, a.r, a.i);
      assert Do(backoff, s, a).memory == NextDelta(backoff, s, a.r, a.i).memory;
    }
  }

  lemma TableSnoc(calls: seq<ClaimTable.Call>, c: ClaimTable.Call)
    ensures ClaimTable.Table(calls + [c]) == ClaimTable.After(ClaimTable.Table(calls), c)
  {
    assert (calls + [c])[..|calls|] == calls;
  }

  /** In every run the table in memory is what the calls since the last start have left. */
  lemma {:induction false} MemoryIsTable(backoff: seq<int>, actions: seq<Action>)
    ensures Run(backoff, actions).memory == ClaimTable.Table(GateCalls(backoff, actions))
  {
    if |actions| > 0 {
      var s, a := Run(backoff, actions[..|actions| - 1]), actions[|actions| - 1];
      MemoryIsTable(backoff, actions[..|actions| - 1]);
      if Enabled(s, a) {
        StepMemory(backoff, s, a);
        if MakesCall(s, a) {
          TableSnoc(GateCalls(backoff, actions[..|actions| - 1]), CallOf(s, a));
        }
      }
    }
  }

  // ---------------------------------------------------------------- when a delivery is suppressed

  /** Call `j` was granted this key, and no keyed call since, nor `c` itself, read a clock a TTL later. */
  ghost predicate ClaimedBy(calls: seq<ClaimTable.Call>, c: ClaimTable.Call, j: nat) {
    j < |calls| && calls[j].key == c.key && ClaimTable.Lives(calls, j, |calls|) && c.now < calls[j].now + ClaimTable.TTL
  }

  ghost predicate StillClaimed(calls: seq<ClaimTable.Call>, c: ClaimTable.Call) {
    exists j :: ClaimedBy(calls, c, j)
  }

  lemma LivesInPrefix(calls: seq<ClaimTable.Call>, c: ClaimTable.Call, j: nat)
    requires j < |calls|
    ensures ClaimTable.Lives(calls + [c], j, |calls|) <==> ClaimTable.Lives(calls, j, |calls|)
  {
    assert (calls + [c])[..j] == calls[..j];
    assert forall m :: 0 <= m < |calls| ==> (calls + [c])[m] == calls[m];
  }

  lemma GrantedIffNotClaimed(calls: seq<ClaimTable.Call>, c: ClaimTable.Call)
    requires ClaimTable.Keyed(c.key)
    ensures ClaimTable.Grants(ClaimTable.Table(calls), c) <==> !StillClaimed(calls, c)
  {
    var all, n := calls + [c], |calls|;
    assert all[..n] == calls;
    ClaimTable.RefusedIffLive(all, n);
    forall j: nat | j < n
      ensures ClaimedBy(calls, c, j) <==>
              all[j].key == all[n].key && ClaimTable.Lives(all, j, n) && all[n].now < all[j].now + ClaimTable.TTL
    {
      LivesInPrefix(calls, c, j);
    }
  }

  /**
    In every run, with any clock readings: a keyed delivery is suppressed at the gate exactly when
    the process still holds a claim of its key, whichever job, event or bridge made that claim.
   */
  lemma {:induction false} SuppressedIffStillClaimed(backoff: seq<int>, actions: seq<Action>, r: Id, i: Input)
    requires CanStep(Run(backoff, actions), r) && AtGate(Run(backoff, actions).runs[r])
    ensures var s := Run(backoff, actions);
      var s' := RunStep(backoff, s, r, i);
      r in s'.runs && s'.runs[r] == s.runs[r].(pc :=
        if StillClaimed(GateCalls(backoff, actions), ClaimTable.Call(s.runs[r].key, i.clock)) then Suppressing
        else Gated)
  {
    MemoryIsTable(backoff, actions);
    GrantedIffNotClaimed(GateCalls(backoff, actions), ClaimTable.Call(Run(backoff, actions).runs[r].key, i.clock));
  }

  // ---------------------------------------------------------------- requests against grants

  /** The requests sent with a key. */
  function SendsOf(sends: seq<Send>, key: string): nat {
    if |sends| == 0 then 0
    else SendsOf(sends[..|sends| - 1], key) + One(sends[|sends| - 1].key == Some(key))
  }

  /** The call of this action is granted to the key. */
  ghost predicate GrantedTo(s: State, a: Action, key: string) {
    MakesCall(s, a) && s.runs[a.r].key == Some(key) && ClaimTable.Grants(s.memory, CallOf(s, a))
  }

  /** The calls of a run that were granted to a key, over all starts of the process. */
  ghost function GrantsOf(backoff: seq<int>, actions: seq<Action>, key: string): nat {
    if |actions| == 0 then 0
    else
      var init := actions[..|actions| - 1];
      GrantsOf(backoff, init, key) + One(GrantedTo(Run(backoff, init), actions[|actions| - 1], key))
  }

  /** Past the gate with this key, and not sent yet. */
  function PassedWith(key: string): RunProperty {
    (run: WorkerRun) => run.key == Some(key) && (run.pc.Gated? || run.pc.Missed? || run.pc.Cleared?)
  }

  /** A step neither sends nor passes the gate for nothing. */
  ghost predicate Spends(s: State, run: WorkerRun, d: Delta, clock: real) {
    forall key :: |key| > 0 ==>
      One(d.sends && run.key == Some(key)) + One(d.pc.Some? && PassedWith(key)(run.(pc := d.pc.value))) <=
      One(PassedWith(key)(run)) +
      One(AtGate(run) && run.key == Some(key) && ClaimTable.Grants(s.memory, ClaimTable.Call(run.key, clock)))
  }

  lemma NextDeltaSpends(backoff: seq<int>, s: State, r: Id, i: Input)
    requires CanStep(s, r) && !s.runs[r].isReplay
    ensures Spends(s, s.runs[r], NextDelta(backoff, s, r, i), i.clock)
  {
  }

  ghost predicate NoReplays(s: State) {
    forall r :: r in s.runs ==> !s.runs[r].isReplay
  }

  /** The requests sent with a key and the runs about to send one. */
  function Spent(s: State, key: string): nat {
    SendsOf(s.sends, key) + Count(s.runs, PassedWith(key))
  }

  lemma ApplySpends(s: State, r: Id, d: Delta, clock: real, key: string)
    requires CanStep(s, r) && Spends(s, s.runs[r], d, clock) && |key| > 0
    ensures Spent(Apply(s, r, d), key) <= Spent(s, key) +
            One(AtGate(s.runs[r]) && s.runs[r].key == Some(key) &&
                ClaimTable.Grants(s.memory, ClaimTable.Call(s.runs[r].key, clock)))
  {
    CountApply(s, r, d, PassedWith(key));
  }

  lemma OtherStepsSpendNothing(backoff: seq<int>, s: State, a: Action, key: string)
    requires NoReplays(s) && Enabled(s, a) && !a.StepRun?
    ensures Spent(Do(backoff, s, a), key) <= Spent(s, key)
  {
    if a.Claim? {
      CountPut(s.runs, PassedWith(key), a.r, ClaimJob(s, a.r, a.j).runs[a.r]);
    } else if a.Crash? {
      CountDrop(s.runs, PassedWith(key), a.r);
    }
  }

  lemma {:induction false} EveryRunHasNoReplays(backoff: seq<int>, actions: seq<Action>)
    ensures NoReplays(Run(backoff, actions))
  {
    if |actions| > 0 {
      EveryRunHasNoReplays(backoff, actions[..|actions| - 1]);
    }
  }

  /** What a step spends, it was granted. */
  lemma StepSpends(backoff: seq<int>, s: State, a: Action, key: string)
    requires NoReplays(s) && Enabled(s, a) && |key| > 0
    ensures Spent(Do(backoff, s, a), key) <= Spent(s, key) + One(GrantedTo(s, a, key))
  {
    if a.StepRun? {
      NextDeltaSpends(backoff, s, a.r, a.i);
      ApplySpends(s, a.r, NextDelta(backoff, s, a.r, a.i), a.i.clock, key);
    } else {
      OtherStepsSpendNothing(backoff, s, a, key);
    }
  }

  /** In every run: no more requests are sent with a key than calls were granted to it. */
  lemma {:induction false} SendsAreGranted(backoff: seq<int>, actions: seq<Action>, key: string)
    requires |key| > 0
    ensures SendsOf(Run(backoff, actions).sends, key) <= GrantsOf(backoff, actions, key)
    ensures Spent(Run(backoff, actions), key) <= GrantsOf(backoff, actions, key)
  {
    if |actions| > 0 {
      var s, a := Run(backoff, actions[..|actions| - 1]), actions[|actions| - 1];
      SendsAreGranted(backoff, actions[..|actions| - 1], key);
      EveryRunHasNoReplays(backoff, actions[..|actions| - 1]);
      if Enabled(s, a) {
        StepSpends(backoff, s, a, key);
      }
    }
  }

  /** Every reading of the monotonic clock lies within the TTL after `start`. */
  ghost predicate Within(backoff: seq<int>, actions: seq<Action>, start: real) {
    |actions| > 0 ==>
      var init, a := actions[..|actions| - 1], actions[|actions| - 1];
      && Within(backoff, init, start)
      && (MakesCall(Run(backoff, init), a) ==> start <= a.i.clock < start + ClaimTable.TTL)
  }

  /** How often the worker process was started again. */
  ghost function RestartsOf(backoff: seq<int>, actions: seq<Action>): nat {
    if |actions| == 0 then 0
    else
      var init := actions[..|actions| - 1];
      RestartsOf(backoff, init) + One(Restarts(Run(backoff, init), actions[|actions| - 1]))
  }

  /** The key is held until after every reading of the clock. */
  predicate HeldFrom(memory: ClaimTable.Claims, start: real, key: string) {
    key in memory && memory[key] >= start + ClaimTable.TTL
  }

  lemma CallHolds(memory: ClaimTable.Claims, c: ClaimTable.Call, start: real, key: string)
    requires ClaimTable.Keyed(c.key) && start <= c.now < start + ClaimTable.TTL
    ensures One(HeldFrom(memory, start, key)) + One(c.key == Some(key) && ClaimTable.Grants(memory, c)) <=
            One(HeldFrom(ClaimTable.After(memory, c), start, key))
  {
  }

  lemma {:induction false} OneGrantPerStart(backoff: seq<int>, actions: seq<Action>, start: real, key: string)
    requires Within(backoff, actions, start) && |key| > 0
    ensures GrantsOf(backoff, actions, key) <=
            RestartsOf(backoff, actions) + One(HeldFrom(Run(backoff, actions).memory, start, key))
  {
    if |actions| > 0 {
      var s, a := Run(backoff, actions[..|actions| - 1]), actions[|actions| - 1];
      OneGrantPerStart(backoff, actions[..|actions| - 1], start, key);
      if Enabled(s, a) {
        StepMemory(backoff, s, a);
        if MakesCall(s, a) {
          CallHolds(s.memory, CallOf(s, a), start, key);
        }
      }
    }
  }

  /**
    When all the calls fall within the TTL after some clock reading, whatever that reading is, each
    start of the worker process sends at most one request with a key: no retry, no replay, and
    nothing for another event or bridge with the same key.
   */
  lemma {:induction false} OneRequestPerKey(backoff: seq<int>, actions: seq<Action>, start: real, key: string)
    requires Within(backoff, actions, start) && |key| > 0
    ensures SendsOf(Run(backoff, actions).sends, key) <= 1 + RestartsOf(backoff, actions)
  {
    SendsAreGranted(backoff, actions, key);
    OneGrantPerStart(backoff, actions, start, key);
  }
}
