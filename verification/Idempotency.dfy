/**
  Idempotency claims under any interleaving of their read and insert phases
  (database/repository.py, lines 724-766, core/queue_worker.py, lines 83-102).
 */
module Idempotency {
  import opened Dicts
  import opened Protocol
  import opened Links
  import ClaimTable

  /** The claim row of a slot names this event. */
  ghost predicate HeldBy(s: State, bridge: nat, key: string, e: Id) {
    (bridge, key) in s.claims && s.claims[(bridge, key)].event == e
  }

  /** A keyed run that is allowed to send holds the claim. */
  ghost predicate RunHolds(s: State, run: WorkerRun) {
    ClaimTable.Keyed(run.key) && run.pc.Cleared? ==> HeldBy(s, run.bridge, run.key.value, run.event)
  }

  ghost predicate Inv(s: State) {
    && (forall i :: 0 <= i < |s.granted| ==> HeldBy(s, s.granted[i].bridge, s.granted[i].key, s.granted[i].event))
    && (forall r :: r in s.runs ==> RunHolds(s, s.runs[r]))
    && (forall i :: 0 <= i < |s.sends| && ClaimTable.Keyed(s.sends[i].key) ==>
          HeldBy(s, s.sends[i].bridge, s.sends[i].key.value, s.sends[i].event))
  }

  /** A claim row is never deleted and never changes hands; only its expiry moves. */
  ghost predicate ClaimsPersist(s: State, s': State) {
    forall c :: c in s.claims ==> c in s'.claims && s'.claims[c].event == s.claims[c].event
  }

  /** What a worker step may claim, grant or send. */
  ghost predicate DeltaHolds(s: State, run: WorkerRun, d: Delta) {
    && (forall c :: c in s.claims ==> c in d.claims && d.claims[c].event == s.claims[c].event)
    && (ClaimTable.Keyed(run.key) && (d.grants || d.sends || d.pc == Some(Cleared)) ==>
          var slot := (run.bridge, run.key.value); slot in d.claims && d.claims[slot].event == run.event)
  }

  lemma LookupHolds(s: State, run: WorkerRun, d: Delta, reading: int)
    requires d.claims == s.claims && !d.grants && !d.sends
    ensures DeltaHolds(s, run, Lookup(s, run, d, reading))
  {
  }

  lemma InsertHolds(s: State, run: WorkerRun, d: Delta)
    requires run.pc.Missed? && ClaimTable.Keyed(run.key) && d.claims == s.claims && !d.grants && !d.sends
    ensures DeltaHolds(s, run, InsertClaim(s, run, d))
  {
  }

  lemma NextDeltaHolds(backoff: seq<int>, s: State, r: Id, i: Input)
    requires CanStep(s, r) && RunHolds(s, s.runs[r])
    ensures DeltaHolds(s, s.runs[r], NextDelta(backoff, s, r, i))
  {
    var run := s.runs[r];
    var d := Delta(Some(run.pc), s.jobs[run.job], None, None, None, None, false, false, s.claims, s.memory);
    if run.pc.Gated? {
      LookupHolds(s, run, d, i.reading);
    } else if run.pc.Missed? {
      InsertHolds(s, run, d);
    }
  }

  lemma ApplyKeepsInv(s: State, r: Id, d: Delta)
    requires Inv(s) && CanStep(s, r) && DeltaHolds(s, s.runs[r], d)
    ensures Inv(Apply(s, r, d)) && ClaimsPersist(s, Apply(s, r, d))
  {
  }

  lemma OtherStepsKeepInv(backoff: seq<int>, s: State, a: Action)
    requires Inv(s) && Enabled(s, a) && !a.StepRun?
    ensures Inv(Do(backoff, s, a)) && ClaimsPersist(s, Do(backoff, s, a))
  {
  }

  lemma StepKeepsInv(backoff: seq<int>, s: State, a: Action)
    requires Inv(s) && Enabled(s, a)
    ensures Inv(Do(backoff, s, a)) && ClaimsPersist(s, Do(backoff, s, a))
  {
    if a.StepRun? {
      NextDeltaHolds(backoff, s, a.r, a.i);
      ApplyKeepsInv(s, a.r, NextDelta(backoff, s, a.r, a.i));
    } else {
      OtherStepsKeepInv(backoff, s, a);
    }
  }

  lemma {:induction false} EveryRunKeepsInv(backoff: seq<int>, actions: seq<Action>)
    ensures Inv(Run(backoff, actions))
  {
    if |actions| > 0 {
      var s, a := Run(backoff, actions[..|actions| - 1]), actions[|actions| - 1];
      EveryRunKeepsInv(backoff, actions[..|actions| - 1]);
      if Enabled(s, a) {
        StepKeepsInv(backoff, s, a);
      }
    }
  }

  /**
    All the claims ever granted for one bridge and key name the same event, even after expiry;
    and so do all the HTTP requests ever sent for it.
   */
  lemma {:induction false} OneEventPerKey(backoff: seq<int>, actions: seq<Action>)
    ensures var s := Run(backoff, actions);
      && (forall i, j :: 0 <= i < |s.granted| && 0 <= j < |s.granted| &&
                         s.granted[i].bridge == s.granted[j].bridge && s.granted[i].key == s.granted[j].key ==>
            s.granted[i].event == s.granted[j].event)
      && (forall i, j :: 0 <= i < |s.sends| && 0 <= j < |s.sends| && ClaimTable.Keyed(s.sends[i].key) &&
                         s.sends[i].bridge == s.sends[j].bridge && s.sends[i].key == s.sends[j].key ==>
            s.sends[i].event == s.sends[j].event)
  {
    EveryRunKeepsInv(backoff, actions);
  }

  /** The select of a keyed claim. */
  lemma SelectVerdict(backoff: seq<int>, s: State, r: Id, i: Input)
    requires CanStep(s, r) && s.runs[r].pc == Gated && ClaimTable.Keyed(s.runs[r].key)
    ensures var run, s' := s.runs[r], RunStep(backoff, s, r, i);
      var slot := (run.bridge, run.key.value);
      && s'.claims == s.claims && r in s'.runs
      && s'.runs[r] == run.(pc := if slot !in s.claims || s.claims[slot].expires <= i.reading then Missed(i.reading)
                                  else if s.claims[slot].event == run.event then Cleared else Suppressing)
  {
  }

  /** The insert of a keyed claim: the new row is good for a day, and the rows that had expired expire now. */
  lemma InsertVerdict(backoff: seq<int>, s: State, r: Id, i: Input)
    requires CanStep(s, r) && s.runs[r].pc.Missed?
    ensures var run, s' := s.runs[r], RunStep(backoff, s, r, i);
      var slot := (run.bridge, run.key.value);
      && r in s'.runs && s'.runs[r] == run.(pc := if slot in s.claims then Suppressing else Cleared)
      && (slot in s.claims ==> s'.claims == s.claims)
      && (slot !in s.claims ==>
            && s'.claims.Keys == s.claims.Keys + {slot}
            && s'.claims[slot] == ClaimRow(run.event, run.pc.reading + 86400)
            && forall c :: c in s.claims ==>
                 s'.claims[c] == ClaimRow(s.claims[c].event,
                                          if s.claims[c].expires > run.pc.reading then s.claims[c].expires
                                          else run.pc.reading))
  {
  }

  /** Both phases of a claim without a step of anyone else in between. */
  ghost function ClaimAtOnce(backoff: seq<int>, s: State, r: Id, i: Input): State
    requires CanStep(s, r) && s.runs[r].pc == Gated && ClaimTable.Keyed(s.runs[r].key)
  {
    SelectVerdict(backoff, s, r, i);
    var looked := RunStep(backoff, s, r, i);
    if looked.runs[r].pc.Missed? then
      StepKeeps(backoff, s, StepRun(r, i));
      RunStep(backoff, looked, r, i)
    else looked
  }

  /**
    The exact verdict on a keyed claim.  A row that has expired refuses everyone, its own event
    included: the insert meets the unique constraint.
   */
  lemma ClaimVerdict(backoff: seq<int>, s: State, r: Id, i: Input)
    requires CanStep(s, r) && s.runs[r].pc == Gated && ClaimTable.Keyed(s.runs[r].key)
    ensures r in ClaimAtOnce(backoff, s, r, i).runs
    ensures var run, after := s.runs[r], ClaimAtOnce(backoff, s, r, i).runs[r].pc;
      var slot := (run.bridge, run.key.value);
      && (after == Cleared <==>
            slot !in s.claims || (s.claims[slot].expires > i.reading && s.claims[slot].event == run.event))
      && (after != Cleared ==> after == Suppressing)
  {
    SelectVerdict(backoff, s, r, i);
    var looked := RunStep(backoff, s, r, i);
    if looked.runs[r].pc.Missed? {
      StepKeeps(backoff, s, StepRun(r, i));
      InsertVerdict(backoff, looked, r, i);
    }
  }
}
