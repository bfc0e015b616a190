/**
  The attempt rows and the ledger of a job against its row (core/queue_worker.py, lines 105-168),
  for jobs that have no idempotency key and lost no run.
 */
module Evidence {
  import opened Dicts
  import opened Protocol
  import opened Links
  import opened Ownership
  import opened Reconciliation
  import ClaimTable

  /** The attempt numbers recorded for a job, in order. */
  function NumbersOf(attempts: seq<Attempt>, j: Id): seq<nat> {
    if |attempts| == 0 then []
    else
      var rest, last := NumbersOf(attempts[..|attempts| - 1], j), attempts[|attempts| - 1];
      if last.job == j then rest + [last.number] else rest
  }

  /** The `delivery_attempted` entries of a job. */
  function AttemptedOf(ledger: seq<LedgerEntry>, j: Id): nat {
    if |ledger| == 0 then 0
    else
      var last := ledger[|ledger| - 1];
      AttemptedOf(ledger[..|ledger| - 1], j) + (if last.job == Some(j) && last.mark == MAttempted then 1 else 0)
  }

  /** The last entry that a worker wrote for a job. */
  function LastWorkerMark(ledger: seq<LedgerEntry>, j: Id): Option<Mark> {
    if |ledger| == 0 then None
    else
      var last := ledger[|ledger| - 1];
      if last.job == Some(j) && WorkerMark(last.mark) then Some(last.mark)
      else LastWorkerMark(ledger[..|ledger| - 1], j)
  }

  predicate WorkerMark(mark: Mark) {
    mark == MDelivering || mark == MAttempted || mark == MDelivered || mark == MRetrying || mark == MDeadLettered
  }

  lemma AppendEntry(ledger: seq<LedgerEntry>, entry: LedgerEntry, j: Id)
    ensures AttemptedOf(ledger + [entry], j) ==
            AttemptedOf(ledger, j) + if entry.job == Some(j) && entry.mark == MAttempted then 1 else 0
    ensures LastWorkerMark(ledger + [entry], j) ==
            if entry.job == Some(j) && WorkerMark(entry.mark) then Some(entry.mark) else LastWorkerMark(ledger, j)
  {
  }

  function UpTo(n: nat): seq<nat> {
    seq(n, i requires 0 <= i < n => i + 1)
  }

  /** A job without a key that lost no run. */
  predicate Plain(t: Tracked) {
    t.past.crashes == 0 && !ClaimTable.Keyed(t.row.key)
  }

  // ---------------------------------------------------------------- counts

  /** What a writing run has recorded: nothing new, the attempt row, or the ledger entry as well. */
  predicate HasRow(pc: Pc) {
    pc.Recorded? || HasEntry(pc)
  }

  predicate HasEntry(pc: Pc) {
    pc.Logged? || pc.Noted? || pc.Touched?
  }

  predicate Duplicate(pc: Pc) {
    pc.Missed? || pc.Suppressing? || pc.Suppressed?
  }

  predicate Agrees(numbers: seq<nat>, attempted: nat, t: Tracked, w: Option<WorkerRun>) {
    var n := t.row.attempts;
    Plain(t) ==>
      match w
      case None =>
        && t.row.status != Blocked && t.row.status != Delivering && (t.row.status == Queued ==> n == 0)
        && numbers == UpTo(n) && attempted == n
      case Some(run) =>
        && !ClaimTable.Keyed(run.key) && !Duplicate(run.pc)
        && if run.pc == Waiting then n == run.attempts && numbers == UpTo(n) && attempted == n
           else
             && n == run.attempts + 1
             && numbers == UpTo(if HasRow(run.pc) then n else n - 1)
             && attempted == if HasEntry(run.pc) then n else n - 1
  }

  /** What a step of a writing run without a key records. */
  ghost predicate Records(run: WorkerRun, d: Delta) {
    && d.pc.Some? && !Duplicate(d.pc.value)
    && (d.response.Some? <==> run.pc.Sent?)
    && (d.mark == Some(MAttempted) <==> run.pc.Recorded?)
    && (Writing(run.(pc := d.pc.value)) ==>
          && (HasRow(d.pc.value) <==> HasRow(run.pc) || run.pc.Sent?)
          && (HasEntry(d.pc.value) <==> HasEntry(run.pc) || run.pc.Recorded?))
  }

  lemma NextDeltaRecords(backoff: seq<int>, s: State, r: Id, i: Input)
    requires CanStep(s, r) && Writing(s.runs[r]) && !ClaimTable.Keyed(s.runs[r].key) && !Duplicate(s.runs[r].pc)
    ensures Records(s.runs[r], NextDelta(backoff, s, r, i))
  {
  }

  // ---------------------------------------------------------------- closings

  /** An outcome that was announced, or is about to be: the row's own, unless a later attempt has begun. */
  predicate ClosingOk(c: Closing, t: Tracked, w: Option<WorkerRun>) {
    Plain(t) ==>
      && 1 <= c.attempt
      && match w
         case None =>
           c.attempt <= t.row.attempts && c.final == if c.attempt == t.row.attempts then t.row.status else Retrying
         case Some(run) => c.attempt <= run.attempts && c.final == Retrying
  }

  function ClosingAt(c: Closing): JobProperty {
    (t, w) => ClosingOk(c, t, w)
  }

  predicate LastClosingOk(t: Tracked, w: Option<WorkerRun>) {
    t.past.closed.Some? ==> ClosingOk(t.past.closed.value, t, w)
  }

  function EvidenceAt(numbers: seq<nat>, attempted: nat): JobProperty {
    (t, w) => Agrees(numbers, attempted, t, w) && LastClosingOk(t, w)
  }

  function EvidenceOf(s: State, j: Id): JobProperty {
    EvidenceAt(NumbersOf(s.attempts, j), AttemptedOf(s.ledger, j))
  }

  function ClosingOf(run: WorkerRun): Closing
    requires !Writing(run)
  {
    Closing(run.attempts + 1, run.pc.final)
  }

  lemma FinishedIsClosing(backoff: seq<int>, now: int, run: WorkerRun, t: Tracked, final: JobStatus)
    requires final == Retrying ==> run.attempts + 1 < |backoff|
    ensures ClosingOk(Closing(run.attempts + 1, final), Finished(backoff, t, run.attempts + 1, now, final), None)
  {
  }

  lemma ClaimKeepsClosing(numbers: seq<nat>, attempted: nat, c: Closing, t: Tracked, run: WorkerRun)
    requires Agrees(numbers, attempted, t, None) && ClosingOk(c, t, None) && run.attempts == t.row.attempts
    requires !Terminal(t.row.status)
    ensures ClosingOk(c, Tracked(t.row.(status := Delivering), t.past.(claims := t.past.claims + 1)), Some(run))
  {
  }

  // ---------------------------------------------------------------- the invariant

  ghost predicate Open(s: State, j: Id) {
    exists r :: r in s.runs && s.runs[r].job == j
  }

  /** When no run of the job is left, the last entry a worker wrote is the last closing. */
  ghost predicate LastOk(s: State, j: Id)
    requires j in s.jobs
  {
    var t, last := s.jobs[j], LastWorkerMark(s.ledger, j);
    Plain(t) && !Open(s, j) ==>
      if t.row.attempts == 0 then last == None
      else t.past.closed.Some? && last == Some(MarkOf(t.past.closed.value.final))
  }

  ghost predicate Inv(s: State) {
    && (forall j :: j in s.jobs ==> Holds(EvidenceOf(s, j), s, j))
    && (forall r :: r in s.runs && !Writing(s.runs[r]) ==>
          s.runs[r].job in s.jobs && Holds(ClosingAt(ClosingOf(s.runs[r])), s, s.runs[r].job))
    && (forall j :: j in s.jobs ==> LastOk(s, j))
    && (forall i :: 0 <= i < |s.attempts| ==> s.attempts[i].job in s.jobs)
  }

  /** What the other invariants provide. */
  ghost predicate Context(s: State) {
    Linked(s) && Ownership.Inv(s) && Told(s)
  }

  // ---------------------------------------------------------------- a worker step

  lemma ApplyNumbers(s: State, r: Id, d: Delta, j: Id)
    requires CanStep(s, r)
    ensures NumbersOf(Apply(s, r, d).attempts, j) ==
            if d.response.Some? && s.runs[r].job == j then NumbersOf(s.attempts, j) + [s.runs[r].attempts + 1]
            else NumbersOf(s.attempts, j)
  {
  }

  lemma ApplyEntries(s: State, r: Id, d: Delta, j: Id)
    requires CanStep(s, r)
    ensures AttemptedOf(Apply(s, r, d).ledger, j) ==
            if d.mark == Some(MAttempted) && s.runs[r].job == j then AttemptedOf(s.ledger, j) + 1
            else AttemptedOf(s.ledger, j)
    ensures LastWorkerMark(Apply(s, r, d).ledger, j) ==
            if d.mark.Some? && s.runs[r].job == j && WorkerMark(d.mark.value) then d.mark
            else LastWorkerMark(s.ledger, j)
  {
  }

  /** A settled run records no attempt, and announces its outcome at the end. */
  lemma SettledDelta(backoff: seq<int>, s: State, r: Id, i: Input)
    requires CanStep(s, r) && !Writing(s.runs[r])
    ensures var run, d := s.runs[r], NextDelta(backoff, s, r, i);
      && d.response == None && d.mark != Some(MAttempted)
      && (d.pc.Some? ==> d.pc.value == Marked(run.pc.final) && d.job == s.jobs[run.job])
      && (d.pc == None ==> d.mark == Some(MarkOf(run.pc.final)) &&
                           d.job == s.jobs[run.job].(past := s.jobs[run.job].past.(closed := Some(ClosingOf(run)))))
  {
  }

  /** The record of the owner's job after its step. */
  lemma OwnerStepAgrees(backoff: seq<int>, now: int, numbers: seq<nat>, attempted: nat, run: WorkerRun, t: Tracked,
          d: Delta)
    requires Writing(run) && JobChanges(backoff, now, run, t, d)
    requires !ClaimTable.Keyed(run.key) && !Duplicate(run.pc) ==> Records(run, d)
    requires EvidenceAt(numbers, attempted)(t, Some(run))
    ensures EvidenceAt(if d.response.Some? then numbers + [run.attempts + 1] else numbers,
                       if d.mark == Some(MAttempted) then attempted + 1 else attempted)(d.job, RunAfter(run, d))
  {
  }

  lemma ApplyKeepsEvidence(backoff: seq<int>, s: State, r: Id, d: Delta)
    requires Ownership.Inv(s) && CanStep(s, r) && Writing(s.runs[r])
    requires Holds(EvidenceOf(s, s.runs[r].job), s, s.runs[r].job)
    requires JobChanges(backoff, s.now, s.runs[r], s.jobs[s.runs[r].job], d)
    requires !ClaimTable.Keyed(s.runs[r].key) && !Duplicate(s.runs[r].pc) ==> Records(s.runs[r], d)
    ensures Holds(EvidenceOf(Apply(s, r, d), s.runs[r].job), Apply(s, r, d), s.runs[r].job)
  {
    var run := s.runs[r];
    var P, Q := EvidenceOf(s, run.job), EvidenceOf(Apply(s, r, d), run.job);
    ApplyNumbers(s, r, d, run.job);
    ApplyEntries(s, r, d, run.job);
    if P(s.jobs[run.job], Some(run)) {
      OwnerStepAgrees(backoff, s.now, NumbersOf(s.attempts, run.job), AttemptedOf(s.ledger, run.job), run,
          s.jobs[run.job], d);
    }
    OwnerStepHolds(P, Q, s, r, d);
  }

  lemma OwnerEvidence(backoff: seq<int>, s: State, r: Id, i: Input)
    requires Ownership.Inv(s) && CanStep(s, r) && Writing(s.runs[r])
    requires Holds(EvidenceOf(s, s.runs[r].job), s, s.runs[r].job)
    ensures Holds(EvidenceOf(RunStep(backoff, s, r, i), s.runs[r].job), RunStep(backoff, s, r, i), s.runs[r].job)
  {
    NextDeltaJob(backoff, s, r, i);
    if !ClaimTable.Keyed(s.runs[r].key) && !Duplicate(s.runs[r].pc) {
      NextDeltaRecords(backoff, s, r, i);
    }
    ApplyKeepsEvidence(backoff, s, r, NextDelta(backoff, s, r, i));
  }

  /** A run that has settled closes, or another job's run moves: the record stays. */
  lemma OthersEvidence(backoff: seq<int>, s: State, r: Id, i: Input, j: Id)
    requires Ownership.Inv(s) && Inv(s) && CanStep(s, r) && j in s.jobs && (j == s.runs[r].job ==> !Writing(s.runs[r]))
    ensures Holds(EvidenceOf(RunStep(backoff, s, r, i), j), RunStep(backoff, s, r, i), j)
  {
    var run, d := s.runs[r], NextDelta(backoff, s, r, i);
    var Q := EvidenceOf(Apply(s, r, d), j);
    NextDeltaOwns(backoff, s, r, i);
    ApplyNumbers(s, r, d, j);
    ApplyEntries(s, r, d, j);
    if j == run.job {
      SettledDelta(backoff, s, r, i);
      var P := Both(EvidenceOf(s, j), ClosingAt(ClosingOf(run)));
      HoldsBoth(EvidenceOf(s, j), ClosingAt(ClosingOf(run)), s, j);
      forall w | P(s.jobs[j], w) ensures Q(d.job, w) {
        SettledKeepsEvidence(NumbersOf(s.attempts, j), AttemptedOf(s.ledger, j), run, s.jobs[j], d, w);
      }
      OtherStepHolds(P, Q, s, r, d, j);
    } else {
      OtherStepHolds(EvidenceOf(s, j), Q, s, r, d, j);
    }
  }

  lemma SettledKeepsEvidence(numbers: seq<nat>, attempted: nat, run: WorkerRun, t: Tracked, d: Delta,
          w: Option<WorkerRun>)
    requires !Writing(run)
    requires EvidenceAt(numbers, attempted)(t, w) && ClosingAt(ClosingOf(run))(t, w)
    requires d.job == t || d.job == t.(past := t.past.(closed := Some(ClosingOf(run))))
    ensures EvidenceAt(numbers, attempted)(d.job, w)
  {
  }

  lemma ClosingIgnoresRecord(c: Closing, t: Tracked, closed: Option<Closing>, w: Option<WorkerRun>)
    requires ClosingAt(c)(t, w)
    ensures ClosingAt(c)(t.(past := t.past.(closed := closed)), w)
  {
  }

  /** A closing stays right when a run makes a step, whoever's it is. */
  lemma StepKeepsClosing(backoff: seq<int>, s: State, r: Id, i: Input, c: Closing, k: Id)
    requires Ownership.Inv(s) && Inv(s) && CanStep(s, r) && k in s.jobs && Holds(ClosingAt(c), s, k)
    ensures Holds(ClosingAt(c), RunStep(backoff, s, r, i), k)
  {
    var run, d := s.runs[r], NextDelta(backoff, s, r, i);
    NextDeltaOwns(backoff, s, r, i);
    NextDeltaJob(backoff, s, r, i);
    if k == run.job && Writing(run) {
      var P := Both(EvidenceOf(s, k), ClosingAt(c));
      HoldsBoth(EvidenceOf(s, k), ClosingAt(c), s, k);
      if P(s.jobs[k], Some(run)) {
        OwnerStepKeepsClosing(backoff, s.now, NumbersOf(s.attempts, k), AttemptedOf(s.ledger, k), c, run, s.jobs[k], d);
      }
      OwnerStepHolds(P, ClosingAt(c), s, r, d);
    } else {
      if k == run.job {
        SettledDelta(backoff, s, r, i);
        forall w | ClosingAt(c)(s.jobs[k], w) ensures ClosingAt(c)(d.job, w) {
          ClosingIgnoresRecord(c, s.jobs[k], Some(ClosingOf(run)), w);
        }
      }
      OtherStepHolds(ClosingAt(c), ClosingAt(c), s, r, d, k);
    }
  }

  lemma OwnerStepKeepsClosing(backoff: seq<int>, now: int, numbers: seq<nat>, attempted: nat, c: Closing,
                              run: WorkerRun, t: Tracked, d: Delta)
    requires Writing(run) && JobChanges(backoff, now, run, t, d)
    requires EvidenceAt(numbers, attempted)(t, Some(run)) && ClosingAt(c)(t, Some(run))
    ensures ClosingAt(c)(d.job, RunAfter(run, d))
  {
  }

  /** A run that has just settled has a right outcome to announce. */
  lemma SettlingIsClosing(backoff: seq<int>, s: State, r: Id, i: Input)
    requires Ownership.Inv(s) && Inv(s) && CanStep(s, r) && s.runs[r].pc.Touched?
    ensures var run, s' := s.runs[r], RunStep(backoff, s, r, i);
      && r in s'.runs && !Writing(s'.runs[r]) && s'.runs[r].job == run.job
      && Holds(ClosingAt(ClosingOf(s'.runs[r])), s', run.job)
  {
    var run, d := s.runs[r], NextDelta(backoff, s, r, i);
    NextDeltaJob(backoff, s, r, i);
    var final := Outcome(backoff, run.attempts + 1, run.pc.response);
    FinishedIsClosing(backoff, s.now, run, s.jobs[run.job], final);
    OwnerStepHolds(EvidenceOf(s, run.job), ClosingAt(Closing(run.attempts + 1, final)), s, r, d);
  }

  lemma RunStepKeepsClosings(backoff: seq<int>, s: State, r: Id, i: Input, q: Id)
    requires Ownership.Inv(s) && Inv(s) && CanStep(s, r)
    requires var s' := RunStep(backoff, s, r, i); q in s'.runs && !Writing(s'.runs[q])
    ensures var s' := RunStep(backoff, s, r, i);
      s'.runs[q].job in s'.jobs && Holds(ClosingAt(ClosingOf(s'.runs[q])), s', s'.runs[q].job)
  {
    NextDeltaJob(backoff, s, r, i);
    if q == r && s.runs[r].pc.Touched? {
      SettlingIsClosing(backoff, s, r, i);
    } else {
      assert q in s.runs && !Writing(s.runs[q]);
      assert ClosingOf(RunStep(backoff, s, r, i).runs[q]) == ClosingOf(s.runs[q]);
      StepKeepsClosing(backoff, s, r, i, ClosingOf(s.runs[q]), s.runs[q].job);
    }
  }

  lemma OtherJobKeepsLast(s: State, r: Id, d: Delta, j: Id)
    requires CanStep(s, r) && j in s.jobs && j != s.runs[r].job && LastOk(s, j)
    ensures LastOk(Apply(s, r, d), j)
  {
    ApplyEntries(s, r, d, j);
    if q :| q in s.runs && s.runs[q].job == j {
      assert q in Apply(s, r, d).runs && Apply(s, r, d).runs[q].job == j;
    }
  }

  lemma OpenRunKeepsLast(s: State, r: Id, d: Delta)
    requires CanStep(s, r) && d.pc.Some?
    ensures LastOk(Apply(s, r, d), s.runs[r].job)
  {
    assert r in Apply(s, r, d).runs && Apply(s, r, d).runs[r].job == s.runs[r].job;
  }

  /** A run of a job without a key never ends by being suppressed. */
  lemma SuppressedKeepsLast(s: State, r: Id, d: Delta)
    requires CanStep(s, r) && Holds(EvidenceOf(s, s.runs[r].job), s, s.runs[r].job)
    requires s.runs[r].pc.Suppressed? && d.job == BlockedJob(s.jobs[s.runs[r].job])
    ensures LastOk(Apply(s, r, d), s.runs[r].job)
  {
  }

  lemma ClosingKeepsLast(s: State, r: Id, d: Delta)
    requires CanStep(s, r) && !Writing(s.runs[r]) && RunTells(s.runs[r])
    requires Holds(ClosingAt(ClosingOf(s.runs[r])), s, s.runs[r].job)
    requires d.pc == None && d.mark == Some(MarkOf(s.runs[r].pc.final))
    requires var t := s.jobs[s.runs[r].job]; d.job == t.(past := t.past.(closed := Some(ClosingOf(s.runs[r]))))
    ensures LastOk(Apply(s, r, d), s.runs[r].job)
  {
    var s', j := Apply(s, r, d), s.runs[r].job;
    ApplyEntries(s, r, d, j);
    assert forall q :: q in s.runs && q != r ==> q in s'.runs && s'.runs[q] == s.runs[q];
    if !Open(s', j) {
      assert ClosingAt(ClosingOf(s.runs[r]))(s.jobs[j], None);
    }
  }

  lemma RunStepKeepsLast(backoff: seq<int>, s: State, r: Id, i: Input, j: Id)
    requires Context(s) && Inv(s) && CanStep(s, r) && j in s.jobs
    ensures LastOk(RunStep(backoff, s, r, i), j)
  {
    var run, d := s.runs[r], NextDelta(backoff, s, r, i);
    NextDeltaJob(backoff, s, r, i);
    if j != run.job {
      OtherJobKeepsLast(s, r, d, j);
    } else if d.pc.Some? {
      OpenRunKeepsLast(s, r, d);
    } else if Writing(run) {
      SuppressedKeepsLast(s, r, d);
    } else {
      SettledDelta(backoff, s, r, i);
      ClosingKeepsLast(s, r, d);
    }
  }

  lemma RunStepKeepsInv(backoff: seq<int>, s: State, r: Id, i: Input)
    requires Context(s) && Inv(s) && CanStep(s, r)
    ensures Inv(RunStep(backoff, s, r, i))
  {
    var s' := RunStep(backoff, s, r, i);
    forall j | j in s'.jobs ensures Holds(EvidenceOf(s', j), s', j) && LastOk(s', j) {
      RunStepKeepsLast(backoff, s, r, i, j);
      if j == s.runs[r].job && Writing(s.runs[r]) {
        OwnerEvidence(backoff, s, r, i);
      } else {
        OthersEvidence(backoff, s, r, i, j);
      }
    }
    forall q | q in s'.runs && !Writing(s'.runs[q])
      ensures s'.runs[q].job in s'.jobs && Holds(ClosingAt(ClosingOf(s'.runs[q])), s', s'.runs[q].job)
    {
      RunStepKeepsClosings(backoff, s, r, i, q);
    }
  }

  // ---------------------------------------------------------------- the recovery claim

  lemma ClaimAgrees(numbers: seq<nat>, attempted: nat, t: Tracked, run: WorkerRun)
    requires EvidenceAt(numbers, attempted)(t, None) && !Terminal(t.row.status)
    requires run.pc == Waiting && run.attempts == t.row.attempts && run.key == t.row.key
    ensures var claimed := Tracked(t.row.(status := Delivering), t.past.(claims := t.past.claims + 1));
      EvidenceAt(numbers, attempted)(claimed, Some(run))
  {
  }

  lemma ClaimKeepsEvidence(numbers: seq<nat>, attempted: nat, s: State, r: Id, j: Id, k: Id)
    requires Ownership.Inv(s) && r !in s.runs && Free(s, j) && k in s.jobs
    requires Holds(EvidenceAt(numbers, attempted), s, k)
    ensures Holds(EvidenceAt(numbers, attempted), ClaimJob(s, r, j), k)
  {
    var P := EvidenceAt(numbers, attempted);
    if k == j {
      if P(s.jobs[j], None) {
        ClaimAgrees(numbers, attempted, s.jobs[j], ClaimJob(s, r, j).runs[r]);
      }
      ClaimHolds(P, P, s, r, j);
    } else {
      OtherClaimHolds(P, s, r, j, k);
    }
  }

  lemma ClaimKeepsClosings(s: State, r: Id, j: Id, c: Closing, k: Id)
    requires Ownership.Inv(s) && Inv(s) && r !in s.runs && Free(s, j) && k in s.jobs && Holds(ClosingAt(c), s, k)
    ensures Holds(ClosingAt(c), ClaimJob(s, r, j), k)
  {
    if k == j {
      var P := Both(EvidenceOf(s, j), ClosingAt(c));
      HoldsBoth(EvidenceOf(s, j), ClosingAt(c), s, j);
      if P(s.jobs[j], None) {
        ClaimKeepsClosing(NumbersOf(s.attempts, j), AttemptedOf(s.ledger, j), c, s.jobs[j], ClaimJob(s, r, j).runs[r]);
      }
      ClaimHolds(P, ClosingAt(c), s, r, j);
    } else {
      OtherClaimHolds(ClosingAt(c), s, r, j, k);
    }
  }

  lemma ClaimKeepsLast(s: State, r: Id, j: Id, k: Id)
    requires r !in s.runs && j in s.jobs && k in s.jobs && LastOk(s, k)
    ensures LastOk(ClaimJob(s, r, j), k)
  {
    var s' := ClaimJob(s, r, j);
    assert forall q :: q in s.runs ==> q in s'.runs && s'.runs[q] == s.runs[q];
    assert r in s'.runs && s'.runs[r].job == j;
  }

  lemma ClaimKeepsInv(s: State, r: Id, j: Id)
    requires Ownership.Inv(s) && Inv(s) && r !in s.runs && Free(s, j)
    ensures Inv(ClaimJob(s, r, j))
  {
    var s' := ClaimJob(s, r, j);
    forall k | k in s'.jobs ensures Holds(EvidenceOf(s', k), s', k) && LastOk(s', k) {
      ClaimKeepsEvidence(NumbersOf(s.attempts, k), AttemptedOf(s.ledger, k), s, r, j, k);
      ClaimKeepsLast(s, r, j, k);
    }
    forall q | q in s'.runs && !Writing(s'.runs[q])
      ensures s'.runs[q].job in s'.jobs && Holds(ClosingAt(ClosingOf(s'.runs[q])), s', s'.runs[q].job)
    {
      ClaimKeepsClosings(s, r, j, ClosingOf(s.runs[q]), s.runs[q].job);
    }
  }

  // ---------------------------------------------------------------- losing a run

  lemma LoseRunKeeps(P: JobProperty, s: State, r: Id, k: Id)
    requires Ownership.Inv(s) && r in s.runs && s.runs[r].job in s.jobs && k in s.jobs && Holds(P, s, k)
    requires forall t, w :: !Plain(t) ==> P(t, w)
    ensures Holds(P, LoseRun(s, r), k)
  {
    if k == s.runs[r].job {
      assert !Plain(LoseRun(s, r).jobs[k]);
    }
    LoseRunHolds(P, P, s, r, k);
  }

  lemma LoseRunKeepsLast(s: State, r: Id, k: Id)
    requires r in s.runs && s.runs[r].job in s.jobs && k in s.jobs && LastOk(s, k)
    ensures LastOk(LoseRun(s, r), k)
  {
    var s' := LoseRun(s, r);
    if k != s.runs[r].job {
      assert forall q :: q in s.runs && q != r ==> q in s'.runs && s'.runs[q] == s.runs[q];
    }
  }

  lemma LoseRunKeepsInv(s: State, r: Id)
    requires Ownership.Inv(s) && Inv(s) && r in s.runs && s.runs[r].job in s.jobs
    ensures Inv(LoseRun(s, r))
  {
    var s' := LoseRun(s, r);
    forall k | k in s'.jobs ensures Holds(EvidenceOf(s', k), s', k) && LastOk(s', k) {
      LoseRunKeeps(EvidenceOf(s, k), s, r, k);
      LoseRunKeepsLast(s, r, k);
    }
    forall q | q in s'.runs && !Writing(s'.runs[q])
      ensures s'.runs[q].job in s'.jobs && Holds(ClosingAt(ClosingOf(s'.runs[q])), s', s'.runs[q].job)
    {
      LoseRunKeeps(ClosingAt(ClosingOf(s.runs[q])), s, r, s.runs[q].job);
    }
  }

  // ---------------------------------------------------------------- the api process

  /** The api process never writes an entry that a worker could have written for a job. */
  lemma ApiMarks(s: State, a: Action)
    requires Told(s) && Enabled(s, a) && OfApi(a)
    ensures var entry := ApiAction(s, a).1.entry;
      entry.Some? ==> entry.value.job == None || !WorkerMark(entry.value.mark)
  {
  }

  lemma {:induction false} NoRows(s: State, attempts: seq<Attempt>, ledger: seq<LedgerEntry>, j: Id)
    requires j !in s.jobs
    requires forall i :: 0 <= i < |attempts| ==> attempts[i].job in s.jobs
    requires forall i :: 0 <= i < |ledger| ==> EntryLinked(s, ledger[i])
    ensures NumbersOf(attempts, j) == [] && AttemptedOf(ledger, j) == 0 && LastWorkerMark(ledger, j) == None
    decreases |attempts| + |ledger|
  {
    if |attempts| > 0 {
      NoRows(s, attempts[..|attempts| - 1], ledger, j);
    }
    if |ledger| > 0 {
      assert EntryLinked(s, ledger[|ledger| - 1]);
      NoRows(s, attempts, ledger[..|ledger| - 1], j);
    }
  }

  lemma ApiProjects(s: State, a: Action, j: Id)
    requires Told(s) && Enabled(s, a) && OfApi(a)
    ensures var s' := ApplyApi(s, ApiAction(s, a).0, ApiAction(s, a).1);
      && AttemptedOf(s'.ledger, j) == AttemptedOf(s.ledger, j)
      && LastWorkerMark(s'.ledger, j) == LastWorkerMark(s.ledger, j)
  {
    ApiMarks(s, a);
    var entry := ApiAction(s, a).1.entry;
    if entry.Some? {
      AppendEntry(s.ledger, entry.value, j);
    }
  }

  /** A job that was there keeps its record. */
  lemma ApiKeepsKnown(s: State, s': State, j: Id)
    requires Inv(s) && j in s.jobs && j in s'.jobs && s'.jobs[j] == s.jobs[j]
    requires s'.runs == s.runs && s'.attempts == s.attempts
    requires AttemptedOf(s'.ledger, j) == AttemptedOf(s.ledger, j)
    requires LastWorkerMark(s'.ledger, j) == LastWorkerMark(s.ledger, j)
    ensures Holds(EvidenceOf(s', j), s', j) && LastOk(s', j)
  {
    SameRunsHold(EvidenceOf(s, j), EvidenceOf(s', j), s, s', j);
    assert LastOk(s, j) && (Open(s', j) <==> Open(s, j));
  }

  lemma ApiKeepsEvidence(s: State, a: Action, j: Id)
    requires Context(s) && Inv(s) && Enabled(s, a) && OfApi(a)
    requires j in ApplyApi(s, ApiAction(s, a).0, ApiAction(s, a).1).jobs
    ensures var s' := ApplyApi(s, ApiAction(s, a).0, ApiAction(s, a).1);
      Holds(EvidenceOf(s', j), s', j) && LastOk(s', j)
  {
    var s' := ApplyApi(s, ApiAction(s, a).0, ApiAction(s, a).1);
    ApiKeepsJobs(s, a);
    ApiProjects(s, a, j);
    if j in s.jobs {
      ApiKeepsKnown(s, s', j);
    } else {
      NoRows(s, s.attempts, s.ledger, j);
      assert UpTo(0) == [];
      NewJobHolds(EvidenceOf(s', j), s, s', j);
    }
  }

  lemma ApiKeepsInv(s: State, a: Action)
    requires Context(s) && Inv(s) && Enabled(s, a) && OfApi(a)
    ensures Inv(ApplyApi(s, ApiAction(s, a).0, ApiAction(s, a).1))
  {
    var s' := ApplyApi(s, ApiAction(s, a).0, ApiAction(s, a).1);
    ApiKeepsJobs(s, a);
    forall j | j in s'.jobs ensures Holds(EvidenceOf(s', j), s', j) && LastOk(s', j) {
      ApiKeepsEvidence(s, a, j);
    }
    forall q | q in s'.runs && !Writing(s'.runs[q])
      ensures s'.runs[q].job in s'.jobs && Holds(ClosingAt(ClosingOf(s'.runs[q])), s', s'.runs[q].job)
    {
      var c := ClosingAt(ClosingOf(s.runs[q]));
      SameRunsHold(c, c, s, s', s.runs[q].job);
    }
  }

  // ---------------------------------------------------------------- all runs

  lemma IdleKeepsInv(s: State, seconds: nat, memory: ClaimTable.Claims)
    requires Inv(s)
    ensures Inv(Idle(s, seconds, memory))
  {
    var s' := Idle(s, seconds, memory);
    forall j | j in s.jobs ensures Holds(EvidenceOf(s', j), s', j) && LastOk(s', j) {
      SameRunsHold(EvidenceOf(s, j), EvidenceOf(s', j), s, s', j);
      assert LastOk(s, j) && (Open(s', j) <==> Open(s, j));
    }
    forall q | q in s'.runs && !Writing(s'.runs[q])
      ensures s'.runs[q].job in s'.jobs && Holds(ClosingAt(ClosingOf(s'.runs[q])), s', s'.runs[q].job)
    {
      var c := ClosingAt(ClosingOf(s.runs[q]));
      SameRunsHold(c, c, s, s', s.runs[q].job);
    }
  }

  lemma StepKeepsInv(backoff: seq<int>, s: State, a: Action, s': State)
    requires Context(s) && Inv(s) && Enabled(s, a) && Orderly(s, a) && s' == Do(backoff, s, a)
    ensures Inv(s')
  {
    match a {
      case Tick(seconds) =>
        IdleKeepsInv(s, seconds, s.memory);
        assert s' == Idle(s, seconds, s.memory);
      case StepRun(r, i) =>
        RunStepKeepsInv(backoff, s, r, i);
        assert s' == RunStep(backoff, s, r, i);
      case Claim(r, j) =>
        ClaimKeepsInv(s, r, j);
        assert s' == ClaimJob(s, r, j);
      case Crash(r) =>
        LoseRunKeepsInv(s, r);
        assert s' == LoseRun(s, r);
      case Restart =>
        IdleKeepsInv(s, 0, map[]);
        assert s' == Idle(s, 0, map[]);
      case _ =>
        ApiKeepsInv(s, a);
        assert s' == ApplyApi(s, ApiAction(s, a).0, ApiAction(s, a).1);
    }
  }

  lemma {:induction false} ContextOfRun(backoff: seq<int>, actions: seq<Action>)
    requires OrderlyRun(backoff, actions)
    ensures Context(Run(backoff, actions))
  {
    EveryRunIsLinked(backoff, actions);
    Ownership.EveryRunKeepsInv(backoff, actions);
    EveryRunIsCounted(backoff, actions);
  }

  lemma {:induction false} EveryRunKeepsInv(backoff: seq<int>, actions: seq<Action>)
    requires OrderlyRun(backoff, actions)
    ensures Inv(Run(backoff, actions))
  {
    if |actions| > 0 {
      var s, a := Run(backoff, actions[..|actions| - 1]), actions[|actions| - 1];
      EveryRunKeepsInv(backoff, actions[..|actions| - 1]);
      ContextOfRun(backoff, actions[..|actions| - 1]);
      if Enabled(s, a) {
        StepKeepsInv(backoff, s, a, Do(backoff, s, a));
      }
    }
  }

  /** A job without a key that lost no run and that no run is working on. */
  ghost predicate AtRest(s: State, j: Id) {
    j in s.jobs && Plain(s.jobs[j]) && !Open(s, j)
  }

  lemma OpenIfOwned(s: State, j: Id)
    ensures Owned(s, j) ==> Open(s, j)
  {
  }

  /**
    Such a job's attempt rows are numbered 1 to its attempt count in order, and the ledger holds
    exactly that many `delivery_attempted` entries for it.
   */
  lemma {:induction false} RowAndLedgerAgree(backoff: seq<int>, actions: seq<Action>, j: Id)
    requires OrderlyRun(backoff, actions)
    requires AtRest(Run(backoff, actions), j)
    ensures var s := Run(backoff, actions);
      && NumbersOf(s.attempts, j) == UpTo(s.jobs[j].row.attempts)
      && AttemptedOf(s.ledger, j) == s.jobs[j].row.attempts
      && s.jobs[j].row.status in {Queued, Retrying, Delivered, DeadLettered}
  {
    var s := Run(backoff, actions);
    EveryRunKeepsInv(backoff, actions);
    OpenIfOwned(s, j);
    assert EvidenceOf(s, j)(s.jobs[j], None);
  }

  /** The run that closed last is the one that made the last attempt. */
  ghost predicate ClosedInOrder(t: Tracked) {
    t.past.closed.Some? && t.past.closed.value.attempt == t.row.attempts
  }

  /** The ledger entry says what the row says. */
  predicate Names(mark: Option<Mark>, status: JobStatus) {
    || (mark == Some(MDelivered) && status == Delivered)
    || (mark == Some(MRetrying) && status == Retrying)
    || (mark == Some(MDeadLettered) && status == DeadLettered)
  }

  /**
    The last entry a worker wrote for such a job names the status of its row exactly when the run
    of the last attempt closed last, or the job is due for another attempt anyway.
   */
  lemma {:induction false} LastEntryNamesStatus(backoff: seq<int>, actions: seq<Action>, j: Id)
    requires OrderlyRun(backoff, actions)
    requires AtRest(Run(backoff, actions), j) && Run(backoff, actions).jobs[j].row.attempts > 0
    ensures var s := Run(backoff, actions);
      Names(LastWorkerMark(s.ledger, j), s.jobs[j].row.status) <==>
      ClosedInOrder(s.jobs[j]) || s.jobs[j].row.status == Retrying
  {
    var s := Run(backoff, actions);
    EveryRunKeepsInv(backoff, actions);
    OpenIfOwned(s, j);
    assert LastOk(s, j) && EvidenceOf(s, j)(s.jobs[j], None);
  }
}
