/**
  What each transaction of a request handler, and the recovery claim, leaves behind (main.py, lines
  180-231, 537-619 and 682-805, database/repository.py, lines 657-672, 963-992 and 1012-1142): the
  whole state after the step.
 */
module Handlers {
  import opened Dicts
  import opened Protocol

  /** Handler `a` goes on as `next`, or is done. */
  function Actors(s: State, a: Id, next: Option<Actor>): map<Id, Actor> {
    if next.Some? then s.actors[a := next.value] else s.actors - {a}
  }

  /** A new event is stored with its `received` entry, and its handler goes on to the verdict. */
  lemma ReceiptIsStored(backoff: seq<int>, s: State, a: Id, e: Id, account: nat, bridge: nat, status: EventStatus,
          key: Option<string>)
    requires a !in s.actors && e !in s.events && status in {Validated, Healed, Rejected, Uncertain}
    ensures Enabled(s, Receive(a, e, account, bridge, status, key))
    ensures Do(backoff, s, Receive(a, e, account, bridge, status, key)) ==
            s.(events := s.events[e := Event(account, bridge, status)],
               ledger := s.ledger + [LedgerEntry(e, None, account, bridge, MReceived, None)],
               actors := s.actors[a := Ingesting(e, status, key)])
  {
  }

  /** The entry of a verdict. */
  predicate VerdictEntry(status: EventStatus, mark: Mark) {
    || (status == Validated && mark == MValidated)
    || (status == Healed && mark == MHealed)
    || (status == Rejected && mark == MRejected)
    || (status == Uncertain && mark == MUncertain)
  }

  /**
    The verdict enters the ledger: a rejected event is done with, an uncertain one is put to the
    assistant, and any other gets a job with the key it came with.
   */
  lemma VerdictIsStored(backoff: seq<int>, s: State, a: Id, e: Id, status: EventStatus, key: Option<string>, i: Input,
          mark: Mark)
    requires a in s.actors && s.actors[a] == Ingesting(e, status, key) && e in s.events
    requires VerdictEntry(status, mark)
    ensures Enabled(s, StepActor(a, i))
    ensures Do(backoff, s, StepActor(a, i)) ==
            s.(ledger := s.ledger + [LedgerEntry(e, None, s.events[e].account, s.events[e].bridge, mark, None)],
               actors := Actors(s, a, if status == Rejected then None
                                      else if status == Uncertain then Some(AskingAi(e))
                                      else Some(Creating(e, key, FromIngest))))
  {
  }

  /** An accepted answer maps an event that is still uncertain; any other answer changes nothing. */
  lemma AnswerMaps(backoff: seq<int>, s: State, a: Id, e: Id, i: Input)
    requires a in s.actors && s.actors[a] == AskingAi(e) && e in s.events
    ensures Enabled(s, StepActor(a, i))
    ensures Do(backoff, s, StepActor(a, i)) ==
            if i.accepted && s.events[e].status == Uncertain then
              s.(events := s.events[e := Event(s.events[e].account, s.events[e].bridge, Healed)],
                 resolutions := s.resolutions + [Resolution(e, Some(FromAi))],
                 actors := s.actors[a := Creating(e, None, FromAi)])
            else s.(actors := s.actors - {a})
  {
  }

  /** An operator maps an uncertain event, and no other, and then creates its job without a key, or drops the event. */
  lemma OperatorResolves(backoff: seq<int>, s: State, a: Id, e: Id)
    requires a !in s.actors && e in s.events
    ensures Enabled(s, MapEvent(a, e)) <==> s.events[e].status == Uncertain
    ensures Enabled(s, DropEvent(a, e)) <==> s.events[e].status == Uncertain
    ensures s.events[e].status == Uncertain ==>
            Do(backoff, s, MapEvent(a, e)) ==
            s.(events := s.events[e := Event(s.events[e].account, s.events[e].bridge, Healed)],
               resolutions := s.resolutions + [Resolution(e, Some(FromOperator))],
               actors := s.actors[a := Creating(e, None, FromOperator)])
    ensures s.events[e].status == Uncertain ==>
            Do(backoff, s, DropEvent(a, e)) ==
            s.(events := s.events[e := Event(s.events[e].account, s.events[e].bridge, Dropped)],
               resolutions := s.resolutions + [Resolution(e, None)])
  {
  }

  /**
    The next step of a handler that releases an event adds its job: the event's account and bridge, the
    handler's key, no attempt yet, due at once.  After an ingestion the `queued` entry follows.
   */
  lemma JobIsCreated(backoff: seq<int>, s: State, a: Id, e: Id, key: Option<string>, origin: Origin, i: Input)
    requires a in s.actors && s.actors[a] == Creating(e, key, origin) && e in s.events && i.newId !in s.jobs
    ensures Enabled(s, StepActor(a, i))
    ensures var job := Job(e, s.events[e].account, s.events[e].bridge, key, None, 0, Queued, 0, s.now, s.now);
      Do(backoff, s, StepActor(a, i)) ==
      s.(jobs := s.jobs[i.newId := Tracked(job, Past(0, 0, [], [], None))],
         actors := Actors(s, a, if origin == FromIngest then Some(Announcing(i.newId, MQueued)) else None))
  {
  }

  /** The entry of a new job, which ends the handler. */
  lemma JobIsAnnounced(backoff: seq<int>, s: State, a: Id, j: Id, mark: Mark, i: Input)
    requires a in s.actors && s.actors[a] == Announcing(j, mark) && j in s.jobs
    ensures Enabled(s, StepActor(a, i))
    ensures var row := s.jobs[j].row;
      Do(backoff, s, StepActor(a, i)) ==
      s.(ledger := s.ledger + [LedgerEntry(row.event, Some(j), row.account, row.bridge, mark, None)],
         actors := s.actors - {a})
  {
  }

  /** A replay is accepted for a dead letter or a job due for a retry, and for no other. */
  lemma ReplayIsRead(backoff: seq<int>, s: State, a: Id, j: Id)
    requires a !in s.actors && j in s.jobs
    ensures Enabled(s, ReadReplay(a, j)) <==> s.jobs[j].row.status in {DeadLettered, Retrying}
    ensures Enabled(s, ReadReplay(a, j)) ==>
      Do(backoff, s, ReadReplay(a, j)) == s.(actors := s.actors[a := Replaying(j)])
  {
  }

  /**
    It becomes a new job, due at once, that points at the first job of its chain and counts one replay
    more; the old row stays as it is, and the `replayed` entry follows.
   */
  lemma ReplayIsCreated(backoff: seq<int>, s: State, a: Id, j: Id, i: Input)
    requires a in s.actors && s.actors[a] == Replaying(j) && j in s.jobs && i.newId !in s.jobs
    ensures Enabled(s, StepActor(a, i))
    ensures var row := s.jobs[j].row;
      var first := if row.original == None then j else row.original.value;
      var replay := Job(row.event, row.account, row.bridge, row.key, Some(first), row.replays + 1, Queued, 0, s.now,
                        s.now);
      Do(backoff, s, StepActor(a, i)) ==
      s.(jobs := s.jobs[i.newId := Tracked(replay, Past(0, 0, [], [], None))],
         actors := s.actors[a := Announcing(i.newId, MReplayed)])
  {
  }

  /**
    The recovery claim marks the row `delivering` and queues a run with the row's event, bridge, key and
    attempt count, never as a replay.
   */
  lemma ClaimQueuesRun(backoff: seq<int>, s: State, r: Id, j: Id)
    requires r !in s.runs && j in s.jobs
    ensures var row := s.jobs[j].row;
      && (Enabled(s, Claim(r, j)) <==>
            || (row.status in {Queued, Retrying} && row.nextAttempt <= s.now)
            || (row.status == Delivering && row.created + 300 <= s.now))
      && (Enabled(s, Claim(r, j)) ==>
            var claimed := s.jobs[j].(row := row.(status := Delivering),
                                      past := s.jobs[j].past.(claims := s.jobs[j].past.claims + 1));
            Do(backoff, s, Claim(r, j)) ==
            s.(runs := s.runs[r := WorkerRun(j, row.event, row.bridge, row.key, false, row.attempts, Waiting)],
               jobs := s.jobs[j := claimed]))
  {
  }

  // ---------------------------------------------------------------- two steps of one handler

  /** From an accepted answer to the queued job, in two steps. */
  lemma AnswerIsDelivered(backoff: seq<int>, s: State, a: Id, e: Id, i: Input, k: Input)
    requires a in s.actors && s.actors[a] == AskingAi(e) && e in s.events && s.events[e].status == Uncertain
    requires i.accepted && k.newId !in s.jobs
    ensures Enabled(s, StepActor(a, i)) && Enabled(Do(backoff, s, StepActor(a, i)), StepActor(a, k))
    ensures var s' := Do(backoff, Do(backoff, s, StepActor(a, i)), StepActor(a, k));
      && k.newId in s'.jobs && s'.events[e].status == Healed
      && s'.jobs[k.newId].row ==
         Job(e, s.events[e].account, s.events[e].bridge, None, None, 0, Queued, 0, s.now, s.now)
  {
  }
}
