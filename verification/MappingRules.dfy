/**
  Versioned mapping rules (database/repository.py, lines 326-489, and the proposal made by
  triage, lines 1114-1130): proposals, approvals, disables and rollbacks by concurrent
  transactions, and the snapshot of active rules that is stored with every event.

  A rule is identified by its position: rows are only ever added.
 */
module MappingRules {
  import opened Dicts

  datatype Status = Proposed | Approved | Active | Inactive | Rejected

  datatype Rule = Rule(account: nat, bridge: nat, source: string, destination: string, revision: nat, status: Status)

  type Table = seq<Rule>

  predicate OnField(r: Rule, bridge: nat, source: string) {
    r.bridge == bridge && r.source == source
  }

  /** Two rows rename the same field of the same bridge. */
  predicate SameField(r: Rule, q: Rule) {
    r.bridge == q.bridge && r.source == q.source
  }

  /** `coalesce(max(revision), 0)` over the rules of one field. */
  function MaxRevision(rules: Table, bridge: nat, source: string): nat {
    if |rules| == 0 then 0
    else
      var rest, last := MaxRevision(rules[..|rules| - 1], bridge, source), rules[|rules| - 1];
      if OnField(last, bridge, source) && last.revision > rest then last.revision else rest
  }

  // ---------------------------------------------------------------- invariants of the table

  /** The partial unique index `uq_mapping_rule_active_source`. */
  predicate OneActive(rules: Table) {
    forall i, j :: 0 <= i < j < |rules| && SameField(rules[i], rules[j]) ==>
      !(rules[i].status == Active && rules[j].status == Active)
  }

  /** The unique constraint `uq_mapping_rule_revision`. */
  ghost predicate RevisionsDiffer(rules: Table) {
    forall i, j :: 0 <= i < j < |rules| && SameField(rules[i], rules[j]) ==> rules[i].revision != rules[j].revision
  }

  ghost predicate HasRevision(rules: Table, bridge: nat, source: string, revision: int) {
    exists i :: 0 <= i < |rules| && OnField(rules[i], bridge, source) && rules[i].revision == revision
  }

  /** The revisions of a field are exactly 1, 2, ..., n. */
  ghost predicate RevisionsCount(rules: Table) {
    forall bridge, source, n :: HasRevision(rules, bridge, source, n) <==> 1 <= n <= MaxRevision(rules, bridge, source)
  }

  ghost predicate Valid(rules: Table) {
    OneActive(rules) && RevisionsDiffer(rules) && RevisionsCount(rules)
  }

  // ---------------------------------------------------------------- the operations, one at a time

  /** The account that a row gets when the code names none (`DEFAULT_ACCOUNT_ID`). */
  const DEFAULT_ACCOUNT: nat := 1

  function Propose(rules: Table, account: nat, bridge: nat, source: string, destination: string): Table {
    rules + [Rule(account, bridge, source, destination, MaxRevision(rules, bridge, source) + 1, Proposed)]
  }

  datatype Kind = Approve | Rollback

  /** Which statuses the operation accepts; anything else makes it return nothing. */
  predicate Accepts(kind: Kind, status: Status) {
    match kind
    case Approve => status == Proposed || status == Approved
    case Rollback => status == Inactive || status == Approved
  }

  predicate CanActivate(rules: Table, kind: Kind, id: nat, account: nat) {
    id < |rules| && rules[id].account == account && Accepts(kind, rules[id].status)
  }

  /** Row `id` becomes active and the rows in `seen` inactive. */
  function Switch(rules: Table, id: nat, seen: set<nat>): Table
    requires id < |rules|
  {
    seq(|rules|, i requires 0 <= i < |rules| =>
      if i == id then rules[i].(status := Active)
      else if i in seen then rules[i].(status := Inactive)
      else rules[i])
  }

  function ActiveRows(rules: Table, bridge: nat, source: string): set<nat> {
    set i | 0 <= i < |rules| && OnField(rules[i], bridge, source) && rules[i].status == Active
  }

  function Activate(rules: Table, id: nat): Table
    requires id < |rules|
  {
    Switch(rules, id, ActiveRows(rules, rules[id].bridge, rules[id].source))
  }

  predicate CanDisable(rules: Table, id: nat, account: nat) {
    id < |rules| && rules[id].account == account && rules[id].status == Active
  }

  function Disable(rules: Table, id: nat): Table
    requires id < |rules|
  {
    rules[id := rules[id].(status := Inactive)]
  }

  lemma {:induction false} MaxRevisionBounds(rules: Table, bridge: nat, source: string)
    ensures forall i :: 0 <= i < |rules| && OnField(rules[i], bridge, source) ==>
      rules[i].revision <= MaxRevision(rules, bridge, source)
  {
    if |rules| > 0 {
      MaxRevisionBounds(rules[..|rules| - 1], bridge, source);
    }
  }

  /** Only statuses differ. */
  ghost predicate SameRows(rules: Table, later: Table) {
    |rules| == |later| && forall i :: 0 <= i < |rules| ==> rules[i] == later[i].(status := rules[i].status)
  }

  lemma {:induction false} SameRowsSameMax(rules: Table, later: Table, bridge: nat, source: string)
    requires SameRows(rules, later)
    ensures MaxRevision(rules, bridge, source) == MaxRevision(later, bridge, source)
  {
    if |rules| > 0 {
      assert rules[|rules| - 1] == later[|rules| - 1].(status := rules[|rules| - 1].status);
      SameRowsSameMax(rules[..|rules| - 1], later[..|rules| - 1], bridge, source);
    }
  }

  lemma StatusChangeKeepsRevisions(rules: Table, later: Table)
    requires SameRows(rules, later) && RevisionsDiffer(rules) && RevisionsCount(rules)
    ensures RevisionsDiffer(later) && RevisionsCount(later)
  {
    forall i | 0 <= i < |rules|
      ensures forall b, s :: OnField(rules[i], b, s) <==> OnField(later[i], b, s)
      ensures rules[i].revision == later[i].revision
    {
      assert rules[i] == later[i].(status := rules[i].status);
    }
    forall bridge, source, n
      ensures HasRevision(later, bridge, source, n) <==> 1 <= n <= MaxRevision(later, bridge, source)
    {
      SameRowsSameMax(rules, later, bridge, source);
      assert HasRevision(later, bridge, source, n) <==> HasRevision(rules, bridge, source, n);
    }
    forall i, j | 0 <= i < j < |later| && SameField(later[i], later[j]) ensures later[i].revision != later[j].revision {
      assert SameField(rules[i], rules[j]);
    }
  }

  lemma ProposeKeepsValid(rules: Table, account: nat, bridge: nat, source: string, destination: string)
    requires Valid(rules)
    ensures Valid(Propose(rules, account, bridge, source, destination))
  {
    var later := Propose(rules, account, bridge, source, destination);
    assert later[..|rules|] == rules;
    MaxRevisionBounds(rules, bridge, source);
    forall b, s, n ensures HasRevision(later, b, s, n) <==> 1 <= n <= MaxRevision(later, b, s) {
      assert HasRevision(rules, b, s, n) <==> 1 <= n <= MaxRevision(rules, b, s);
      if HasRevision(rules, b, s, n) {
        var i :| 0 <= i < |rules| && OnField(rules[i], b, s) && rules[i].revision == n;
        assert later[i] == rules[i];
      }
      if OnField(later[|rules|], b, s) && n == later[|rules|].revision {
        assert HasRevision(later, b, s, n);
      }
    }
  }

  lemma ActivateKeepsValid(rules: Table, id: nat)
    requires Valid(rules) && id < |rules|
    ensures Valid(Activate(rules, id))
  {
    StatusChangeKeepsRevisions(rules, Activate(rules, id));
  }

  lemma DisableKeepsValid(rules: Table, id: nat)
    requires Valid(rules) && id < |rules|
    ensures Valid(Disable(rules, id))
  {
    StatusChangeKeepsRevisions(rules, Disable(rules, id));
  }

  // ---------------------------------------------------------------- the flush

  /** Whether the flush of one transaction writes a row before another; for rows, the order of their keys. */
  type Order = (nat, nat) -> bool

  /** The rows of `writes` take their new values one by one, and the index is checked after each. */
  function Flush(rules: Table, later: Table, writes: seq<nat>): Option<Table>
    requires |later| == |rules| && forall k :: 0 <= k < |writes| ==> writes[k] < |rules|
    decreases |writes|
  {
    if |writes| == 0 then Some(rules)
    else
      var next := rules[writes[0] := later[writes[0]]];
      if OneActive(next) then Flush(next, later, writes[1..]) else None
  }

  /** The rows that an activation writes, in the order of the flush. */
  function Writes(id: nat, active: Option<nat>, first: Order): seq<nat> {
    match active
    case None => [id]
    case Some(old_) => if first(id, old_) then [id, old_] else [old_, id]
  }

  /** The new row would become active before the old one is switched off. */
  predicate WrittenTooEarly(rules: Table, id: nat, first: Order)
    requires id < |rules|
  {
    exists i :: i in ActiveRows(rules, rules[id].bridge, rules[id].source) && first(id, i)
  }

  lemma NotBothActive(rules: Table, i: nat, j: nat)
    requires OneActive(rules) && i < |rules| && j < |rules| && SameField(rules[i], rules[j])
    ensures rules[i].status == Active && rules[j].status == Active ==> i == j
  {
    assert SameField(rules[j], rules[i]);
  }

  lemma ActivateSteps(rules: Table, id: nat, active: Option<nat>)
    requires id < |rules| && rules[id].status != Active
    requires ActiveRows(rules, rules[id].bridge, rules[id].source) == match active case Some(i) => {i} case None => {}
    ensures var off := if active.Some? then rules[active.value := rules[active.value].(status := Inactive)] else rules;
      Activate(rules, id) == off[id := off[id].(status := Active)]
    ensures active.Some? ==> active.value < |rules| && active.value != id && SameField(rules[id], rules[active.value])
  {
    if active.Some? {
      assert active.value in ActiveRows(rules, rules[id].bridge, rules[id].source);
    }
  }

  lemma FlushOne(rules: Table, later: Table, i: nat)
    requires |later| == |rules| && i < |rules| && OneActive(rules[i := later[i]])
    ensures Flush(rules, later, [i]) == Some(rules[i := later[i]])
  {
    assert [i][1..] == [];
  }

  lemma FlushTwo(rules: Table, later: Table, i: nat, j: nat)
    requires |later| == |rules| && i < |rules| && j < |rules|
    ensures Flush(rules, later, [i, j]) ==
            if OneActive(rules[i := later[i]]) then Flush(rules[i := later[i]], later, [j]) else None
  {
    assert [i, j][1..] == [j];
  }

  lemma FlushInOrder(rules: Table, id: nat, old_: nat)
    requires Valid(rules) && id < |rules| && rules[id].status != Active
    requires ActiveRows(rules, rules[id].bridge, rules[id].source) == {old_} && old_ < |rules|
    ensures Flush(rules, Activate(rules, id), [old_, id]) == Some(Activate(rules, id))
  {
    var later, next := Activate(rules, id), Disable(rules, old_);
    ActivateSteps(rules, id, Some(old_));
    DisableKeepsValid(rules, old_);
    ActivateKeepsValid(rules, id);
    FlushTwo(rules, later, old_, id);
    assert rules[old_ := later[old_]] == next && next[id := later[id]] == later;
    FlushOne(next, later, id);
  }

  lemma FlushTooEarly(rules: Table, id: nat, old_: nat)
    requires OneActive(rules) && id < |rules| && rules[id].status != Active
    requires ActiveRows(rules, rules[id].bridge, rules[id].source) == {old_} && old_ < |rules|
    ensures Flush(rules, Activate(rules, id), [id, old_]) == None
  {
    var next := rules[id := Activate(rules, id)[id]];
    ActivateSteps(rules, id, Some(old_));
    FlushTwo(rules, Activate(rules, id), id, old_);
    assert next[id].status == Active && next[old_].status == Active;
    assert !OneActive(next) by {
      assert SameField(next[id], next[old_]) && SameField(next[old_], next[id]);
    }
  }

  /**
    The flush of an activation meets the index exactly when it writes the new active row before
    the old one; otherwise it leaves the activated table.
   */
  lemma FlushIffInOrder(rules: Table, id: nat, active: Option<nat>, first: Order)
    requires Valid(rules) && id < |rules| && rules[id].status != Active
    requires ActiveRows(rules, rules[id].bridge, rules[id].source) == match active case Some(i) => {i} case None => {}
    ensures forall k :: 0 <= k < |Writes(id, active, first)| ==> Writes(id, active, first)[k] < |rules|
    ensures Flush(rules, Activate(rules, id), Writes(id, active, first)) ==
            if WrittenTooEarly(rules, id, first) then None else Some(Activate(rules, id))
  {
    ActivateSteps(rules, id, active);
    if active == None {
      ActivateKeepsValid(rules, id);
      FlushOne(rules, Activate(rules, id), id);
    } else if first(id, active.value) {
      assert active.value in ActiveRows(rules, rules[id].bridge, rules[id].source);
      FlushTooEarly(rules, id, active.value);
    } else {
      FlushInOrder(rules, id, active.value);
    }
  }

  /** How an operation on a rule ends: without a rule to act on, by the unique index, or committed. */
  datatype Ending = Refused | Aborted | Committed

  function EndingOf(rules: Table, kind: Kind, id: nat, account: nat, first: Order): Ending {
    if !CanActivate(rules, kind, id, account) then Refused
    else if WrittenTooEarly(rules, id, first) then Aborted
    else Committed
  }

  function TableAfter(rules: Table, kind: Kind, id: nat, account: nat, first: Order): Table {
    if EndingOf(rules, kind, id, account, first) == Committed then Activate(rules, id) else rules
  }

  // ---------------------------------------------------------------- what the operations come to, row by row

  /** Row `id` alone is active on its field, and every other row is as it was. */
  ghost predicate Replaces(rules: Table, later: Table, id: nat) {
    && |later| == |rules| && id < |rules|
    && forall i :: 0 <= i < |rules| ==>
         later[i] == if i == id then rules[i].(status := Active)
                     else if SameField(rules[i], rules[id]) && rules[i].status == Active
                     then rules[i].(status := Inactive)
                     else rules[i]
  }

  /** The row follows the highest revision of its field, and the first one is 1. */
  ghost predicate NextRevision(rules: Table, r: Rule) {
    && (forall i :: 0 <= i < |rules| && SameField(rules[i], r) ==> rules[i].revision < r.revision)
    && (r.revision == 1 ||
        exists i :: 0 <= i < |rules| && SameField(rules[i], r) && rules[i].revision == r.revision - 1)
  }

  /** The flush writes row `id` before the row of the field that is active. */
  ghost predicate Early(rules: Table, id: nat, first: Order) {
    id < |rules| &&
    exists i :: 0 <= i < |rules| && SameField(rules[i], rules[id]) && rules[i].status == Active && first(id, i)
  }

  lemma ActivateReplaces(rules: Table, id: nat)
    requires id < |rules|
    ensures Replaces(rules, Activate(rules, id), id)
  {
  }

  lemma EarlyIsWrittenTooEarly(rules: Table, id: nat, first: Order)
    requires id < |rules|
    ensures Early(rules, id, first) <==> WrittenTooEarly(rules, id, first)
  {
    if Early(rules, id, first) {
      var i :| 0 <= i < |rules| && SameField(rules[i], rules[id]) && rules[i].status == Active && first(id, i);
      assert i in ActiveRows(rules, rules[id].bridge, rules[id].source);
    }
  }

  lemma ProposeIsNext(rules: Table, account: nat, bridge: nat, source: string, destination: string)
    requires Valid(rules)
    ensures var rule := Rule(account, bridge, source, destination, MaxRevision(rules, bridge, source) + 1, Proposed);
      NextRevision(rules, rule)
  {
    MaxRevisionBounds(rules, bridge, source);
    var max := MaxRevision(rules, bridge, source);
    assert HasRevision(rules, bridge, source, max) <==> 1 <= max <= max;
  }

  // ---------------------------------------------------------------- the class of operations

  /** The rules of the database, changed one committed operation at a time. */
  class RuleStore {
    var rules: Table

    ghost predicate Consistent() reads this { Valid(rules) }

    constructor ()
      ensures rules == [] && Consistent()
    {
      rules := [];
    }

    method CreateMappingRule(account: nat, bridge: nat, source: string, destination: string) returns (rule: Rule)
      requires Consistent()
      modifies this
      ensures Consistent() && rules == Propose(old(rules), account, bridge, source, destination)
      ensures rules == old(rules) + [rule] && NextRevision(old(rules), rule)
      ensures rule == Rule(account, bridge, source, destination, rule.revision, Proposed)
      ensures !HasRevision(old(rules), bridge, source, rule.revision)
    {
      ProposeIsNext(rules, account, bridge, source, destination);
      ProposeKeepsValid(rules, account, bridge, source, destination);
      var revision := MaxRevision(rules, bridge, source) + 1;
      rule := Rule(account, bridge, source, destination, revision, Proposed);
      rules := rules + [rule];
    }

    /** `approve_mapping_rule`: the loop switches off every active row of the field, then the session is flushed. */
    method ApproveMappingRule(id: nat, account: nat, first: Order) returns (ending: Ending)
      requires Consistent()
      modifies this
      ensures Consistent() && ending == EndingOf(old(rules), Approve, id, account, first)
      ensures rules == TableAfter(old(rules), Approve, id, account, first)
      ensures ending != Refused <==>
        id < |old(rules)| && old(rules)[id].account == account && old(rules)[id].status in {Proposed, Approved}
      ensures ending == Aborted <==> ending != Refused && Early(old(rules), id, first)
      ensures if ending == Committed then Replaces(old(rules), rules, id) else rules == old(rules)
    {
      if id < |rules| {
        ActivateReplaces(rules, id);
        EarlyIsWrittenTooEarly(rules, id, first);
      }
      if !CanActivate(rules, Approve, id, account) {
        return Refused;
      }
      var changed := SwitchOffActive(rules, rules[id].bridge, rules[id].source);
      changed := changed[id := changed[id].(status := Active)];
      SwitchedOffAll(rules, id);
      var active := FindActive(rules, rules[id].bridge, rules[id].source);
      FlushIffInOrder(rules, id, active, first);
      var flushed := Flush(rules, changed, Writes(id, active, first));
      if flushed == None {
        return Aborted;
      }
      ActivateKeepsValid(rules, id);
      rules := flushed.value;
      return Committed;
    }

    method DisableMappingRule(id: nat, account: nat) returns (done: bool)
      requires Consistent()
      modifies this
      ensures Consistent() && done == CanDisable(old(rules), id, account)
      ensures done <==> id < |old(rules)| && old(rules)[id].account == account && old(rules)[id].status == Active
      ensures rules == if done then old(rules)[id := old(rules)[id].(status := Inactive)] else old(rules)
      ensures done ==> rules == Disable(old(rules), id)
    {
      done := CanDisable(rules, id, account);
      if done {
        DisableKeepsValid(rules, id);
        rules := rules[id := rules[id].(status := Inactive)];
      }
    }

    /** `rollback_mapping_rule`: `scalar_one_or_none` needs that there is at most one active row. */
    method RollbackMappingRule(id: nat, account: nat, first: Order) returns (ending: Ending)
      requires Consistent()
      modifies this
      ensures Consistent() && ending == EndingOf(old(rules), Rollback, id, account, first)
      ensures rules == TableAfter(old(rules), Rollback, id, account, first)
      ensures ending != Refused <==>
        id < |old(rules)| && old(rules)[id].account == account && old(rules)[id].status in {Inactive, Approved}
      ensures ending == Aborted <==> ending != Refused && Early(old(rules), id, first)
      ensures if ending == Committed then Replaces(old(rules), rules, id) else rules == old(rules)
    {
      if id < |rules| {
        ActivateReplaces(rules, id);
        EarlyIsWrittenTooEarly(rules, id, first);
      }
      if !CanActivate(rules, Rollback, id, account) {
        return Refused;
      }
      var active := FindActive(rules, rules[id].bridge, rules[id].source);
      ActivateSteps(rules, id, active);
      var changed := rules;
      if active.Some? {
        changed := changed[active.value := changed[active.value].(status := Inactive)];
      }
      changed := changed[id := changed[id].(status := Active)];
      FlushIffInOrder(rules, id, active, first);
      var flushed := Flush(rules, changed, Writes(id, active, first));
      if flushed == None {
        return Aborted;
      }
      ActivateKeepsValid(rules, id);
      rules := flushed.value;
      return Committed;
    }
  }

  /** The loop of an approval over the active rows of the field. */
  method SwitchOffActive(rules: Table, bridge: nat, source: string) returns (changed: Table)
    ensures changed == SwitchedOff(rules, bridge, source, |rules|)
  {
    changed := rules;
    for i := 0 to |rules|
      invariant changed == SwitchedOff(rules, bridge, source, i)
    {
      SwitchedOffStep(rules, bridge, source, i);
      if OnField(rules[i], bridge, source) && rules[i].status == Active {
        changed := changed[i := changed[i].(status := Inactive)];
      }
    }
  }

  /** The active rows of a field among the first `n` switched off. */
  ghost function SwitchedOff(rules: Table, bridge: nat, source: string, n: nat): Table {
    seq(|rules|, i requires 0 <= i < |rules| =>
      if i < n && i in ActiveRows(rules, bridge, source) then rules[i].(status := Inactive) else rules[i])
  }

  lemma SwitchedOffStep(rules: Table, bridge: nat, source: string, n: nat)
    requires n < |rules|
    ensures var now, next := SwitchedOff(rules, bridge, source, n), SwitchedOff(rules, bridge, source, n + 1);
      now[n] == rules[n] &&
      next == if OnField(rules[n], bridge, source) && rules[n].status == Active
              then now[n := now[n].(status := Inactive)] else now
  {
  }

  lemma SwitchedOffAll(rules: Table, id: nat)
    requires id < |rules|
    ensures var off := SwitchedOff(rules, rules[id].bridge, rules[id].source, |rules|);
      off[id := off[id].(status := Active)] == Activate(rules, id)
  {
  }

  /** The only active row of a field. */
  method FindActive(rules: Table, bridge: nat, source: string) returns (active: Option<nat>)
    requires OneActive(rules)
    ensures match active
      case Some(i) => ActiveRows(rules, bridge, source) == {i}
      case None => ActiveRows(rules, bridge, source) == {}
  {
    active := None;
    for i := 0 to |rules|
      invariant active.Some? ==> active.value < i && active.value in ActiveRows(rules, bridge, source)
      invariant active == None ==> forall k :: 0 <= k < i ==> k !in ActiveRows(rules, bridge, source)
    {
      if OnField(rules[i], bridge, source) && rules[i].status == Active {
        active := Some(i);
      }
    }
  }

  // ---------------------------------------------------------------- concurrent transactions

  /** A transaction between its statements.  `Locking` and `Seen` hold row locks. */
  datatype Txn =
    | Proposing(rule: Rule)
    | Locking(kind: Kind, id: nat)
    | Seen(kind: Kind, id: nat, active: set<nat>)

  datatype State = State(rules: Table, txns: map<nat, Txn>)

  function Held(txn: Txn): set<nat> {
    match txn
    case Proposing(_) => {}
    case Locking(_, id) => {id}
    case Seen(_, id, active) => {id} + active
  }

  ghost predicate Unlocked(s: State, t: nat, rows: set<nat>) {
    forall u :: u in s.txns && u != t ==> Held(s.txns[u]) !! rows
  }

  datatype Action =
    | ReadMax(t: nat, account: nat, bridge: nat, source: string, destination: string)
    | Insert(t: nat)
    | Lock(t: nat, kind: Kind, id: nat, account: nat)
    | LockActive(t: nat)
    | Commit(t: nat)
    | DisableRow(t: nat, id: nat, account: nat)
    | Abort(t: nat)

  ghost predicate Enabled(s: State, a: Action) {
    match a
    case ReadMax(t, _, _, _, _) => t !in s.txns
    case Insert(t) => t in s.txns && s.txns[t].Proposing?
    case Lock(t, kind, id, account) => t !in s.txns && Unlocked(s, t, {id}) && CanActivate(s.rules, kind, id, account)
    case LockActive(t) =>
      && t in s.txns && s.txns[t].Locking? && s.txns[t].id < |s.rules|
      && Unlocked(s, t, ActiveRows(s.rules, s.rules[s.txns[t].id].bridge, s.rules[s.txns[t].id].source))
    case Commit(t) => t in s.txns && s.txns[t].Seen? && s.txns[t].id < |s.rules|
    case DisableRow(t, id, account) => t !in s.txns && Unlocked(s, t, {id}) && CanDisable(s.rules, id, account)
    case Abort(t) => t in s.txns
  }

  /** The insert meets the unique constraint: someone else inserted that revision first. */
  ghost predicate Duplicate(rules: Table, r: Rule) {
    HasRevision(rules, r.bridge, r.source, r.revision)
  }

  ghost function Do(s: State, a: Action): State
    requires Enabled(s, a)
  {
    match a
    case ReadMax(t, account, bridge, source, destination) =>
      s.(txns := s.txns[t := Proposing(Rule(account, bridge, source, destination,
                                            MaxRevision(s.rules, bridge, source) + 1, Proposed))])
    case Insert(t) =>
      State(if Duplicate(s.rules, s.txns[t].rule) then s.rules else s.rules + [s.txns[t].rule], s.txns - {t})
    case Lock(t, kind, id, account) =>
      s.(txns := s.txns[t := Locking(kind, id)])
    case LockActive(t) =>
      var x := s.txns[t];
      s.(txns := s.txns[t := Seen(x.kind, x.id, ActiveRows(s.rules, s.rules[x.id].bridge, s.rules[x.id].source))])
    case Commit(t) =>
      var x := s.txns[t];
      var later := Switch(s.rules, x.id, x.active);
      State(if OneActive(later) then later else s.rules, s.txns - {t})
    case DisableRow(_, id, _) => s.(rules := Disable(s.rules, id))
    case Abort(t) => s.(txns := s.txns - {t})
  }

  /** Any number of actors: an action that is not enabled does nothing. */
  ghost function Run(actions: seq<Action>): State {
    if |actions| == 0 then State([], map[])
    else
      var s, a := Run(actions[..|actions| - 1]), actions[|actions| - 1];
      if Enabled(s, a) then Do(s, a) else s
  }

  ghost predicate Pending(rules: Table, txn: Txn) {
    match txn
    case Proposing(r) => r.status == Proposed && 1 <= r.revision <= MaxRevision(rules, r.bridge, r.source) + 1
    case Locking(kind, id) => id < |rules| && Accepts(kind, rules[id].status)
    case Seen(kind, id, active) =>
      && id < |rules| && Accepts(kind, rules[id].status)
      && active <= ActiveRows(rules, rules[id].bridge, rules[id].source)
  }

  ghost predicate Inv(s: State) {
    && Valid(s.rules)
    && (forall t :: t in s.txns ==> Pending(s.rules, s.txns[t]))
    && (forall t, u :: t in s.txns && u in s.txns && t != u ==> Held(s.txns[t]) !! Held(s.txns[u]))
  }

  lemma AddRuleKeepsPending(rules: Table, r: Rule, txn: Txn)
    requires Pending(rules, txn)
    ensures Pending(rules + [r], txn)
  {
  }

  /** A transaction that holds none of the changed rows is not disturbed. */
  lemma StatusChangeKeepsPending(rules: Table, later: Table, txn: Txn)
    requires Pending(rules, txn) && SameRows(rules, later)
    requires forall i :: i in Held(txn) && i < |rules| ==> later[i] == rules[i]
    ensures Pending(later, txn)
  {
    if txn.Proposing? {
      SameRowsSameMax(rules, later, txn.rule.bridge, txn.rule.source);
    }
  }

  /** The index lets the switch commit only if it has seen every active row. */
  lemma SwitchIsActivate(rules: Table, id: nat, active: set<nat>)
    requires id < |rules| && rules[id].status != Active
    requires active <= ActiveRows(rules, rules[id].bridge, rules[id].source)
    requires OneActive(Switch(rules, id, active))
    ensures Switch(rules, id, active) == Activate(rules, id)
  {
    forall i | i in ActiveRows(rules, rules[id].bridge, rules[id].source) ensures i in active {
      NotBothActive(Switch(rules, id, active), i, id);
    }
  }

  lemma InsertIsPropose(rules: Table, r: Rule)
    requires Valid(rules) && r.status == Proposed && !Duplicate(rules, r)
    requires 1 <= r.revision <= MaxRevision(rules, r.bridge, r.source) + 1
    ensures rules + [r] == Propose(rules, r.account, r.bridge, r.source, r.destination)
  {
  }

  // ---------------------------------------------------------------- every step of every run

  /** What one step does to the table: nothing, or one whole operation. */
  ghost predicate OneOperation(rules: Table, later: Table, a: Action, txns: map<nat, Txn>) {
    || later == rules
    || (a.Insert? && a.t in txns && txns[a.t].Proposing? && var r := txns[a.t].rule;
        later == Propose(rules, r.account, r.bridge, r.source, r.destination))
    || (a.Commit? && a.t in txns && txns[a.t].Seen? && txns[a.t].id < |rules| &&
        Accepts(txns[a.t].kind, rules[txns[a.t].id].status) && later == Activate(rules, txns[a.t].id))
    || (a.DisableRow? && CanDisable(rules, a.id, a.account) && later == Disable(rules, a.id))
  }

  lemma StepIsOneOperation(s: State, a: Action)
    requires Inv(s) && Enabled(s, a)
    ensures OneOperation(s.rules, Do(s, a).rules, a, s.txns)
  {
    if a.Insert? {
      if !Duplicate(s.rules, s.txns[a.t].rule) {
        InsertIsPropose(s.rules, s.txns[a.t].rule);
      }
    } else if a.Commit? {
      var x := s.txns[a.t];
      if OneActive(Switch(s.rules, x.id, x.active)) {
        SwitchIsActivate(s.rules, x.id, x.active);
      }
    }
  }

  lemma OperationKeepsValid(rules: Table, later: Table, a: Action, txns: map<nat, Txn>)
    requires Valid(rules) && OneOperation(rules, later, a, txns)
    ensures Valid(later)
  {
    if later != rules {
      match a {
        case Insert(t) =>
          var r := txns[t].rule;
          ProposeKeepsValid(rules, r.account, r.bridge, r.source, r.destination);
        case Commit(t) =>
          ActivateKeepsValid(rules, txns[t].id);
        case DisableRow(_, id, _) =>
          DisableKeepsValid(rules, id);
        case _ =>
      }
    }
  }

  lemma InsertKeepsPending(s: State, u: nat, t: nat)
    requires Inv(s) && Enabled(s, Insert(u)) && t in Do(s, Insert(u)).txns
    ensures Pending(Do(s, Insert(u)).rules, s.txns[t])
  {
    AddRuleKeepsPending(s.rules, s.txns[u].rule, s.txns[t]);
  }

  lemma CommitKeepsPending(s: State, u: nat, t: nat)
    requires u in s.txns && t in s.txns && s.txns[u].Seen? && s.txns[u].id < |s.rules|
    requires Pending(s.rules, s.txns[t]) && Held(s.txns[t]) !! Held(s.txns[u])
    ensures Pending(Switch(s.rules, s.txns[u].id, s.txns[u].active), s.txns[t])
  {
    StatusChangeKeepsPending(s.rules, Switch(s.rules, s.txns[u].id, s.txns[u].active), s.txns[t]);
  }

  lemma DisableKeepsPending(s: State, a: Action, t: nat)
    requires Inv(s) && Enabled(s, a) && a.DisableRow? && t in s.txns
    ensures Pending(Disable(s.rules, a.id), s.txns[t])
  {
    assert Held(s.txns[t]) !! {a.id};
    StatusChangeKeepsPending(s.rules, Disable(s.rules, a.id), s.txns[t]);
  }

  lemma StepKeepsPending(s: State, a: Action, t: nat)
    requires Inv(s) && Enabled(s, a) && t in Do(s, a).txns
    ensures Pending(Do(s, a).rules, Do(s, a).txns[t])
  {
    match a {
      case Insert(u) => InsertKeepsPending(s, u, t);
      case Commit(u) => CommitKeepsPending(s, u, t);
      case DisableRow(_, _, _) => DisableKeepsPending(s, a, t);
      case _ =>
    }
  }

  lemma StepKeepsLocksApart(s: State, a: Action, t: nat, u: nat)
    requires Inv(s) && Enabled(s, a) && t != u && t in Do(s, a).txns && u in Do(s, a).txns
    ensures Held(Do(s, a).txns[t]) !! Held(Do(s, a).txns[u])
  {
  }

  lemma StepKeepsInv(s: State, a: Action)
    requires Inv(s) && Enabled(s, a)
    ensures Inv(Do(s, a))
  {
    StepIsOneOperation(s, a);
    OperationKeepsValid(s.rules, Do(s, a).rules, a, s.txns);
    forall t | t in Do(s, a).txns ensures Pending(Do(s, a).rules, Do(s, a).txns[t]) {
      StepKeepsPending(s, a, t);
    }
    forall t, u | t in Do(s, a).txns && u in Do(s, a).txns && t != u
      ensures Held(Do(s, a).txns[t]) !! Held(Do(s, a).txns[u])
    {
      StepKeepsLocksApart(s, a, t, u);
    }
  }

  /**
    In every interleaving: each field has at most one active rule and its revisions are exactly
    1..n, and a rollback about to commit never met two active rows.
   */
  lemma {:induction false} EveryRunIsValid(actions: seq<Action>)
    ensures Inv(Run(actions))
    ensures forall t :: t in Run(actions).txns && Run(actions).txns[t].Seen? ==> |Run(actions).txns[t].active| <= 1
  {
    if |actions| > 0 {
      var init, a := actions[..|actions| - 1], actions[|actions| - 1];
      EveryRunIsValid(init);
      if Enabled(Run(init), a) {
        StepKeepsInv(Run(init), a);
      }
    }
    var s := Run(actions);
    forall t | t in s.txns && s.txns[t].Seen? ensures |s.txns[t].active| <= 1 {
      assert Pending(s.rules, s.txns[t]);
      AtMostOneRow(s.rules, s.txns[t].id, s.txns[t].active);
    }
  }

  lemma AtMostOneRow(rules: Table, id: nat, active: set<nat>)
    requires OneActive(rules) && id < |rules| && active <= ActiveRows(rules, rules[id].bridge, rules[id].source)
    ensures |active| <= 1
  {
    if i :| i in active {
      forall j | j in active ensures j == i {
        assert SameField(rules[i], rules[j]) && SameField(rules[j], rules[i]);
      }
      assert active == {i};
    }
  }

  /** Every step is one whole operation of the table: concurrent runs are sequential ones. */
  lemma {:induction false} EveryRunIsSequential(actions: seq<Action>, a: Action)
    ensures OneOperation(Run(actions).rules, Run(actions + [a]).rules, a, Run(actions).txns)
  {
    assert (actions + [a])[..|actions|] == actions;
    EveryRunIsValid(actions);
    if Enabled(Run(actions), a) {
      StepIsOneOperation(Run(actions), a);
    }
  }

  // ---------------------------------------------------------------- rows are immutable, snapshots explainable

  /** Later tables keep every row; only its status may change, and rows may be added. */
  ghost predicate Extends(later: Table, rules: Table) {
    |rules| <= |later| && forall i :: 0 <= i < |rules| ==> later[i].(status := rules[i].status) == rules[i]
  }

  lemma OperationExtends(rules: Table, later: Table, a: Action, txns: map<nat, Txn>)
    requires OneOperation(rules, later, a, txns)
    ensures Extends(later, rules)
  {
  }

  lemma {:induction false} RunsExtend(actions: seq<Action>, further: seq<Action>)
    ensures Extends(Run(actions + further).rules, Run(actions).rules)
    decreases |further|
  {
    if |further| == 0 {
      assert actions + further == actions;
    } else {
      var init, a := further[..|further| - 1], further[|further| - 1];
      RunsExtend(actions, init);
      assert actions + further == (actions + init) + [a];
      EveryRunIsSequential(actions + init, a);
      OperationExtends(Run(actions + init).rules, Run(actions + further).rules, a, Run(actions + init).txns);
    }
  }

  datatype Snapshot = Snapshot(mappings: map<string, string>, versions: map<string, nat>)

  /** `fetch_active_mapping_snapshot`: legacy mappings at version 0, overlaid by the active rules. */
  function FetchSnapshot(rules: Table, bridge: nat, legacy: map<string, string>): Snapshot {
    if |rules| == 0 then Snapshot(legacy, map source | source in legacy :: 0)
    else
      var s, r := FetchSnapshot(rules[..|rules| - 1], bridge, legacy), rules[|rules| - 1];
      if r.bridge == bridge && r.status == Active then
        Snapshot(s.mappings[r.source := r.destination], s.versions[r.source := r.revision])
      else s
  }

  /** The destination that revision `revision` of a field names. */
  function Resolve(rules: Table, bridge: nat, source: string, revision: nat): Option<string> {
    if |rules| == 0 then None
    else
      var r := rules[|rules| - 1];
      if OnField(r, bridge, source) && r.revision == revision then Some(r.destination)
      else Resolve(rules[..|rules| - 1], bridge, source, revision)
  }

  lemma {:induction false} ResolveFinds(rules: Table, i: nat, n: nat)
    requires i < n <= |rules| && RevisionsDiffer(rules)
    ensures Resolve(rules[..n], rules[i].bridge, rules[i].source, rules[i].revision) == Some(rules[i].destination)
    decreases n
  {
    assert rules[..n][..n - 1] == rules[..n - 1];
    if i < n - 1 {
      ResolveFinds(rules, i, n - 1);
      if SameField(rules[n - 1], rules[i]) {
        assert SameField(rules[i], rules[n - 1]);
      }
    }
  }

  /** A positive version in a snapshot comes from an active row; version 0 from a legacy mapping. */
  lemma {:induction false} SnapshotRows(rules: Table, bridge: nat, legacy: map<string, string>, source: string)
    requires source in FetchSnapshot(rules, bridge, legacy).versions
    ensures var s := FetchSnapshot(rules, bridge, legacy);
      && source in s.mappings
      && ((s.versions[source] == 0 && source in legacy && s.mappings[source] == legacy[source]) ||
          exists i :: 0 <= i < |rules| && OnField(rules[i], bridge, source) && rules[i].status == Active &&
                      rules[i].revision == s.versions[source] && rules[i].destination == s.mappings[source])
    decreases |rules|
  {
    if |rules| > 0 {
      var init, r := rules[..|rules| - 1], rules[|rules| - 1];
      if !(OnField(r, bridge, source) && r.status == Active) {
        SnapshotRows(init, bridge, legacy, source);
        var s := FetchSnapshot(init, bridge, legacy);
        if i :| 0 <= i < |init| && OnField(init[i], bridge, source) && init[i].status == Active &&
                init[i].revision == s.versions[source] && init[i].destination == s.mappings[source] {
          assert rules[i] == init[i];
        }
      }
    }
  }

  /** The active row of a field decides what the snapshot says about it, whatever the legacy mappings hold. */
  lemma {:induction false} ActiveRowWins(rules: Table, bridge: nat, legacy: map<string, string>, i: nat)
    requires OneActive(rules) && i < |rules| && rules[i].bridge == bridge && rules[i].status == Active
    ensures var s := FetchSnapshot(rules, bridge, legacy);
      && rules[i].source in s.mappings && s.mappings[rules[i].source] == rules[i].destination
      && rules[i].source in s.versions && s.versions[rules[i].source] == rules[i].revision
    decreases |rules|
  {
    var init, last := rules[..|rules| - 1], rules[|rules| - 1];
    if i < |rules| - 1 {
      ActiveRowWins(init, bridge, legacy, i);
      if SameField(rules[i], last) {
        NotBothActive(rules, i, |rules| - 1);
      }
    }
  }

  /** Without an active row the legacy mapping of the field stands, at version 0, if there is one. */
  lemma {:induction false} LegacyStands(rules: Table, bridge: nat, legacy: map<string, string>, source: string)
    requires forall i :: 0 <= i < |rules| && rules[i].bridge == bridge && rules[i].source == source ==>
      rules[i].status != Active
    ensures var s := FetchSnapshot(rules, bridge, legacy);
      && (source in s.mappings <==> source in legacy) && (source in s.versions <==> source in legacy)
      && (source in legacy ==> s.mappings[source] == legacy[source] && s.versions[source] == 0)
    decreases |rules|
  {
    if |rules| > 0 {
      LegacyStands(rules[..|rules| - 1], bridge, legacy, source);
    }
  }

  /**
    Whatever proposals, approvals, disables and rollbacks come later, every versioned pair saved
    with an event still resolves to the destination that was active when the event came in.
   */
  lemma {:induction false} HistoryStaysExplainable(actions: seq<Action>, further: seq<Action>, bridge: nat,
          legacy: map<string, string>, source: string)
    requires var s := FetchSnapshot(Run(actions).rules, bridge, legacy); source in s.versions && s.versions[source] > 0
    ensures var s := FetchSnapshot(Run(actions).rules, bridge, legacy);
      && source in s.mappings
      && Resolve(Run(actions + further).rules, bridge, source, s.versions[source]) == Some(s.mappings[source])
  {
    var rules, later := Run(actions).rules, Run(actions + further).rules;
    var s := FetchSnapshot(rules, bridge, legacy);
    SnapshotRows(rules, bridge, legacy, source);
    var i :| 0 <= i < |rules| && OnField(rules[i], bridge, source) && rules[i].status == Active &&
             rules[i].revision == s.versions[source] && rules[i].destination == s.mappings[source];
    RunsExtend(actions, further);
    EveryRunIsValid(actions + further);
    assert later[i].(status := rules[i].status) == rules[i];
    ResolveFinds(later, i, |later|);
    assert later[..|later|] == later;
  }

  /** Tables that differ only in which non-active status some rows have give the same snapshot. */
  lemma {:induction false} SnapshotOfActiveRows(rules: Table, later: Table, bridge: nat, legacy: map<string, string>)
    requires SameRows(rules, later)
    requires forall i :: 0 <= i < |rules| ==> (rules[i].status == Active <==> later[i].status == Active)
    ensures FetchSnapshot(rules, bridge, legacy) == FetchSnapshot(later, bridge, legacy)
    decreases |rules|
  {
    if |rules| > 0 {
      assert rules[|rules| - 1] == later[|rules| - 1].(status := rules[|rules| - 1].status);
      SnapshotOfActiveRows(rules[..|rules| - 1], later[..|rules| - 1], bridge, legacy);
    }
  }

  /** Approving a replacement and rolling back to the old rule restores the whole snapshot. */
  lemma RollbackRestores(rules: Table, old_: nat, new_: nat, account: nat, bridge: nat, legacy: map<string, string>)
    requires Valid(rules) && old_ < |rules| && rules[old_].status == Active && rules[old_].account == account
    requires CanActivate(rules, Approve, new_, account) && SameField(rules[old_], rules[new_])
    ensures var approved := Activate(rules, new_);
      && CanActivate(approved, Rollback, old_, account)
      && FetchSnapshot(Activate(approved, old_), bridge, legacy) == FetchSnapshot(rules, bridge, legacy)
  {
    var approved := Activate(rules, new_);
    var restored := Activate(approved, old_);
    forall i | 0 <= i < |rules| ensures rules[i].status == Active <==> restored[i].status == Active {
      if OnField(rules[i], rules[old_].bridge, rules[old_].source) && i != old_ {
        assert SameField(rules[i], rules[old_]) && SameField(rules[old_], rules[i]);
        assert SameField(rules[i], rules[new_]);
      }
    }
    SnapshotOfActiveRows(rules, restored, bridge, legacy);
  }

  /** The order of the rows' primary keys, which a flush follows. */
  function ByKey(key: nat -> nat): Order {
    (i: nat, j: nat) => key(i) < key(j)
  }

  /**
    A flush that follows the primary keys lets either the approval of the replacement or the
    rollback to the old rule through, never both: when one writes its rows in the harmless order,
    the other does not.
   */
  lemma ReplaceOrRollBack(rules: Table, old_: nat, new_: nat, account: nat, key: nat -> nat)
    requires Valid(rules) && old_ < |rules| && rules[old_].status == Active && rules[old_].account == account
    requires CanActivate(rules, Approve, new_, account) && SameField(rules[old_], rules[new_]) && key(old_) != key(new_)
    ensures var first := ByKey(key);
      && (EndingOf(rules, Approve, new_, account, first) == Committed <==> key(old_) < key(new_))
      && (EndingOf(Activate(rules, new_), Rollback, old_, account, first) == Committed <==> key(new_) < key(old_))
  {
    var approved := Activate(rules, new_);
    ActivateKeepsValid(rules, new_);
    OnlyActiveRow(rules, old_);
    OnlyActiveRow(approved, new_);
    assert ActiveRows(rules, rules[new_].bridge, rules[new_].source) == {old_};
    assert ActiveRows(approved, approved[old_].bridge, approved[old_].source) == {new_};
  }

  lemma OnlyActiveRow(rules: Table, i: nat)
    requires OneActive(rules) && i < |rules| && rules[i].status == Active
    ensures ActiveRows(rules, rules[i].bridge, rules[i].source) == {i}
  {
    forall j | j in ActiveRows(rules, rules[i].bridge, rules[i].source) ensures j == i {
      NotBothActive(rules, j, i);
    }
  }

  lemma DisabledAlready(rules: Table, active: nat, id: nat)
    requires id < |rules| && active < |rules| && id != active
    requires ActiveRows(rules, rules[id].bridge, rules[id].source) == {active}
    ensures var disabled := Disable(rules, active);
      && ActiveRows(disabled, disabled[id].bridge, disabled[id].source) == {}
      && Activate(disabled, id) == Activate(rules, id)
  {
    var disabled := Disable(rules, active);
    assert disabled[id] == rules[id] && disabled[active].status == Inactive;
    forall i: nat | i < |rules| && i != active
      ensures i !in ActiveRows(disabled, rules[id].bridge, rules[id].source)
    {
      assert disabled[i] == rules[i] && i !in ActiveRows(rules, rules[id].bridge, rules[id].source);
    }
  }

  /** Disabling the replacement first always works, and restores the snapshot just the same. */
  lemma DisableThenRollbackRestores(rules: Table, old_: nat, new_: nat, account: nat, bridge: nat,
                                    legacy: map<string, string>, first: Order)
    requires Valid(rules) && old_ < |rules| && rules[old_].status == Active && rules[old_].account == account
    requires CanActivate(rules, Approve, new_, account) && SameField(rules[old_], rules[new_])
    ensures var approved := Activate(rules, new_);
      && CanDisable(approved, new_, account)
      && EndingOf(Disable(approved, new_), Rollback, old_, account, first) == Committed
      && FetchSnapshot(Activate(Disable(approved, new_), old_), bridge, legacy) == FetchSnapshot(rules, bridge, legacy)
  {
    var approved := Activate(rules, new_);
    RollbackRestores(rules, old_, new_, account, bridge, legacy);
    ActivateKeepsValid(rules, new_);
    OnlyActiveRow(approved, new_);
    DisabledAlready(approved, new_, old_);
  }

  // ---------------------------------------------------------------- proposals made by triage

  /**
    The read of the revision by a triage proposal, which names no account (database/repository.py,
    lines 1114-1130).
   */
  function TriageRead(t: nat, bridge: nat, source: string, destination: string): Action {
    ReadMax(t, DEFAULT_ACCOUNT, bridge, source, destination)
  }

  /** Once a row is there, an operation accepts it later only for the account it was made with. */
  lemma {:induction false} AcceptedForItsAccount(actions: seq<Action>, further: seq<Action>, id: nat, account: nat,
          kind: Kind)
    requires id < |Run(actions).rules|
    ensures var rules, later := Run(actions).rules, Run(actions + further).rules;
      && id < |later|
      && (CanActivate(later, kind, id, account) <==> account == rules[id].account && Accepts(kind, later[id].status))
      && (CanDisable(later, id, account) <==> account == rules[id].account && later[id].status == Active)
  {
    RunsExtend(actions, further);
    var rules, later := Run(actions).rules, Run(actions + further).rules;
    assert later[id].(status := rules[id].status) == rules[id];
  }

  lemma RunSnoc(actions: seq<Action>, a: Action)
    requires Enabled(Run(actions), a)
    ensures Run(actions + [a]) == Do(Run(actions), a)
  {
    assert (actions + [a])[..|actions|] == actions;
  }

  /**
    A proposal made by triage is added, and whatever happens later only the default account can
    approve, roll back or disable it: not the account of the event, unless that is the default one.
   */
  lemma {:induction false} TriageProposalIsForeign(actions: seq<Action>, t: nat, bridge: nat, source: string,
          destination: string, further: seq<Action>, account: nat, kind: Kind)
    requires t !in Run(actions).txns
    ensures var read := TriageRead(t, bridge, source, destination);
      var rules, later := Run(actions).rules, Run(actions + [read] + [Insert(t)] + further).rules;
      var id := |rules|;
      && id < |later| && OnField(later[id], bridge, source) && later[id].destination == destination
      && (CanActivate(later, kind, id, account) <==> account == DEFAULT_ACCOUNT && Accepts(kind, later[id].status))
      && (CanDisable(later, id, account) <==> account == DEFAULT_ACCOUNT && later[id].status == Active)
  {
    var read := TriageRead(t, bridge, source, destination);
    EveryRunIsValid(actions);
    RunSnoc(actions, read);
    RunSnoc(actions + [read], Insert(t));
    var added := actions + [read] + [Insert(t)];
    var rules := Run(actions).rules;
    assert !HasRevision(rules, bridge, source, MaxRevision(rules, bridge, source) + 1);
    assert Run(added).rules == Propose(rules, DEFAULT_ACCOUNT, bridge, source, destination);
    AcceptedForItsAccount(added, further, |rules|, account, kind);
    RunsExtend(added, further);
    assert Run(added + further).rules[|rules|].(status := Proposed) == Run(added).rules[|rules|];
  }

  /** Account 7 maps `sku_no` in triage and cannot approve the rule it has proposed; the default account can. */
  lemma TriageProposalOfAnother()
    ensures var rules := Run([] + [TriageRead(0, 3, "sku_no", "stock_count")] + [Insert(0)]).rules;
      && rules == [Rule(DEFAULT_ACCOUNT, 3, "sku_no", "stock_count", 1, Proposed)]
      && !CanActivate(rules, Approve, 0, 7) && CanActivate(rules, Approve, 0, DEFAULT_ACCOUNT)
  {
    var read := TriageRead(0, 3, "sku_no", "stock_count");
    var rule := Rule(DEFAULT_ACCOUNT, 3, "sku_no", "stock_count", 1, Proposed);
    RunSnoc([], read);
    assert Run([] + [read]) == State([], map[0 := Proposing(rule)]);
    RunSnoc([] + [read], Insert(0));
    assert Run([] + [read] + [Insert(0)]).rules == [rule];
  }

  // ---------------------------------------------------------------- transactions that nothing disturbs

  /** An approval or a rollback that runs alone has its whole effect. */
  lemma AloneItActivates(s: State, t: nat, kind: Kind, id: nat, account: nat)
    requires Inv(s) && s.txns == map[] && CanActivate(s.rules, kind, id, account)
    ensures Enabled(s, Lock(t, kind, id, account))
    ensures var locked := Do(s, Lock(t, kind, id, account));
      && Enabled(locked, LockActive(t))
      && var seen := Do(locked, LockActive(t));
         && Enabled(seen, Commit(t))
         && Do(seen, Commit(t)) == State(Activate(s.rules, id), map[])
  {
    ActivateKeepsValid(s.rules, id);
  }

  /** A proposal that runs alone is added. */
  lemma AloneItProposes(s: State, t: nat, account: nat, bridge: nat, source: string, destination: string)
    requires Inv(s) && s.txns == map[]
    ensures Enabled(s, ReadMax(t, account, bridge, source, destination))
    ensures var read := Do(s, ReadMax(t, account, bridge, source, destination));
      && Enabled(read, Insert(t))
      && Do(read, Insert(t)) == State(Propose(s.rules, account, bridge, source, destination), map[])
  {
    assert !HasRevision(s.rules, bridge, source, MaxRevision(s.rules, bridge, source) + 1);
  }

  /** A disable that runs alone takes effect. */
  lemma AloneItDisables(s: State, t: nat, id: nat, account: nat)
    requires Inv(s) && s.txns == map[] && CanDisable(s.rules, id, account)
    ensures Enabled(s, DisableRow(t, id, account))
    ensures Do(s, DisableRow(t, id, account)) == State(Disable(s.rules, id), map[])
  {
  }
}
