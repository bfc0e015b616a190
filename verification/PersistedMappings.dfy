/**
  The active mapping rules applied to a payload (core/algorithms.py, lines 115-128), undoing
  them, and the dry run of the same rules (main.py, lines 473-484).
 */
module PersistedMappings {
  import opened Dicts
  import opened JsonTrees
  import opened Normalizer

  /** The rules of a bridge: source field to destination field, in stored order. */
  type Rules = Dict<string>

  datatype Applied<V> = Applied(payload: Dict<V>, applied: Rules)

  function ApplyRule<V>(acc: Applied<V>, rule: Entry<string>): Applied<V> {
    var value := Get(acc.payload, rule.key);
    if value == None || Has(acc.payload, rule.value) then acc
    else Applied(Put(Remove(acc.payload, rule.key), rule.value, value.value), Put(acc.applied, rule.key, rule.value))
  }

  function ApplyRules<V>(payload: Dict<V>, rules: Rules): Applied<V> {
    if |rules| == 0 then Applied(payload, [])
    else ApplyRule(ApplyRules(payload, rules[..|rules| - 1]), rules[|rules| - 1])
  }

  method ApplyPersistedMappings<V>(payload: Dict<V>, rules: Rules) returns (mapped: Dict<V>, applied: Rules)
    ensures Applied(mapped, applied) == ApplyRules(payload, rules)
  {
    mapped, applied := payload, [];
    for n := 0 to |rules|
      invariant Applied(mapped, applied) == ApplyRules(payload, rules[..n])
    {
      assert rules[..n + 1][..n] == rules[..n];
      var source, target := rules[n].key, rules[n].value;
      GetIsHas(mapped, source);
      if !Has(mapped, source) || Has(mapped, target) {
        continue;
      }
      mapped := Put(Remove(mapped, source), target, Get(mapped, source).value);
      applied := Put(applied, source, target);
    }
    assert rules[..|rules|] == rules;
  }

  /** One rename taken back. */
  function UndoOne<V>(payload: Dict<V>, rule: Entry<string>): Dict<V> {
    var value := Get(payload, rule.value);
    if value == None then payload else Put(Remove(payload, rule.value), rule.key, value.value)
  }

  /** The applied renames taken back, the last one first. */
  function Undo<V>(payload: Dict<V>, applied: Rules): Dict<V>
    decreases |applied|
  {
    if |applied| == 0 then payload
    else Undo(UndoOne(payload, applied[|applied| - 1]), applied[..|applied| - 1])
  }

  // ---------------------------------------------------------------- one rename

  lemma GetRename<V>(d: Dict<V>, source: string, target: string, v: V)
    requires Unique(d)
    ensures Unique(Put(Remove(d, source), target, v))
    ensures forall k :: Get(Put(Remove(d, source), target, v), k) ==
                        if k == target then Some(v) else if k == source then None else Get(d, k)
  {
    forall k ensures Get(Put(Remove(d, source), target, v), k) ==
                     if k == target then Some(v) else if k == source then None else Get(d, k) {
      GetRemove(d, source, k);
      GetPut(Remove(d, source), target, v, k);
    }
    GetRemove(d, source, source);
    PutUnique(Remove(d, source), target, v);
  }

  lemma UndoOneRestores<V>(d: Dict<V>, rule: Entry<string>)
    requires Unique(d) && Get(d, rule.key).Some? && !Has(d, rule.value)
    ensures var after := Put(Remove(d, rule.key), rule.value, Get(d, rule.key).value);
      SameItems(UndoOne(after, rule), d)
  {
    GetIsHas(d, rule.value);
    var v := Get(d, rule.key).value;
    var after := Put(Remove(d, rule.key), rule.value, v);
    GetRename(d, rule.key, rule.value, v);
    GetRename(after, rule.value, rule.key, v);
  }

  lemma UndoOneSame<V>(d: Dict<V>, e: Dict<V>, rule: Entry<string>)
    requires Unique(d) && Unique(e) && SameItems(d, e)
    ensures Unique(UndoOne(d, rule)) && Unique(UndoOne(e, rule)) && SameItems(UndoOne(d, rule), UndoOne(e, rule))
  {
    assert Get(d, rule.value) == Get(e, rule.value);
    if Get(d, rule.value).Some? {
      GetRename(d, rule.value, rule.key, Get(d, rule.value).value);
      GetRename(e, rule.value, rule.key, Get(e, rule.value).value);
    }
  }

  lemma {:induction false} UndoSame<V>(d: Dict<V>, e: Dict<V>, applied: Rules)
    requires Unique(d) && Unique(e) && SameItems(d, e)
    ensures SameItems(Undo(d, applied), Undo(e, applied))
    decreases |applied|
  {
    if |applied| > 0 {
      var rule := applied[|applied| - 1];
      UndoOneSame(d, e, rule);
      UndoSame(UndoOne(d, rule), UndoOne(e, rule), applied[..|applied| - 1]);
    }
  }

  lemma {:induction false} ValuesOfRemove<V>(d: Dict<V>, k: string)
    requires Has(d, k)
    ensures Get(d, k).Some?
    ensures multiset(Values(d)) == multiset(Values(Remove(d, k))) + multiset{Get(d, k).value}
  {
    GetIsHas(d, k);
    var rest := d[1..];
    assert Values(d) == [d[0].value] + Values(rest);
    if d[0].key != k {
      GetIsHas(rest, k);
      ValuesOfRemove(rest, k);
      assert Values(Remove(d, k)) == [d[0].value] + Values(Remove(rest, k));
    }
  }

  lemma RenameKeepsValues<V>(d: Dict<V>, source: string, target: string)
    requires Unique(d) && Has(d, source) && !Has(d, target)
    ensures Get(d, source).Some?
    ensures var after := Put(Remove(d, source), target, Get(d, source).value);
      |after| == |d| && multiset(Values(after)) == multiset(Values(d))
  {
    ValuesOfRemove(d, source);
    var rest, v := Remove(d, source), Get(d, source).value;
    GetRemove(d, source, target);
    GetIsHas(d, target);
    GetIsHas(rest, target);
    PutFresh(rest, target, v);
    assert Values(rest + [Entry(target, v)]) == Values(rest) + [v];
  }

  // ---------------------------------------------------------------- all the rules

  lemma {:induction false} AppliedAreRules<V>(payload: Dict<V>, rules: Rules, k: string)
    requires Has(ApplyRules(payload, rules).applied, k)
    ensures Has(rules, k)
  {
    if |rules| > 0 {
      var rule, before := rules[|rules| - 1], ApplyRules(payload, rules[..|rules| - 1]);
      PutHas(before.applied, rule.key, rule.value, k);
      if Has(before.applied, k) {
        AppliedAreRules(payload, rules[..|rules| - 1], k);
      }
    }
  }

  /**
    For every order of the rules, chains included: no value is lost or copied, the payload keeps
    its size, and taking the applied renames back in reverse order restores it.
   */
  lemma {:induction false} RenamesAreReversible<V>(payload: Dict<V>, rules: Rules)
    requires Unique(payload) && Unique(rules)
    ensures var r := ApplyRules(payload, rules);
      && Unique(r.payload)
      && |r.payload| == |payload|
      && multiset(Values(r.payload)) == multiset(Values(payload))
      && SameItems(Undo(r.payload, r.applied), payload)
    decreases |rules|
  {
    if |rules| > 0 {
      var init, rule := rules[..|rules| - 1], rules[|rules| - 1];
      RenamesAreReversible(payload, init);
      var before := ApplyRules(payload, init);
      GetIsHas(before.payload, rule.key);
      if Has(before.payload, rule.key) && !Has(before.payload, rule.value) {
        RenameKeepsValues(before.payload, rule.key, rule.value);
        var after := Put(Remove(before.payload, rule.key), rule.value, Get(before.payload, rule.key).value);
        GetRename(before.payload, rule.key, rule.value, Get(before.payload, rule.key).value);
        if Has(before.applied, rule.key) {
          AppliedAreRules(payload, init, rule.key);
        }
        PutFresh(before.applied, rule.key, rule.value);
        assert (before.applied + [rule])[..|before.applied|] == before.applied;
        UndoOneRestores(before.payload, rule);
        UndoOneSame(after, after, rule);
        UndoSame(UndoOne(after, rule), before.payload, before.applied);
      }
    }
  }

  // ---------------------------------------------------------------- the dry run

  datatype Change = Change(source: string, destination: string, value: Json)

  datatype DryRun = DryRun(output: Dict<Json>, changes: seq<Change>)

  function DryRunRule(acc: DryRun, rule: Entry<string>): DryRun {
    var value := Get(acc.output, rule.key);
    if value.Some? && !Has(acc.output, rule.value) then
      DryRun(Put(Remove(acc.output, rule.key), rule.value, value.value),
             acc.changes + [Change(rule.key, rule.value, value.value)])
    else acc
  }

  function DryRunRules(payload: Dict<Json>, rules: Rules): DryRun {
    if |rules| == 0 then DryRun(payload, [])
    else DryRunRule(DryRunRules(payload, rules[..|rules| - 1]), rules[|rules| - 1])
  }

  method TestBridgeMapping(payload: Dict<Json>, rules: Rules) returns (output: Dict<Json>, changes: seq<Change>)
    ensures DryRun(output, changes) == DryRunRules(payload, rules)
  {
    output, changes := payload, [];
    for n := 0 to |rules|
      invariant DryRun(output, changes) == DryRunRules(payload, rules[..n])
    {
      assert rules[..n + 1][..n] == rules[..n];
      var source, destination := rules[n].key, rules[n].value;
      GetIsHas(output, source);
      if Has(output, source) && !Has(output, destination) {
        var value := Get(output, source).value;
        output := Remove(output, source);
        output := Put(output, destination, value);
        changes := changes + [Change(source, destination, value)];
      }
    }
    assert rules[..|rules|] == rules;
  }

  lemma NormalizeHas(py: Python, d: Dict<Json>, k: string)
    ensures Has(NormalizePayload(py, d), k) <==> Has(d, k)
    ensures Get(NormalizePayload(py, d), k) ==
            match Get(d, k) case Some(v) => Some(NormalizeValue(py, v)) case None => None
  {
    var i := SamePlace(d, NormalizePayload(py, d), k);
    GetIsHas(d, k);
    GetIsHas(NormalizePayload(py, d), k);
  }

  lemma {:induction false} NormalizePut(py: Python, d: Dict<Json>, k: string, v: Json)
    ensures NormalizePayload(py, Put(d, k, v)) == Put(NormalizePayload(py, d), k, NormalizeValue(py, v))
  {
    if |d| > 0 && d[0].key != k {
      NormalizePut(py, d[1..], k, v);
      assert NormalizePayload(py, d)[1..] == NormalizePayload(py, d[1..]);
    } else if |d| > 0 {
      assert NormalizePayload(py, d)[1..] == NormalizePayload(py, d[1..]);
    }
  }

  lemma {:induction false} NormalizeRemove(py: Python, d: Dict<Json>, k: string)
    ensures NormalizePayload(py, Remove(d, k)) == Remove(NormalizePayload(py, d), k)
  {
    if |d| > 0 {
      assert NormalizePayload(py, d)[1..] == NormalizePayload(py, d[1..]);
      if d[0].key != k {
        NormalizeRemove(py, d[1..], k);
      }
    }
  }

  function Renames(changes: seq<Change>): Rules {
    seq(|changes|, i requires 0 <= i < |changes| => Entry(changes[i].source, changes[i].destination))
  }

  /**
    The dry run of the raw payload, normalized, is what production makes of the normalized
    payload, and it reports the same renames in the same order.
   */
  lemma {:induction false} DryRunAgrees(py: Python, raw: Dict<Json>, rules: Rules)
    requires Unique(rules)
    ensures var dry, live := DryRunRules(raw, rules), ApplyRules(NormalizePayload(py, raw), rules);
      NormalizePayload(py, dry.output) == live.payload && Renames(dry.changes) == live.applied
    decreases |rules|
  {
    if |rules| > 0 {
      var init, rule := rules[..|rules| - 1], rules[|rules| - 1];
      DryRunAgrees(py, raw, init);
      var dry, live := DryRunRules(raw, init), ApplyRules(NormalizePayload(py, raw), init);
      NormalizeHas(py, dry.output, rule.key);
      NormalizeHas(py, dry.output, rule.value);
      var value := Get(dry.output, rule.key);
      if value.Some? && !Has(dry.output, rule.value) {
        NormalizeRemove(py, dry.output, rule.key);
        NormalizePut(py, Remove(dry.output, rule.key), rule.value, value.value);
        if Has(live.applied, rule.key) {
          AppliedAreRules(NormalizePayload(py, raw), init, rule.key);
        }
        PutFresh(live.applied, rule.key, rule.value);
        assert Renames(dry.changes + [Change(rule.key, rule.value, value.value)]) == live.applied + [rule];
      }
    }
  }

  // ---------------------------------------------------------------- what the rules do to a payload

  /** Rule `i` renames one field to another, and no other rule mentions either of them. */
  ghost predicate Isolated(rules: Rules, i: nat) {
    && i < |rules| && rules[i].key != rules[i].value
    && forall j :: 0 <= j < |rules| && j != i ==>
         rules[j].key != rules[i].key && rules[j].key != rules[i].value &&
         rules[j].value != rules[i].key && rules[j].value != rules[i].value
  }

  lemma OtherRuleKeeps<V>(acc: Applied<V>, rule: Entry<string>, k: string)
    requires Unique(acc.payload) && rule.key != k && rule.value != k
    ensures Get(ApplyRule(acc, rule).payload, k) == Get(acc.payload, k)
    ensures Get(ApplyRule(acc, rule).applied, k) == Get(acc.applied, k)
  {
    var value := Get(acc.payload, rule.key);
    if value.Some? {
      GetRename(acc.payload, rule.key, rule.value, value.value);
    }
    GetPut(acc.applied, rule.key, rule.value, k);
  }

  /** What such a rule has done after the first `n` rules. */
  ghost predicate IsolatedEffect<V>(payload: Dict<V>, after: Applied<V>, source: string, target: string,
          reached: bool) {
    if reached && Get(payload, source).Some? && Get(payload, target) == None then
      && Get(after.payload, target) == Get(payload, source) && Get(after.payload, source) == None
      && Get(after.applied, source) == Some(target)
    else
      && Get(after.payload, target) == Get(payload, target) && Get(after.payload, source) == Get(payload, source)
      && Get(after.applied, source) == None
  }

  lemma ReachedRuleMoves<V>(payload: Dict<V>, acc: Applied<V>, rule: Entry<string>)
    requires Unique(acc.payload) && rule.key != rule.value
    requires IsolatedEffect(payload, acc, rule.key, rule.value, false)
    ensures IsolatedEffect(payload, ApplyRule(acc, rule), rule.key, rule.value, true)
  {
    GetIsHas(acc.payload, rule.value);
    var value := Get(acc.payload, rule.key);
    if value.Some? {
      GetRename(acc.payload, rule.key, rule.value, value.value);
    }
    GetPut(acc.applied, rule.key, rule.value, rule.key);
  }

  /** A rule whose fields no other rule mentions moves its source's value, if that is there and the target is not. */
  lemma {:induction false} IsolatedRuleMoves<V>(payload: Dict<V>, rules: Rules, i: nat, n: nat)
    requires Unique(payload) && Unique(rules) && Isolated(rules, i) && n <= |rules|
    ensures Unique(ApplyRules(payload, rules[..n]).payload)
    ensures IsolatedEffect(payload, ApplyRules(payload, rules[..n]), rules[i].key, rules[i].value, i < n)
    decreases n
  {
    RenamesAreReversible(payload, rules[..n]);
    if n > 0 {
      assert rules[..n][..n - 1] == rules[..n - 1];
      IsolatedRuleMoves(payload, rules, i, n - 1);
      var acc := ApplyRules(payload, rules[..n - 1]);
      if n - 1 == i {
        ReachedRuleMoves(payload, acc, rules[i]);
      } else {
        OtherRuleKeeps(acc, rules[n - 1], rules[i].key);
        OtherRuleKeeps(acc, rules[n - 1], rules[i].value);
      }
    }
  }

  /** The changes carried out one after another. */
  function Replay(payload: Dict<Json>, changes: seq<Change>): Dict<Json> {
    if |changes| == 0 then payload
    else
      var before, last := Replay(payload, changes[..|changes| - 1]), changes[|changes| - 1];
      Put(Remove(before, last.source), last.destination, last.value)
  }

  /** Each change quotes the value that its source held when its turn came, and wrote to a free field. */
  ghost predicate Quotes(payload: Dict<Json>, changes: seq<Change>, i: nat)
    requires i < |changes|
  {
    var before := Replay(payload, changes[..i]);
    Get(before, changes[i].source) == Some(changes[i].value) && !Has(before, changes[i].destination)
  }

  /** The reported changes explain the output. */
  lemma {:induction false} ChangesExplainOutput(payload: Dict<Json>, rules: Rules)
    ensures var dry := DryRunRules(payload, rules);
      && dry.output == Replay(payload, dry.changes)
      && forall i :: 0 <= i < |dry.changes| ==> Quotes(payload, dry.changes, i)
  {
    if |rules| > 0 {
      var dry, rule := DryRunRules(payload, rules[..|rules| - 1]), rules[|rules| - 1];
      ChangesExplainOutput(payload, rules[..|rules| - 1]);
      var after := DryRunRules(payload, rules);
      if after != dry {
        assert after.changes[..|dry.changes|] == dry.changes;
        forall i | 0 <= i < |after.changes| ensures Quotes(payload, after.changes, i) {
          if i < |dry.changes| {
            assert Quotes(payload, dry.changes, i);
            assert after.changes[..i] == dry.changes[..i];
          }
        }
      }
    }
  }
}
