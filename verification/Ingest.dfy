/**
  What happens to an incoming payload before anything is stored (`receive_webhook`, main.py,
  lines 645-773): normalization, persisted rules, fuzzy matching, and the verdict.
 */
module Ingest {
  import opened Dicts
  import opened JsonTrees
  import opened KeyMatching
  import opened KeyRenaming
  import opened PayloadMapping
  import opened PersistedMappings
  import Normalizer

  datatype Verdict = Rejected(missing: seq<string>) | Uncertain(keys: seq<string>) | Healed | Validated

  datatype Intake = Intake(normalized: Dict<Json>, mapped: Dict<Json>, healed: Dict<Json>,
                           keyMappings: map<string, string>, verdict: Verdict)

  /** `{source: target}` of the applied rules. */
  function AsMap(d: Rules): map<string, string> {
    if |d| == 0 then map[] else AsMap(d[..|d| - 1])[d[|d| - 1].key := d[|d| - 1].value]
  }

  /** The required identity fields that the payload lacks. */
  function Missing(payload: Dict<Json>): seq<string> {
    (if Has(payload, "customer_id") then [] else ["customer_id"]) +
    (if Has(payload, "email_address") then [] else ["email_address"])
  }

  function Judge(missing: seq<string>, uncertain: seq<string>, keyMappings: map<string, string>): Verdict {
    if |missing| > 0 then Rejected(missing)
    else if |uncertain| > 0 then Uncertain(uncertain)
    else if |keyMappings| > 0 then Healed
    else Validated
  }

  function Receive(py: Normalizer.Python, lib: Library, expected: seq<string>, rules: Rules, raw: Dict<Json>): Intake {
    var normalized := Normalizer.NormalizePayload(py, raw);
    var persisted := ApplyRules(normalized, rules);
    var fuzzy := MapKeys(MatcherOf(lib, expected, DEFAULT_MATCH_THRESHOLD), persisted.payload);
    var keyMappings := AsMap(persisted.applied) + fuzzy.mappings;
    Intake(normalized, persisted.payload, fuzzy.payload, keyMappings,
           Judge(Missing(fuzzy.payload), UncertainKeys(lib, expected, Keys(fuzzy.payload)), keyMappings))
  }

  predicate Forwarded(v: Verdict) {
    v.Healed? || v.Validated?
  }

  lemma {:induction false} UnmatchedEmpty(m: Matcher, keys: seq<string>)
    ensures Unmatched(m, keys) == [] <==> forall k :: k in keys ==> m(k).Some?
  {
    if |keys| > 0 {
      UnmatchedEmpty(m, keys[..|keys| - 1]);
      assert forall k :: k in keys <==> k in keys[..|keys| - 1] || k == keys[|keys| - 1];
    }
  }

  lemma RulesKeepUnique(payload: Dict<Json>, rules: Rules)
    requires Unique(payload) && Unique(rules)
    ensures Unique(ApplyRules(payload, rules).payload)
  {
    RenamesAreReversible(payload, rules);
  }

  ghost predicate AllMatched(lib: Library, expected: seq<string>, keys: seq<string>) {
    forall k :: k in keys ==> BestKeyMatch(lib, k, expected, 0.78).Some?
  }

  lemma NoneUncertain(lib: Library, expected: seq<string>, payload: Dict<Json>)
    requires Unique(payload)
    ensures var healed := MapKeys(MatcherOf(lib, expected, 0.78), payload).payload;
      |UncertainKeys(lib, expected, Keys(healed))| == 0 <==> AllMatched(lib, expected, Keys(payload))
  {
    var m := MatcherOf(lib, expected, 0.78);
    UncertainAreUnmatched(lib, expected, payload);
    UnmatchedEmpty(m, Keys(payload));
    assert forall k :: m(k) == BestKeyMatch(lib, k, expected, 0.78);
  }

  lemma NoneMissing(payload: Dict<Json>)
    ensures |Missing(payload)| == 0 <==> Has(payload, "customer_id") && Has(payload, "email_address")
  {
  }

  /**
    An event is forwarded exactly when the healed payload has both identity fields and every key
    left by the persisted rules matches an expected field.
   */
  lemma ForwardedIffRecognized(py: Normalizer.Python, lib: Library, expected: seq<string>, rules: Rules,
          raw: Dict<Json>)
    requires Unique(raw) && Unique(rules)
    ensures var r := Receive(py, lib, expected, rules, raw);
      Forwarded(r.verdict) <==>
        Has(r.healed, "customer_id") && Has(r.healed, "email_address") && AllMatched(lib, expected, Keys(r.mapped))
  {
    var r := Receive(py, lib, expected, rules, raw);
    RulesKeepUnique(r.normalized, rules);
    NoneUncertain(lib, expected, r.mapped);
    NoneMissing(r.healed);
  }

  lemma {:induction false} AsMapEmpty(d: Rules)
    ensures AsMap(d) == map[] <==> |d| == 0
  {
    if |d| > 0 {
      assert d[|d| - 1].key in AsMap(d);
    }
  }

  /** A persisted rule was applied, or some key was renamed to the field it matched. */
  ghost predicate SomethingRenamed(applied: Rules, m: Matcher, mapped: Dict<Json>) {
    |applied| > 0 || exists i :: 0 <= i < |mapped| && KeyRenaming.Renames(m, mapped, i, mapped[i].key)
  }

  lemma MappingsEmpty(applied: Rules, m: Matcher, mapped: Dict<Json>)
    ensures |AsMap(applied) + MapKeys(m, mapped).mappings| > 0 <==> SomethingRenamed(applied, m, mapped)
  {
    var stored, fuzzy := AsMap(applied), MapKeys(m, mapped).mappings;
    assert mapped[..|mapped|] == mapped;
    TableOfRenamings(m, mapped, |mapped|);
    AsMapEmpty(applied);
    if |stored + fuzzy| > 0 {
      var k :| k in stored + fuzzy;
      assert k in stored || k in fuzzy;
    } else {
      assert forall k :: k in stored || k in fuzzy ==> k in stored + fuzzy;
    }
  }

  /** What a verdict says about the healed payload, the unmatched keys and the renamings. */
  ghost predicate VerdictFits(verdict: Verdict, healed: Dict<Json>, unmatched: seq<string>, renamed: bool) {
    var complete := Has(healed, "customer_id") && Has(healed, "email_address");
    match verdict
    case Rejected(missing) =>
      !complete && missing == if Has(healed, "email_address") then ["customer_id"]
                              else if Has(healed, "customer_id") then ["email_address"]
                              else ["customer_id", "email_address"]
    case Uncertain(keys) => complete && |keys| > 0 && keys == unmatched
    case Healed => complete && |unmatched| == 0 && renamed
    case Validated => complete && |unmatched| == 0 && !renamed
  }

  lemma JudgeFits(healed: Dict<Json>, uncertain: seq<string>, keyMappings: map<string, string>)
    ensures VerdictFits(Judge(Missing(healed), uncertain, keyMappings), healed, uncertain, |keyMappings| > 0)
  {
  }

  /**
    The verdict, branch by branch: rejected when an identity field is missing, naming the missing
    ones; otherwise uncertain when incoming keys have no match, naming them in order; otherwise
    healed or validated by whether anything was renamed.
   */
  lemma VerdictIsExact(py: Normalizer.Python, lib: Library, expected: seq<string>, rules: Rules, raw: Dict<Json>)
    requires Unique(raw) && Unique(rules)
    ensures var r := Receive(py, lib, expected, rules, raw);
      var m := MatcherOf(lib, expected, 0.78);
      VerdictFits(r.verdict, r.healed, Unmatched(m, Keys(r.mapped)),
                  SomethingRenamed(ApplyRules(r.normalized, rules).applied, m, r.mapped))
  {
    var r := Receive(py, lib, expected, rules, raw);
    var m := MatcherOf(lib, expected, 0.78);
    RulesKeepUnique(r.normalized, rules);
    UncertainAreUnmatched(lib, expected, r.mapped);
    MappingsEmpty(ApplyRules(r.normalized, rules).applied, m, r.mapped);
    JudgeFits(r.healed, UncertainKeys(lib, expected, Keys(r.healed)), r.keyMappings);
  }

  lemma {:induction false} NothingApplied(payload: Dict<Json>, rules: Rules)
    requires |ApplyRules(payload, rules).applied| == 0
    ensures ApplyRules(payload, rules).payload == payload
    decreases |rules|
  {
    if |rules| > 0 {
      var before, rule := ApplyRules(payload, rules[..|rules| - 1]), rules[|rules| - 1];
      PutLength(before.applied, rule.key, rule.value);
      NothingApplied(payload, rules[..|rules| - 1]);
    }
  }

  /** When the table is empty every key kept its name, so nothing moved. */
  lemma NothingRenamed(m: Matcher, payload: Dict<Json>)
    requires Unique(payload) && MapKeys(m, payload).mappings == map[]
    ensures MapKeys(m, payload).payload == payload
  {
    assert payload[..|payload|] == payload;
    forall i | 0 <= i < |payload| ensures NewKey(m, payload, i) == payload[i].key {
      if NewKey(m, payload, i) != payload[i].key {
        RenamedIsInTable(m, payload, i);
      }
    }
    OutputIsRenamed(m, payload, |payload|);
    assert Renamed(m, payload, |payload|) == payload;
  }

  /** A validated event delivers exactly its normalized payload, in the order it came in. */
  lemma ValidatedIsUntouched(py: Normalizer.Python, lib: Library, expected: seq<string>, rules: Rules, raw: Dict<Json>)
    requires Unique(raw) && Unique(rules)
    requires Receive(py, lib, expected, rules, raw).verdict == Validated
    ensures Receive(py, lib, expected, rules, raw).healed == Normalizer.NormalizePayload(py, raw)
  {
    var r := Receive(py, lib, expected, rules, raw);
    var m := MatcherOf(lib, expected, 0.78);
    var persisted := ApplyRules(r.normalized, rules);
    var fuzzy := MapKeys(m, persisted.payload);
    assert AsMap(persisted.applied) == map[] && fuzzy.mappings == map[] by {
      assert r.keyMappings == AsMap(persisted.applied) + fuzzy.mappings;
      assert |r.keyMappings| == 0;
      assert forall k :: k in AsMap(persisted.applied) ==> k in r.keyMappings;
      assert forall k :: k in fuzzy.mappings ==> k in r.keyMappings;
    }
    AsMapEmpty(persisted.applied);
    NothingApplied(r.normalized, rules);
    NothingRenamed(m, persisted.payload);
  }

  // ---------------------------------------------------------------- the payload on its way

  /** The stored rules reach the payload: it is the normalized output of their dry run. */
  lemma StoredRulesApply(py: Normalizer.Python, lib: Library, expected: seq<string>, rules: Rules, raw: Dict<Json>)
    requires Unique(rules)
    ensures var r := Receive(py, lib, expected, rules, raw);
      && Object(r.normalized) == Normalizer.NormalizeValue(py, Object(raw))
      && r.mapped == Normalizer.NormalizePayload(py, DryRunRules(raw, rules).output)
  {
    DryRunAgrees(py, raw, rules);
    Normalizer.PayloadIsObject(py, raw);
  }

  /** The value of a field after normalization. */
  function Read(py: Normalizer.Python, raw: Dict<Json>, k: string): Option<Json> {
    match Get(raw, k) case Some(v) => Some(Normalizer.NormalizeValue(py, v)) case None => None
  }

  /**
    A rule whose fields no other rule mentions: its target gets the normalized value of its source when
    the source is there and the target is not, and the source is gone; otherwise both are as they came.
   */
  lemma IsolatedRuleApplies(py: Normalizer.Python, lib: Library, expected: seq<string>, rules: Rules, raw: Dict<Json>,
          i: nat)
    requires Unique(raw) && Unique(rules) && Isolated(rules, i)
    ensures var r := Receive(py, lib, expected, rules, raw);
      var source, target := rules[i].key, rules[i].value;
      if Has(raw, source) && !Has(raw, target) then
        Get(r.mapped, target) == Read(py, raw, source) && Get(r.mapped, source) == None
      else
        Get(r.mapped, target) == Read(py, raw, target) && Get(r.mapped, source) == Read(py, raw, source)
  {
    var normalized := Normalizer.NormalizePayload(py, raw);
    IsolatedRuleMoves(normalized, rules, i, |rules|);
    assert rules[..|rules|] == rules;
    NormalizeHas(py, raw, rules[i].key);
    NormalizeHas(py, raw, rules[i].value);
    GetIsHas(raw, rules[i].key);
    GetIsHas(raw, rules[i].value);
  }

  /** Whatever the verdict, a field of the healed payload holds the value of the last item written under it. */
  lemma HealedValue(py: Normalizer.Python, lib: Library, expected: seq<string>, rules: Rules, raw: Dict<Json>,
          i: nat, k: string)
    requires var m := MatcherOf(lib, expected, 0.78);
      var mapped := Receive(py, lib, expected, rules, raw).mapped;
      WritesLast(m, mapped, |mapped|, i, k)
    ensures var r := Receive(py, lib, expected, rules, raw);
      i < |r.mapped| && Get(r.healed, k) == Some(r.mapped[i].value)
  {
    var mapped := Receive(py, lib, expected, rules, raw).mapped;
    assert mapped[..|mapped|] == mapped;
    OutputAt(MatcherOf(lib, expected, DEFAULT_MATCH_THRESHOLD), mapped, |mapped|, i, k);
  }

  lemma HealedHasNoOther(py: Normalizer.Python, lib: Library, expected: seq<string>, rules: Rules, raw: Dict<Json>,
          k: string)
    requires var m := MatcherOf(lib, expected, 0.78);
      var mapped := Receive(py, lib, expected, rules, raw).mapped;
      forall i :: 0 <= i < |mapped| ==> NewKey(m, mapped, i) != k
    ensures Get(Receive(py, lib, expected, rules, raw).healed, k) == None
  {
    var mapped := Receive(py, lib, expected, rules, raw).mapped;
    assert mapped[..|mapped|] == mapped;
    OutputHasNoOther(MatcherOf(lib, expected, DEFAULT_MATCH_THRESHOLD), mapped, |mapped|, k);
  }

  lemma {:induction false} AsMapIsGet(d: Rules, k: string)
    requires Unique(d)
    ensures k in AsMap(d) <==> Get(d, k).Some?
    ensures k in AsMap(d) ==> AsMap(d)[k] == Get(d, k).value
  {
    if |d| > 0 {
      var init, last := d[..|d| - 1], d[|d| - 1];
      AsMapIsGet(init, k);
      assert !Has(init, last.key);
      PutFresh(init, last.key, last.value);
      GetPut(init, last.key, last.value, k);
      assert d == init + [last];
    }
  }

  lemma {:induction false} AppliedIsUnique(payload: Dict<Json>, rules: Rules)
    ensures Unique(ApplyRules(payload, rules).applied)
  {
    if |rules| > 0 {
      AppliedIsUnique(payload, rules[..|rules| - 1]);
      var before, rule := ApplyRules(payload, rules[..|rules| - 1]), rules[|rules| - 1];
      PutUnique(before.applied, rule.key, rule.value);
    }
  }

  /** The stored mappings of an event: the renaming by best match where there is one, else the applied rule. */
  lemma KeyMappingsAre(py: Normalizer.Python, lib: Library, expected: seq<string>, rules: Rules, raw: Dict<Json>,
          k: string)
    ensures var r := Receive(py, lib, expected, rules, raw);
      var m := MatcherOf(lib, expected, 0.78);
      var rule := Get(ApplyRules(r.normalized, rules).applied, k);
      var renamed := exists i :: 0 <= i < |r.mapped| && KeyRenaming.Renames(m, r.mapped, i, k);
      && (k in r.keyMappings <==> renamed || rule.Some?)
      && (renamed ==> Some(r.keyMappings[k]) == m(k))
      && (!renamed && rule.Some? ==> r.keyMappings[k] == rule.value)
  {
    var r := Receive(py, lib, expected, rules, raw);
    assert r.mapped[..|r.mapped|] == r.mapped;
    TableOfRenamings(MatcherOf(lib, expected, DEFAULT_MATCH_THRESHOLD), r.mapped, |r.mapped|);
    AppliedIsUnique(r.normalized, rules);
    AsMapIsGet(ApplyRules(r.normalized, rules).applied, k);
  }
}
