/**
  Renaming the keys of a payload by their best matches (core/algorithms.py, lines 91-112),
  and the keys that leave a payload uncertain (main.py, lines 704-709).
 */
module PayloadMapping {
  import opened Dicts
  import opened KeyMatching
  import opened KeyRenaming

  function MatcherOf(lib: Library, expected: seq<string>, threshold: real): Matcher {
    key => BestKeyMatch(lib, key, expected, threshold)
  }

  lemma BestMatchIsSelfMatching(lib: Library, expected: seq<string>, threshold: real)
    ensures SelfMatching(MatcherOf(lib, expected, threshold))
  {
    var m := MatcherOf(lib, expected, threshold);
    forall k, q | m(k) == Some(q) ensures m(q) == Some(q) {
      MatchIsExpected(lib, k, expected, threshold);
      MatchIsExpected(lib, q, expected, threshold);
    }
  }

  method MapPayloadKeys<V>(payload: Dict<V>, lib: Library, expected: seq<string>, threshold: real)
    returns (mappedPayload: Dict<V>, mappings: map<string, string>)
    requires Unique(payload)
    ensures var r := MapKeys(MatcherOf(lib, expected, threshold), payload);
      mappedPayload == r.payload && mappings == r.mappings
  {
    mappedPayload, mappings := [], map[];
    var usedExpected: set<string> := {};
    ghost var m := MatcherOf(lib, expected, threshold);
    for n := 0 to |payload|
      invariant Mapped(mappedPayload, mappings, usedExpected) == MapKeys(m, payload[..n])
    {
      var incoming, value := payload[n].key, payload[n].value;
      assert payload[..n + 1][..n] == payload[..n];
      var best := BestKeyMatch(lib, incoming, expected, threshold);
      if best == None || best.value in usedExpected {
        mappedPayload := Put(mappedPayload, incoming, value);
      } else {
        mappedPayload := Put(mappedPayload, best.value, value);
        usedExpected := usedExpected + {best.value};
        if incoming != best.value {
          mappings := mappings[incoming := best.value];
        }
      }
    }
    assert payload[..|payload|] == payload;
  }

  /** A key that arrives after another key has matched it. */
  ghost predicate OverwritesExpected<V>(lib: Library, expected: seq<string>, threshold: real, payload: Dict<V>) {
    Collision(MatcherOf(lib, expected, threshold), payload)
  }

  /** The renaming can be taken back, value for value and in order, exactly when no key is overwritten. */
  lemma MappingRoundTrip<V>(lib: Library, expected: seq<string>, threshold: real, payload: Dict<V>)
    requires Unique(payload)
    ensures var r := MapKeys(MatcherOf(lib, expected, threshold), payload);
      RenameBack(r.mappings, r.payload) == payload <==> !OverwritesExpected(lib, expected, threshold, payload)
  {
    BestMatchIsSelfMatching(lib, expected, threshold);
    RoundTrip(MatcherOf(lib, expected, threshold), payload);
  }

  /** `client_num` is an alias of `customer_id`; when both arrive in this order, one value is lost. */
  lemma AliasBeforeFieldLosesValue<V>(lib: Library, first: V, second: V)
    requires lib.casefold("client_num") == "client_num"
    ensures var payload := [Entry("client_num", first), Entry("customer_id", second)];
      var m := MatcherOf(lib, ["customer_id"], DEFAULT_MATCH_THRESHOLD);
      Unique(payload) && MapKeys(m, payload).payload == [Entry("customer_id", second)]
  {
    var payload := [Entry("client_num", first), Entry("customer_id", second)];
    var m := MatcherOf(lib, ["customer_id"], DEFAULT_MATCH_THRESHOLD);
    assert "client_num"[1] != "customer_id"[1];
    assert m("client_num") == Some("customer_id") && m("customer_id") == Some("customer_id");
    MapKeysStep(m, payload, 0);
    MapKeysStep(m, payload, 1);
    assert payload[..0] == [] && payload[..2] == payload;
  }

  /** The keys of the healed payload that park an event (the threshold is the default one). */
  function UncertainKeys(lib: Library, expected: seq<string>, healed: seq<string>): seq<string> {
    Filter(key => key !in expected && KeyConfidence(lib, key, expected) < DEFAULT_MATCH_THRESHOLD, healed)
  }

  /**
    The keys that park an event are exactly the incoming keys without a match, in order: a key
    whose field was already claimed is kept aside but never parks the event.
   */
  lemma UncertainAreUnmatched<V>(lib: Library, expected: seq<string>, payload: Dict<V>)
    requires Unique(payload)
    ensures var m := MatcherOf(lib, expected, 0.78);
      UncertainKeys(lib, expected, Keys(MapKeys(m, payload).payload)) == Unmatched(m, Keys(payload))
  {
    var m := MatcherOf(lib, expected, DEFAULT_MATCH_THRESHOLD);
    BestMatchIsSelfMatching(lib, expected, DEFAULT_MATCH_THRESHOLD);
    assert payload[..|payload|] == payload;
    UnmatchedSurvive(m, payload, |payload|);
    var p := (key: string) => key !in expected && KeyConfidence(lib, key, expected) < DEFAULT_MATCH_THRESHOLD;
    var q := (key: string) => m(key) == None;
    forall k ensures p(k) == q(k) {
      UnmatchedIffLowConfidence(lib, k, expected, DEFAULT_MATCH_THRESHOLD);
    }
    FilterAgrees(p, q, Keys(MapKeys(m, payload).payload));
  }
}
