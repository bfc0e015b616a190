/**
  Matching incoming keys to expected fields, by aliases and by similarity
  (core/algorithms.py, lines 10-17 and 43-88).

  Case folding, `SequenceMatcher` and the token test are library behaviour: they are
  arbitrary functions here.  Scores are reals.
 */
module KeyMatching {
  import opened Dicts
  import EditDistance

  const DEFAULT_MATCH_THRESHOLD: real := 0.78

  const KNOWN_FIELD_ALIASES: map<string, string> := map[
    "client_num" := "customer_id",
    "user_email" := "email_address",
    "qty_on_hand" := "stock_count",
    "phone_number" := "contact_phone",
    "contact_phone" := "phone_number"
  ]

  datatype Library = Library(
    casefold: string -> string,
    sequenceRatio: (string, string) -> real,
    sharesLongToken: (string, string) -> bool)
  {
    ghost predicate Valid() {
      forall l, r :: 0.0 <= sequenceRatio(l, r) <= 1.0
    }
  }

  function MaxReal(a: real, b: real): real { if a <= b then b else a }

  function Similarity(lib: Library, left: string, right: string): real {
    var l, r := lib.casefold(left), lib.casefold(right);
    MaxReal(EditDistance.Ratio(l, r),
            MaxReal(lib.sequenceRatio(l, r), if lib.sharesLongToken(l, r) then 0.8 else 0.0))
  }

  lemma SimilarityIsScore(lib: Library, left: string, right: string)
    requires lib.Valid()
    ensures 0.0 <= Similarity(lib, left, right) <= 1.0
    ensures lib.casefold(left) == lib.casefold(right) ==> Similarity(lib, left, right) == 1.0
  {
    EditDistance.RatioIsScore(lib.casefold(left), lib.casefold(right));
  }

  /** It is the largest of three scores. */
  lemma SimilarityIsLargest(lib: Library, left: string, right: string)
    ensures var l, r, s := lib.casefold(left), lib.casefold(right), Similarity(lib, left, right);
      var token := if lib.sharesLongToken(l, r) then 0.8 else 0.0;
      && s >= EditDistance.Ratio(l, r) && s >= lib.sequenceRatio(l, r) && s >= token
      && (s == EditDistance.Ratio(l, r) || s == lib.sequenceRatio(l, r) || s == token)
  {
  }

  // ---------------------------------------------------------------- the best candidate

  /** Python's order on strings. */
  predicate Precedes(s: string, t: string) {
    |t| > 0 && (|s| == 0 || s[0] < t[0] || (s[0] == t[0] && Precedes(s[1..], t[1..])))
  }

  /** The strings agree up to `i`, where the first ends or has the smaller character. */
  ghost predicate SmallerAt(s: string, t: string, i: nat) {
    i <= |s| && i < |t| && s[..i] == t[..i] && (i == |s| || s[i] < t[i])
  }

  lemma {:induction false} PrecedesIffSmaller(s: string, t: string)
    ensures Precedes(s, t) <==> exists i :: SmallerAt(s, t, i)
  {
    if |t| > 0 && |s| > 0 && s[0] == t[0] {
      PrecedesIffSmaller(s[1..], t[1..]);
      if i: nat :| SmallerAt(s[1..], t[1..], i) {
        assert s[..i + 1] == [s[0]] + s[1..][..i] && t[..i + 1] == [t[0]] + t[1..][..i];
        assert SmallerAt(s, t, i + 1);
      }
      if i: nat :| SmallerAt(s, t, i) {
        assert i > 0;
        assert s[1..][..i - 1] == s[..i][1..] && t[1..][..i - 1] == t[..i][1..];
        assert SmallerAt(s[1..], t[1..], i - 1);
      }
    } else if |t| > 0 && (|s| == 0 || s[0] < t[0]) {
      assert SmallerAt(s, t, 0);
    } else {
      forall i: nat | i <= |s| && i < |t| ensures !SmallerAt(s, t, i) {
        assert i > 0 ==> s[..i][0] == s[0] && t[..i][0] == t[0];
      }
    }
  }

  lemma {:induction false} PrecedesTotal(s: string, t: string)
    ensures Precedes(s, t) || Precedes(t, s) || s == t
  {
    if |s| > 0 && |t| > 0 && s[0] == t[0] {
      PrecedesTotal(s[1..], t[1..]);
      assert s == [s[0]] + s[1..] && t == [t[0]] + t[1..];
    }
  }

  lemma {:induction false} PrecedesTransitive(s: string, t: string, u: string)
    requires !Precedes(s, t) && !Precedes(t, u)
    ensures !Precedes(s, u)
  {
    if |s| > 0 && |t| > 0 && |u| > 0 && s[0] == t[0] == u[0] {
      PrecedesTransitive(s[1..], t[1..], u[1..]);
    }
  }

  lemma {:induction false} PrecedesAsymmetric(s: string, t: string)
    ensures !(Precedes(s, t) && Precedes(t, s))
  {
    if |s| > 0 && |t| > 0 && s[0] == t[0] {
      PrecedesAsymmetric(s[1..], t[1..]);
    }
  }

  datatype Candidate = Candidate(score: real, field: string)

  /** The tuple order that `max` uses: score first, then the field name. */
  predicate AtLeast(a: Candidate, b: Candidate) {
    a.score > b.score || (a.score == b.score && !Precedes(a.field, b.field))
  }

  function CandidateOf(lib: Library, key: string, field: string): Candidate {
    Candidate(Similarity(lib, key, field), field)
  }

  /** `max` over the candidates, keeping the earlier one unless a later one is larger. */
  function BestCandidate(lib: Library, key: string, expected: seq<string>): Candidate
    requires |expected| > 0
  {
    var last := CandidateOf(lib, key, expected[|expected| - 1]);
    if |expected| == 1 then last
    else
      var best := BestCandidate(lib, key, expected[..|expected| - 1]);
      if AtLeast(best, last) then best else last
  }

  /** The tuple order is total, transitive and antisymmetric. */
  lemma AtLeastOrders(a: Candidate, b: Candidate, c: Candidate)
    ensures AtLeast(a, b) || AtLeast(b, a)
    ensures AtLeast(a, b) && AtLeast(b, c) ==> AtLeast(a, c)
    ensures AtLeast(a, b) && AtLeast(b, a) ==> a == b
  {
    PrecedesTotal(a.field, b.field);
    PrecedesAsymmetric(a.field, b.field);
    if !Precedes(a.field, b.field) && !Precedes(b.field, c.field) {
      PrecedesTransitive(a.field, b.field, c.field);
    }
  }

  lemma {:induction false} BestCandidateIsGreatest(lib: Library, key: string, expected: seq<string>)
    requires |expected| > 0
    ensures var best := BestCandidate(lib, key, expected);
      && best.field in expected && best == CandidateOf(lib, key, best.field)
      && forall f :: f in expected ==> AtLeast(best, CandidateOf(lib, key, f))
  {
    var init, last := expected[..|expected| - 1], expected[|expected| - 1];
    var best := BestCandidate(lib, key, expected);
    if |expected| > 1 {
      BestCandidateIsGreatest(lib, key, init);
    }
    forall f | f in expected
      ensures AtLeast(best, CandidateOf(lib, key, f))
    {
      assert f in init || f == last;
      AtLeastOrders(best, CandidateOf(lib, key, last), best);
      if f in init {
        AtLeastOrders(best, BestCandidate(lib, key, init), CandidateOf(lib, key, f));
        AtLeastOrders(CandidateOf(lib, key, last), BestCandidate(lib, key, init), best);
      }
    }
  }

  function BestKeyMatch(lib: Library, key: string, expected: seq<string>, threshold: real): Option<string> {
    if key in expected then Some(key)
    else if HasAlias(lib, key, expected) then Some(KNOWN_FIELD_ALIASES[lib.casefold(key)])
    else if |expected| == 0 then None
    else
      var best := BestCandidate(lib, key, expected);
      if best.score >= threshold then Some(best.field) else None
  }

  predicate HasAlias(lib: Library, key: string, expected: seq<string>) {
    lib.casefold(key) in KNOWN_FIELD_ALIASES && KNOWN_FIELD_ALIASES[lib.casefold(key)] in expected
  }

  /** The greatest similarity to any expected field, 0 when there is none. */
  function BestScore(lib: Library, key: string, expected: seq<string>): real {
    if |expected| == 0 then 0.0
    else
      var last := Similarity(lib, key, expected[|expected| - 1]);
      if |expected| == 1 then last else MaxReal(BestScore(lib, key, expected[..|expected| - 1]), last)
  }

  function KeyConfidence(lib: Library, key: string, expected: seq<string>): real {
    if key in expected then 1.0
    else if HasAlias(lib, key, expected) then DEFAULT_MATCH_THRESHOLD
    else BestScore(lib, key, expected)
  }

  lemma {:induction false} BestScoreIsCandidateScore(lib: Library, key: string, expected: seq<string>)
    requires |expected| > 0
    ensures BestScore(lib, key, expected) == BestCandidate(lib, key, expected).score
  {
    if |expected| > 1 {
      BestScoreIsCandidateScore(lib, key, expected[..|expected| - 1]);
    }
  }

  ghost predicate SameFields(e: seq<string>, f: seq<string>) {
    forall x :: x in e <==> x in f
  }

  /** Neither the order nor repetition of the expected fields matters. */
  lemma MatchIgnoresOrder(lib: Library, key: string, e: seq<string>, f: seq<string>, threshold: real)
    requires SameFields(e, f)
    ensures BestKeyMatch(lib, key, e, threshold) == BestKeyMatch(lib, key, f, threshold)
    ensures KeyConfidence(lib, key, e) == KeyConfidence(lib, key, f)
  {
    assert |e| > 0 ==> e[0] in f;
    assert |f| > 0 ==> f[0] in e;
    if |e| > 0 {
      BestCandidateIsGreatest(lib, key, e);
      BestCandidateIsGreatest(lib, key, f);
      var a, b := BestCandidate(lib, key, e), BestCandidate(lib, key, f);
      AtLeastOrders(a, b, a);
      BestScoreIsCandidateScore(lib, key, e);
      BestScoreIsCandidateScore(lib, key, f);
    }
  }

  /**
    A key goes unmatched exactly when its confidence is below the threshold, as long as the
    threshold does not exceed the fixed score of the branch that matched it.
   */
  lemma UnmatchedIffLowConfidence(lib: Library, key: string, expected: seq<string>, threshold: real)
    ensures
      (BestKeyMatch(lib, key, expected, threshold) == None <==> KeyConfidence(lib, key, expected) < threshold)
      <==>
      (if key in expected then threshold <= 1.0
       else if HasAlias(lib, key, expected) then threshold <= 0.78
       else expected == [] ==> 0.0 < threshold)
  {
    if |expected| > 0 {
      BestScoreIsCandidateScore(lib, key, expected);
    }
  }

  lemma MatchIsExpected(lib: Library, key: string, expected: seq<string>, threshold: real)
    ensures var m := BestKeyMatch(lib, key, expected, threshold);
      && (m.Some? ==> m.value in expected)
      && (key in expected ==> m == Some(key))
  {
    if |expected| > 0 {
      BestCandidateIsGreatest(lib, key, expected);
    }
  }

  /** The aliases, one by one. */
  function AliasOf(folded: string): Option<string> {
    if folded == "client_num" then Some("customer_id")
    else if folded == "user_email" then Some("email_address")
    else if folded == "qty_on_hand" then Some("stock_count")
    else if folded == "phone_number" then Some("contact_phone")
    else if folded == "contact_phone" then Some("phone_number")
    else None
  }

  /** No expected field is more similar to the key, and among equals none has a greater name. */
  ghost predicate Wins(lib: Library, key: string, expected: seq<string>, field: string) {
    && field in expected
    && forall f :: f in expected ==>
         || Similarity(lib, key, f) < Similarity(lib, key, field)
         || (Similarity(lib, key, f) == Similarity(lib, key, field) && !exists i :: SmallerAt(field, f, i))
  }

  lemma HasAliasIff(lib: Library, key: string, expected: seq<string>)
    ensures HasAlias(lib, key, expected) <==>
      AliasOf(lib.casefold(key)).Some? && AliasOf(lib.casefold(key)).value in expected
    ensures HasAlias(lib, key, expected) ==>
      KNOWN_FIELD_ALIASES[lib.casefold(key)] == AliasOf(lib.casefold(key)).value
  {
  }

  lemma BestCandidateWins(lib: Library, key: string, expected: seq<string>)
    requires |expected| > 0
    ensures var best := BestCandidate(lib, key, expected);
      Wins(lib, key, expected, best.field) && best.score == Similarity(lib, key, best.field)
  {
    BestCandidateIsGreatest(lib, key, expected);
    var best := BestCandidate(lib, key, expected);
    forall f | f in expected
      ensures Similarity(lib, key, f) < best.score ||
        (Similarity(lib, key, f) == best.score && !exists i :: SmallerAt(best.field, f, i))
    {
      assert AtLeast(best, CandidateOf(lib, key, f));
      PrecedesIffSmaller(best.field, f);
    }
  }

  lemma OneWinner(lib: Library, key: string, expected: seq<string>, f: string, g: string)
    requires Wins(lib, key, expected, f) && Wins(lib, key, expected, g)
    ensures f == g
  {
    PrecedesIffSmaller(f, g);
    PrecedesIffSmaller(g, f);
    PrecedesTotal(f, g);
  }

  /**
    The match of a key, case by case: itself when it is expected; else its alias when that is expected;
    else the most similar field, the one with the greatest name among equals, if it reaches the
    threshold; else nothing.
   */
  lemma MatchIsExact(lib: Library, key: string, expected: seq<string>, threshold: real)
    ensures var m, alias := BestKeyMatch(lib, key, expected, threshold), AliasOf(lib.casefold(key));
      if key in expected then m == Some(key)
      else if alias.Some? && alias.value in expected then m == alias
      else
        && (forall f :: m == Some(f) <==> Wins(lib, key, expected, f) && Similarity(lib, key, f) >= threshold)
        && (m == None <==> forall f :: f in expected ==> Similarity(lib, key, f) < threshold)
  {
    HasAliasIff(lib, key, expected);
    if key !in expected && !HasAlias(lib, key, expected) && |expected| > 0 {
      var best := BestCandidate(lib, key, expected);
      BestCandidateWins(lib, key, expected);
      forall f | Wins(lib, key, expected, f) ensures f == best.field {
        OneWinner(lib, key, expected, f, best.field);
      }
    }
  }
}
