/**
  Payload normalization (core/normalizer.py) and the redaction of exports
  (database/repository.py, lines 38-46), and how the two interact.
 */
module Normalizer {
  import opened Dicts
  import opened JsonTrees

  const NULL_STRINGS: set<string> := {"", "null", "none", "n/a", "na", "undefined"}

  const REDACTED: string := "[REDACTED]"

  const SENSITIVE_PARTS: set<string> :=
    {"password", "secret", "token", "api_key", "authorization", "signature", "credential"}

  /** The text functions of Python that the two passes call. */
  datatype Python = Python(
    isSpace: char -> bool,
    lower: string -> string,
    casefold: string -> string,
    parseInt: string -> Option<int>,
    parseFloat: string -> Option<Float>)
  {
    /** What the library does with one fixed text: it is no number, and lower-casing it gives "[redacted]". */
    ghost predicate Valid() {
      && !isSpace('[') && !isSpace(']')
      && lower(REDACTED) == "[redacted]"
      && parseInt(REDACTED) == None
    }
  }

  function TrimLeft(py: Python, s: string): string {
    if |s| > 0 && py.isSpace(s[0]) then TrimLeft(py, s[1..]) else s
  }

  function TrimRight(py: Python, s: string): string {
    if |s| > 0 && py.isSpace(s[|s| - 1]) then TrimRight(py, s[..|s| - 1]) else s
  }

  function Strip(py: Python, s: string): string {
    TrimRight(py, TrimLeft(py, s))
  }

  function NormalizeText(py: Python, s: string): Json {
    var stripped := Strip(py, s);
    var lowered := py.lower(stripped);
    if lowered in NULL_STRINGS then Null
    else if lowered == "true" then Bool(true)
    else if lowered == "false" then Bool(false)
    else if '.' in stripped then
      match py.parseFloat(stripped) case Some(x) => Number(x) case None => Text(stripped)
    else
      match py.parseInt(stripped) case Some(n) => Int(n) case None => Text(stripped)
  }

  function NormalizeValue(py: Python, v: Json): Json {
    match v
    case Object(fields) => Object(seq(|fields|, i requires 0 <= i < |fields| =>
                                   Entry(fields[i].key, NormalizeValue(py, fields[i].value))))
    case Array(items) => Array(seq(|items|, i requires 0 <= i < |items| => NormalizeValue(py, items[i])))
    case Text(s) => NormalizeText(py, s)
    case _ => v
  }

  function NormalizePayload(py: Python, payload: Dict<Json>): Dict<Json> {
    seq(|payload|, i requires 0 <= i < |payload| => Entry(payload[i].key, NormalizeValue(py, payload[i].value)))
  }

  predicate Contains(s: string, part: string) {
    exists i :: 0 <= i <= |s| - |part| && OccursAt(s, part, i)
  }

  predicate OccursAt(s: string, part: string, i: nat)
    requires i + |part| <= |s|
  {
    s[i..i + |part|] == part
  }

  predicate Sensitive(py: Python, key: string) {
    exists part :: part in SENSITIVE_PARTS && Contains(py.casefold(key), part)
  }

  function Redact(py: Python, v: Json): Json {
    match v
    case Object(fields) =>
      Object(seq(|fields|, i requires 0 <= i < |fields| =>
        Entry(fields[i].key,
              if Sensitive(py, fields[i].key) then Text(REDACTED) else Redact(py, fields[i].value))))
    case Array(items) => Array(seq(|items|, i requires 0 <= i < |items| => Redact(py, items[i])))
    case _ => v
  }

  // ---------------------------------------------------------------- normalization

  lemma {:induction false} TrimLeftEnds(py: Python, s: string)
    ensures var r := TrimLeft(py, s); |r| > 0 ==> !py.isSpace(r[0])
    ensures var r := TrimLeft(py, s); |r| <= |s| && r == s[|s| - |r|..]
  {
    if |s| > 0 && py.isSpace(s[0]) {
      TrimLeftEnds(py, s[1..]);
    }
  }

  lemma {:induction false} TrimRightEnds(py: Python, s: string)
    ensures var r := TrimRight(py, s); |r| > 0 ==> !py.isSpace(r[|r| - 1])
    ensures var r := TrimRight(py, s); |r| <= |s| && r == s[..|r|]
  {
    if |s| > 0 && py.isSpace(s[|s| - 1]) {
      TrimRightEnds(py, s[..|s| - 1]);
    }
  }

  lemma StripIdempotent(py: Python, s: string)
    ensures Strip(py, Strip(py, s)) == Strip(py, s)
  {
    TrimLeftEnds(py, s);
    TrimRightEnds(py, TrimLeft(py, s));
  }

  ghost predicate Spaces(py: Python, s: string) {
    forall i :: 0 <= i < |s| ==> py.isSpace(s[i])
  }

  ghost predicate Trimmed(py: Python, s: string) {
    |s| > 0 ==> !py.isSpace(s[0]) && !py.isSpace(s[|s| - 1])
  }

  lemma {:induction false} TrimLeftDrops(py: Python, a: string, s: string)
    requires Spaces(py, a)
    ensures TrimLeft(py, a + s) == TrimLeft(py, s)
  {
    if |a| == 0 {
      assert a + s == s;
    } else {
      assert (a + s)[1..] == a[1..] + s;
      TrimLeftDrops(py, a[1..], s);
    }
  }

  lemma {:induction false} TrimRightDrops(py: Python, s: string, b: string)
    requires Spaces(py, b)
    ensures TrimRight(py, s + b) == TrimRight(py, s)
  {
    if |b| == 0 {
      assert s + b == s;
    } else {
      assert (s + b)[..|s + b| - 1] == s + b[..|b| - 1];
      TrimRightDrops(py, s, b[..|b| - 1]);
    }
  }

  /** Stripping takes away the spaces around a text and nothing else. */
  lemma StripDropsPadding(py: Python, a: string, core: string, b: string)
    requires Spaces(py, a) && Spaces(py, b) && Trimmed(py, core)
    ensures Strip(py, a + core + b) == core
  {
    assert a + core + b == a + (core + b);
    TrimLeftDrops(py, a, core + b);
    if |core| == 0 {
      assert core + b == b && b + "" == b;
      TrimLeftDrops(py, b, "");
    } else {
      TrimRightDrops(py, core, b);
    }
  }

  /** Every text is a trimmed one between spaces. */
  lemma StripSplits(py: Python, s: string) returns (a: string, b: string)
    ensures Spaces(py, a) && Spaces(py, b) && Trimmed(py, Strip(py, s)) && s == a + Strip(py, s) + b
  {
    var left := TrimLeft(py, s);
    TrimLeftEnds(py, s);
    TrimRightEnds(py, left);
    a := s[..|s| - |left|];
    b := left[|Strip(py, s)|..];
    TrimLeftSpaces(py, s);
    TrimRightSpaces(py, left);
  }

  lemma {:induction false} TrimLeftSpaces(py: Python, s: string)
    ensures |TrimLeft(py, s)| <= |s| && Spaces(py, s[..|s| - |TrimLeft(py, s)|])
  {
    if |s| > 0 && py.isSpace(s[0]) {
      TrimLeftSpaces(py, s[1..]);
      var n := |s| - |TrimLeft(py, s)|;
      assert s[..n] == [s[0]] + s[1..][..n - 1];
    }
  }

  lemma {:induction false} TrimRightSpaces(py: Python, s: string)
    ensures |TrimRight(py, s)| <= |s| && Spaces(py, s[|TrimRight(py, s)|..])
  {
    if |s| > 0 && py.isSpace(s[|s| - 1]) {
      TrimRightSpaces(py, s[..|s| - 1]);
      var n := |TrimRight(py, s)|;
      assert s[n..] == s[..|s| - 1][n..] + [s[|s| - 1]];
    }
  }

  /** The words, in any letter case, that stand for another value. */
  predicate IsWord(low: string) {
    low == "" || low == "null" || low == "none" || low == "n/a" || low == "na" || low == "undefined" ||
    low == "true" || low == "false"
  }

  /**
    What a trimmed text between any spaces becomes: null for six words in any letter case, a truth
    value for two; then a float if it has a dot and parses, an integer if it has none and parses;
    and in every other case the trimmed text.
   */
  lemma PaddedTextBecomes(py: Python, a: string, core: string, b: string)
    requires Spaces(py, a) && Spaces(py, b) && Trimmed(py, core)
    ensures var v, low := NormalizeValue(py, Text(a + core + b)), py.lower(core);
      && (v == Null <==> IsWord(low) && low != "true" && low != "false")
      && (v == Bool(true) <==> low == "true") && (v == Bool(false) <==> low == "false")
      && (forall x :: v == Number(x) <==> !IsWord(low) && '.' in core && py.parseFloat(core) == Some(x))
      && (forall n :: v == Int(n) <==> !IsWord(low) && '.' !in core && py.parseInt(core) == Some(n))
      && (v == Text(core) <==>
            !IsWord(low) && if '.' in core then py.parseFloat(core) == None else py.parseInt(core) == None)
      && (v.Text? ==> v.text == core) && !v.Array? && !v.Object?
  {
    StripDropsPadding(py, a, core, b);
  }

  /** How null, a truth value or an integer is written. */
  function Written(v: Json, decimal: int -> string): string
    requires v.Null? || v.Bool? || v.Int?
  {
    match v
    case Null => "null"
    case Bool(flag) => if flag then "true" else "false"
    case Int(n) => decimal(n)
  }

  /** Normalizing what was written, between any spaces, gives the value back. */
  lemma WrittenReadsBack(py: Python, v: Json, decimal: int -> string, a: string, b: string)
    requires Spaces(py, a) && Spaces(py, b) && (v.Null? || v.Bool? || v.Int?)
    requires var w := Written(v, decimal);
      && Trimmed(py, w) && (!v.Int? ==> py.lower(w) == w)
      && (v.Int? ==> '.' !in w && !IsWord(py.lower(w)) && py.parseInt(w) == Some(v.int_))
    ensures NormalizeValue(py, Text(a + Written(v, decimal) + b)) == v
  {
    PaddedTextBecomes(py, a, Written(v, decimal), b);
  }

  /** Only texts are read; null, truth values and numbers stay as they are. */
  lemma OtherLeavesStay(py: Python, v: Json)
    requires !v.Text? && !v.Array? && !v.Object?
    ensures NormalizeValue(py, v) == v
  {
  }

  /** A payload is normalized as the object that it is. */
  lemma PayloadIsObject(py: Python, payload: Dict<Json>)
    ensures NormalizeValue(py, Object(payload)) == Object(NormalizePayload(py, payload))
  {
  }

  /** Normalizing a second time changes nothing, at any depth. */
  lemma {:induction false} NormalizeIdempotent(py: Python, v: Json)
    ensures NormalizeValue(py, NormalizeValue(py, v)) == NormalizeValue(py, v)
  {
    match v {
      case Object(fields) =>
        forall i | 0 <= i < |fields|
          ensures NormalizeValue(py, NormalizeValue(py, fields[i].value)) == NormalizeValue(py, fields[i].value)
        {
          NormalizeIdempotent(py, fields[i].value);
        }
        assert NormalizeValue(py, NormalizeValue(py, v)).fields == NormalizeValue(py, v).fields;
      case Array(items) =>
        forall i | 0 <= i < |items|
          ensures NormalizeValue(py, NormalizeValue(py, items[i])) == NormalizeValue(py, items[i])
        {
          NormalizeIdempotent(py, items[i]);
        }
        assert NormalizeValue(py, NormalizeValue(py, v)).items == NormalizeValue(py, v).items;
      case Text(s) =>
        StripIdempotent(py, s);
      case _ =>
    }
  }

  /** The normalized tree has the same paths, and each subtree is the normalization of the old one. */
  lemma {:induction false} NormalizeKeepsShape(py: Python, v: Json, path: Path)
    ensures At(NormalizeValue(py, v), path) ==
            match At(v, path) case Some(sub) => Some(NormalizeValue(py, sub)) case None => None
    decreases |path|
  {
    if |path| > 0 {
      match (v, path[0]) {
        case (Object(fields), Field(key)) =>
          var i := SamePlace(fields, NormalizeValue(py, v).fields, key);
          if Get(fields, key).Some? {
            NormalizeKeepsShape(py, fields[i].value, path[1..]);
          }
        case (Array(items), Index(i)) =>
          if i < |items| {
            NormalizeKeepsShape(py, items[i], path[1..]);
          }
        case _ =>
      }
    }
  }

  // ---------------------------------------------------------------- redaction

  /** The text holds the word between two others. */
  ghost predicate Around(text: string, a: string, word: string, b: string) {
    text == a + word + b
  }

  lemma ContainsIffAround(text: string, word: string)
    ensures Contains(text, word) <==> exists a, b :: Around(text, a, word, b)
  {
    if Contains(text, word) {
      var i: nat :| i <= |text| - |word| && OccursAt(text, word, i);
      assert Around(text, text[..i], word, text[i + |word|..]);
    }
    if a, b :| Around(text, a, word, b) {
      assert OccursAt(text, word, |a|);
    }
  }

  /** A key is sensitive exactly when one of seven words stands somewhere in it, in any letter case. */
  lemma SensitiveIffNamed(py: Python, key: string)
    ensures Sensitive(py, key) <==>
      exists a, word, b :: Around(py.casefold(key), a, word, b) &&
        word in ["password", "secret", "token", "api_key", "authorization", "signature", "credential"]
  {
    var words := ["password", "secret", "token", "api_key", "authorization", "signature", "credential"];
    assert words[0] in words && words[1] in words && words[2] in words && words[3] in words;
    assert words[4] in words && words[5] in words && words[6] in words;
    forall word ensures word in SENSITIVE_PARTS <==> word in words {
    }
    if Sensitive(py, key) {
      var word :| word in SENSITIVE_PARTS && Contains(py.casefold(key), word);
      ContainsIffAround(py.casefold(key), word);
    }
    if a, word, b :| Around(py.casefold(key), a, word, b) && word in words {
      ContainsIffAround(py.casefold(key), word);
    }
  }

  lemma {:induction false} RedactIdempotent(py: Python, v: Json)
    ensures Redact(py, Redact(py, v)) == Redact(py, v)
  {
    match v {
      case Object(fields) =>
        forall i | 0 <= i < |fields|
          ensures Redact(py, Redact(py, fields[i].value)) == Redact(py, fields[i].value)
        {
          RedactIdempotent(py, fields[i].value);
        }
        assert Redact(py, Redact(py, v)).fields == Redact(py, v).fields;
      case Array(items) =>
        forall i | 0 <= i < |items| ensures Redact(py, Redact(py, items[i])) == Redact(py, items[i]) {
          RedactIdempotent(py, items[i]);
        }
        assert Redact(py, Redact(py, v)).items == Redact(py, v).items;
      case _ =>
    }
  }

  /** How many leading steps of a path stay clear of sensitive keys. */
  function ClearSteps(py: Python, path: Path): nat {
    if |path| == 0 || (path[0].Field? && Sensitive(py, path[0].key)) then 0
    else 1 + ClearSteps(py, path[1..])
  }

  /**
    A path without a sensitive key leads to the redaction of what it led to before.  At the first
    sensitive key of a path there is the marker, and below it there is nothing.
   */
  lemma {:induction false} RedactHidesExactlySecrets(py: Python, v: Json, path: Path)
    ensures At(Redact(py, v), path) ==
      var clear := ClearSteps(py, path);
      if clear == |path| then (match At(v, path) case Some(sub) => Some(Redact(py, sub)) case None => None)
      else if clear == |path| - 1 && At(v, path).Some? then Some(Text("[REDACTED]"))
      else None
    decreases |path|
  {
    if |path| > 0 {
      match (v, path[0]) {
        case (Object(fields), Field(key)) =>
          var i := SamePlace(fields, Redact(py, v).fields, key);
          if Get(fields, key).Some? && !Sensitive(py, key) {
            RedactHidesExactlySecrets(py, fields[i].value, path[1..]);
          }
        case (Array(items), Index(i)) =>
          if i < |items| {
            RedactHidesExactlySecrets(py, items[i], path[1..]);
          }
        case _ =>
      }
    }
  }

  // ---------------------------------------------------------------- both

  lemma MarkerIsNormal(py: Python)
    requires py.Valid()
    ensures NormalizeText(py, REDACTED) == Text(REDACTED)
  {
  }

  /** The exported normalized payload is the normalization of the exported raw payload. */
  lemma {:induction false} RedactionCommutes(py: Python, v: Json)
    requires py.Valid()
    ensures Redact(py, NormalizeValue(py, v)) == NormalizeValue(py, Redact(py, v))
  {
    match v {
      case Object(fields) =>
        MarkerIsNormal(py);
        forall i | 0 <= i < |fields|
          ensures Redact(py, NormalizeValue(py, fields[i].value)) == NormalizeValue(py, Redact(py, fields[i].value))
        {
          RedactionCommutes(py, fields[i].value);
        }
        assert Redact(py, NormalizeValue(py, v)).fields == NormalizeValue(py, Redact(py, v)).fields;
      case Array(items) =>
        forall i | 0 <= i < |items|
          ensures Redact(py, NormalizeValue(py, items[i])) == NormalizeValue(py, Redact(py, items[i]))
        {
          RedactionCommutes(py, items[i]);
        }
        assert Redact(py, NormalizeValue(py, v)).items == NormalizeValue(py, Redact(py, v)).items;
      case _ =>
    }
  }
}
