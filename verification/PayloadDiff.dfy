/**
  The structural difference of two payloads shown by the inspector
  (`payloadDiff`, src/components/Dashboard.jsx, lines 179-191).

  Paths are sequences of keys.  `JSON.stringify` keeps key order, so comparing its results is
  equality of the ordered trees.
 */
module PayloadDiff {
  import opened Dicts
  import opened JsonTrees

  type KeyPath = seq<string>

  /** `None` is JavaScript's `undefined`: the key is absent on that side. */
  datatype Difference = Difference(path: KeyPath, before: Option<Json>, after: Option<Json>)

  /** The keys of both sides, those of `before` first, without repetition. */
  function UnionKeys(before: Dict<Json>, after: Dict<Json>): seq<string> {
    Keys(before) + NewKeys(before, Keys(after))
  }

  function NewKeys(before: Dict<Json>, keys: seq<string>): seq<string> {
    if |keys| == 0 then []
    else (if Has(before, keys[0]) then [] else [keys[0]]) + NewKeys(before, keys[1..])
  }

  function Diff(before: Json, after: Json, prefix: KeyPath): seq<Difference>
    requires before.Object? && after.Object?
    decreases before, 1, 0
  {
    DiffKeys(UnionKeys(before.fields, after.fields), before, after, prefix)
  }

  function DiffKeys(keys: seq<string>, before: Json, after: Json, prefix: KeyPath): seq<Difference>
    requires before.Object? && after.Object?
    decreases before, 0, |keys|
  {
    if |keys| == 0 then []
    else DiffKey(keys[0], before, after, prefix) + DiffKeys(keys[1..], before, after, prefix)
  }

  function DiffKey(key: string, before: Json, after: Json, prefix: KeyPath): seq<Difference>
    requires before.Object? && after.Object?
    decreases before, 0, 0
  {
    var b, a := Get(before.fields, key), Get(after.fields, key);
    GetIsHas(before.fields, key);
    if b == a then []
    else if b.Some? && a.Some? && b.value.Object? && a.value.Object? then Diff(b.value, a.value, prefix + [key])
    else [Difference(prefix + [key], b, a)]
  }

  // ---------------------------------------------------------------- patching

  /** Writes a value at a path, or deletes what is there. */
  function SetAt(o: Dict<Json>, path: KeyPath, value: Option<Json>): Dict<Json>
    requires |path| > 0
    decreases |path|
  {
    if |path| == 1 then
      match value case Some(v) => Put(o, path[0], v) case None => Remove(o, path[0])
    else
      var sub := Get(o, path[0]);
      if sub.Some? && sub.value.Object? then Put(o, path[0], Object(SetAt(sub.value.fields, path[1..], value)))
      else o
  }

  ghost predicate Rooted(ds: seq<Difference>) {
    forall i :: 0 <= i < |ds| ==> |ds[i].path| > 0
  }

  /** Applies the `after` side of every entry, or the `before` side when going back. */
  ghost function Patch(o: Dict<Json>, ds: seq<Difference>, forward: bool): Dict<Json>
    requires Rooted(ds)
    decreases |ds|
  {
    if |ds| == 0 then o
    else Patch(SetAt(o, ds[0].path, if forward then ds[0].after else ds[0].before), ds[1..], forward)
  }

  /** No object met on the way down repeats a key. */
  ghost predicate WellFormed(v: Json) {
    v.Object? ==> Unique(v.fields) && forall i :: 0 <= i < |v.fields| ==> WellFormed(v.fields[i].value)
  }

  /** Equal up to the order of keys in nested objects. */
  ghost predicate Same(v: Json, w: Json) {
    if v.Object? && w.Object? then
      && (forall i :: 0 <= i < |v.fields| ==>
            Get(w.fields, v.fields[i].key).Some? && Same(v.fields[i].value, Get(w.fields, v.fields[i].key).value))
      && (forall i :: 0 <= i < |w.fields| ==> Has(v.fields, w.fields[i].key))
    else v == w
  }

  ghost predicate SameAt(o: Dict<Json>, p: Dict<Json>, key: string) {
    match (Get(o, key), Get(p, key))
    case (Some(v), Some(w)) => Same(v, w)
    case (None, None) => true
    case _ => false
  }

  lemma {:induction false} SameReflexive(v: Json)
    requires WellFormed(v)
    ensures Same(v, v)
  {
    if v.Object? {
      forall i | 0 <= i < |v.fields|
        ensures Get(v.fields, v.fields[i].key) == Some(v.fields[i].value) && Same(v.fields[i].value, v.fields[i].value)
      {
        GetAt(v.fields, i);
        SameReflexive(v.fields[i].value);
      }
    }
  }

  lemma SameIsSameAt(o: Dict<Json>, p: Dict<Json>)
    requires Unique(o)
    ensures Same(Object(o), Object(p)) <==> forall k :: SameAt(o, p, k)
  {
    if Same(Object(o), Object(p)) {
      forall k ensures SameAt(o, p, k) {
        GetIsHas(o, k);
        GetIsHas(p, k);
        if Has(o, k) {
          var i :| 0 <= i < |o| && o[i] == Entry(k, Get(o, k).value);
        }
        if Has(p, k) {
          var i :| 0 <= i < |p| && p[i] == Entry(k, Get(p, k).value);
        }
      }
    }
    if forall k :: SameAt(o, p, k) {
      forall i | 0 <= i < |o| ensures Get(p, o[i].key).Some? && Same(o[i].value, Get(p, o[i].key).value) {
        GetAt(o, i);
        assert SameAt(o, p, o[i].key);
      }
      forall i | 0 <= i < |p| ensures Has(o, p[i].key) {
        GetIsHas(p, p[i].key);
        GetIsHas(o, p[i].key);
        assert SameAt(o, p, p[i].key);
      }
    }
  }

  // ---------------------------------------------------------------- prefixes

  function Shift(prefix: KeyPath, ds: seq<Difference>): seq<Difference> {
    seq(|ds|, i requires 0 <= i < |ds| => Difference(prefix + ds[i].path, ds[i].before, ds[i].after))
  }

  lemma ShiftTwice(p: KeyPath, q: KeyPath, ds: seq<Difference>)
    ensures Shift(p, Shift(q, ds)) == Shift(p + q, ds)
  {
    assert forall i :: 0 <= i < |ds| ==> p + (q + ds[i].path) == p + q + ds[i].path;
  }

  /** The prefix handed down is only ever put in front of the paths. */
  lemma {:induction false} DiffShifts(before: Json, after: Json, prefix: KeyPath)
    requires before.Object? && after.Object?
    ensures Diff(before, after, prefix) == Shift(prefix, Diff(before, after, []))
    decreases before, 1, 0
  {
    DiffKeysShift(UnionKeys(before.fields, after.fields), before, after, prefix);
  }

  lemma {:induction false} DiffKeysShift(keys: seq<string>, before: Json, after: Json, prefix: KeyPath)
    requires before.Object? && after.Object?
    ensures DiffKeys(keys, before, after, prefix) == Shift(prefix, DiffKeys(keys, before, after, []))
    decreases before, 0, |keys|
  {
    if |keys| > 0 {
      DiffKeyShifts(keys[0], before, after, prefix);
      DiffKeysShift(keys[1..], before, after, prefix);
    }
  }

  lemma {:induction false} DiffKeyShifts(key: string, before: Json, after: Json, prefix: KeyPath)
    requires before.Object? && after.Object?
    ensures DiffKey(key, before, after, prefix) == Shift(prefix, DiffKey(key, before, after, []))
    decreases before, 0, 0
  {
    var b, a := Get(before.fields, key), Get(after.fields, key);
    GetIsHas(before.fields, key);
    assert [] + [key] == [key];
    if b != a && b.Some? && a.Some? && b.value.Object? && a.value.Object? {
      DiffShifts(b.value, a.value, prefix + [key]);
      DiffShifts(b.value, a.value, [key]);
      ShiftTwice(prefix, [key], Diff(b.value, a.value, []));
    }
  }

  lemma DiffKeyNested(key: string, before: Json, after: Json)
    requires before.Object? && after.Object?
    ensures var b, a := Get(before.fields, key), Get(after.fields, key);
      b != a && b.Some? && a.Some? && b.value.Object? && a.value.Object? ==>
      DiffKey(key, before, after, []) == Shift([key], Diff(b.value, a.value, []))
  {
    var b, a := Get(before.fields, key), Get(after.fields, key);
    if b != a && b.Some? && a.Some? && b.value.Object? && a.value.Object? {
      DiffShifts(b.value, a.value, [key]);
      assert [] + [key] == [key];
    }
  }

  // ---------------------------------------------------------------- patching turns one side into the other

  lemma {:induction false} PatchConcat(o: Dict<Json>, ds: seq<Difference>, es: seq<Difference>, forward: bool)
    requires Rooted(ds) && Rooted(es)
    ensures Patch(o, ds + es, forward) == Patch(Patch(o, ds, forward), es, forward)
    decreases |ds|
  {
    if |ds| == 0 {
      assert ds + es == es;
    } else {
      assert (ds + es)[1..] == ds[1..] + es;
      PatchConcat(SetAt(o, ds[0].path, if forward then ds[0].after else ds[0].before), ds[1..], es, forward);
    }
  }

  /** Entries below `key` patch the object at `key` and nothing else. */
  lemma {:induction false} PatchBelow(o: Dict<Json>, key: string, ds: seq<Difference>, forward: bool)
    requires Unique(o) && Rooted(ds) && Get(o, key).Some? && Get(o, key).value.Object?
    ensures Rooted(Shift([key], ds))
    ensures var r := Patch(o, Shift([key], ds), forward);
      && Unique(r)
      && Get(r, key) == Some(Object(Patch(Get(o, key).value.fields, ds, forward)))
      && forall q :: q != key ==> Get(r, q) == Get(o, q)
    decreases |ds|
  {
    if |ds| > 0 {
      var d := ds[0];
      var value := if forward then d.after else d.before;
      assert ([key] + d.path)[1..] == d.path;
      var next := Object(SetAt(Get(o, key).value.fields, d.path, value));
      var o' := Put(o, key, next);
      PutUnique(o, key, next);
      forall q ensures Get(o', q) == if q == key then Some(next) else Get(o, q) {
        GetPut(o, key, next, q);
      }
      assert Shift([key], ds)[1..] == Shift([key], ds[1..]);
      PatchBelow(o', key, ds[1..], forward);
    }
  }

  ghost function Side(before: Json, after: Json, first: bool): Dict<Json>
    requires before.Object? && after.Object?
  {
    if first then before.fields else after.fields
  }

  lemma SubtreesWellFormed(v: Json, key: string)
    requires v.Object? && WellFormed(v) && Get(v.fields, key).Some?
    ensures WellFormed(Get(v.fields, key).value)
  {
    GetIsHas(v.fields, key);
  }

  lemma WellFormedByKeys(o: Dict<Json>)
    requires Unique(o) && forall q :: Get(o, q).Some? ==> WellFormed(Get(o, q).value)
    ensures WellFormed(Object(o))
  {
    forall i | 0 <= i < |o| ensures WellFormed(o[i].value) {
      GetAt(o, i);
    }
  }

  /** A single entry at `key` writes or deletes exactly that key. */
  lemma PatchLeaf(o: Dict<Json>, d: Difference, key: string, forward: bool)
    requires Unique(o) && d.path == [key]
    ensures var r := Patch(o, [d], forward);
      && Unique(r)
      && forall q :: Get(r, q) == if q == key then (if forward then d.after else d.before) else Get(o, q)
  {
    var value := if forward then d.after else d.before;
    var r := SetAt(o, [key], value);
    assert Patch(o, [d], forward) == r;
    match value {
      case Some(v) =>
        PutUnique(o, key, v);
        forall q ensures Get(r, q) == if q == key then value else Get(o, q) {
          GetPut(o, key, v, q);
        }
      case None =>
        forall q ensures Unique(r) && Get(r, q) == if q == key then value else Get(o, q) {
          GetRemove(o, key, q);
        }
        GetRemove(o, key, key);
    }
  }

  /** What one key contributes: it carries over, and no other key is touched. */
  lemma {:induction false} PatchKey(key: string, before: Json, after: Json, o: Dict<Json>, forward: bool)
    requires before.Object? && after.Object? && WellFormed(before) && WellFormed(after) && WellFormed(Object(o))
    requires SameAt(o, Side(before, after, forward), key)
    ensures Rooted(DiffKey(key, before, after, []))
    ensures var r := Patch(o, DiffKey(key, before, after, []), forward);
      && SameAt(r, Side(before, after, !forward), key)
      && WellFormed(Object(r))
      && forall q :: q != key ==> Get(r, q) == Get(o, q)
    decreases before, 0, 0
  {
    var b, a := Get(before.fields, key), Get(after.fields, key);
    GetIsHas(before.fields, key);
    if b.Some? {
      SubtreesWellFormed(before, key);
      SameReflexive(b.value);
    }
    if a.Some? {
      SubtreesWellFormed(after, key);
      SameReflexive(a.value);
    }
    if b != a {
      forall q | Get(o, q).Some? ensures WellFormed(Get(o, q).value) {
        SubtreesWellFormed(Object(o), q);
      }
      var r;
      if b.Some? && a.Some? && b.value.Object? && a.value.Object? {
        DiffKeyNested(key, before, after);
        PatchTransforms(b.value, a.value, Get(o, key).value, forward);
        PatchBelow(o, key, Diff(b.value, a.value, []), forward);
        r := Patch(o, DiffKey(key, before, after, []), forward);
      } else {
        assert [] + [key] == [key];
        PatchLeaf(o, Difference([key], b, a), key, forward);
        r := Patch(o, DiffKey(key, before, after, []), forward);
      }
      WellFormedByKeys(r);
    }
  }

  ghost predicate Distinct(keys: seq<string>) {
    forall i, j :: 0 <= i < j < |keys| ==> keys[i] != keys[j]
  }

  /** Each listed key carries over in turn, and the others stay as they were. */
  lemma {:induction false} PatchKeys(keys: seq<string>, before: Json, after: Json, o: Dict<Json>, forward: bool)
    requires before.Object? && after.Object? && WellFormed(before) && WellFormed(after) && WellFormed(Object(o))
    requires Distinct(keys) && forall k :: k in keys ==> SameAt(o, Side(before, after, forward), k)
    ensures Rooted(DiffKeys(keys, before, after, []))
    ensures var r := Patch(o, DiffKeys(keys, before, after, []), forward);
      && WellFormed(Object(r))
      && (forall k :: k in keys ==> SameAt(r, Side(before, after, !forward), k))
      && (forall q :: q !in keys ==> Get(r, q) == Get(o, q))
    decreases before, 0, |keys|
  {
    if |keys| > 0 {
      PatchKey(keys[0], before, after, o, forward);
      var o' := Patch(o, DiffKey(keys[0], before, after, []), forward);
      forall k | k in keys[1..] ensures k in keys && k != keys[0] && SameAt(o', Side(before, after, forward), k) {
        assert SameAt(o, Side(before, after, forward), k);
      }
      PatchKeys(keys[1..], before, after, o', forward);
      PatchConcat(o, DiffKey(keys[0], before, after, []), DiffKeys(keys[1..], before, after, []), forward);
      var r := Patch(o', DiffKeys(keys[1..], before, after, []), forward);
      forall k | k in keys ensures SameAt(r, Side(before, after, !forward), k) {
        assert k == keys[0] || k in keys[1..];
      }
    }
  }

  lemma {:induction false} NewKeysFacts(before: Dict<Json>, keys: seq<string>)
    requires Distinct(keys)
    ensures var r := NewKeys(before, keys); Distinct(r) && forall k :: k in r <==> k in keys && !Has(before, k)
  {
    if |keys| > 0 {
      NewKeysFacts(before, keys[1..]);
    }
  }

  lemma ConcatDistinct(xs: seq<string>, ys: seq<string>)
    requires Distinct(xs) && Distinct(ys) && forall k :: k in ys ==> k !in xs
    ensures Distinct(xs + ys)
  {
    forall i, j | 0 <= i < j < |xs + ys| ensures (xs + ys)[i] != (xs + ys)[j] {
      if i < |xs| <= j {
        assert ys[j - |xs|] in ys;
      }
    }
  }

  lemma UnionFacts(before: Dict<Json>, after: Dict<Json>)
    requires Unique(before) && Unique(after)
    ensures var r := UnionKeys(before, after);
      Distinct(r) && forall k :: k in r <==> Get(before, k).Some? || Get(after, k).Some?
  {
    KeysAreDistinct(before);
    KeysAreDistinct(after);
    NewKeysFacts(before, Keys(after));
    ConcatDistinct(Keys(before), NewKeys(before, Keys(after)));
    forall k ensures k in UnionKeys(before, after) <==> Get(before, k).Some? || Get(after, k).Some? {
      GetIsHas(before, k);
      GetIsHas(after, k);
    }
  }

  /**
    Applying the `after` sides to `before` (or to anything equal to it) gives `after`, and
    applying the `before` sides to `after` gives `before` back, up to the order of keys.
   */
  lemma {:induction false} PatchTransforms(before: Json, after: Json, o: Json, forward: bool)
    requires before.Object? && after.Object? && o.Object?
    requires WellFormed(before) && WellFormed(after) && WellFormed(o)
    requires Same(o, Object(Side(before, after, forward)))
    ensures Rooted(Diff(before, after, []))
    ensures var r := Object(Patch(o.fields, Diff(before, after, []), forward));
      WellFormed(r) && Same(r, Object(Side(before, after, !forward)))
    decreases before, 1, 0
  {
    var from, to := Side(before, after, forward), Side(before, after, !forward);
    var keys := UnionKeys(before.fields, after.fields);
    UnionFacts(before.fields, after.fields);
    SameIsSameAt(o.fields, from);
    PatchKeys(keys, before, after, o.fields, forward);
    var r := Patch(o.fields, DiffKeys(keys, before, after, []), forward);
    forall k ensures SameAt(r, to, k) {
      assert SameAt(o.fields, from, k);
    }
    SameIsSameAt(r, to);
  }

  // ---------------------------------------------------------------- what the entries say

  function Lookup(o: Json, path: KeyPath): Option<Json>
    decreases |path|
  {
    if |path| == 0 then Some(o)
    else if !o.Object? || Get(o.fields, path[0]) == None then None
    else Lookup(Get(o.fields, path[0]).value, path[1..])
  }

  lemma LookupOne(o: Json, key: string)
    requires o.Object?
    ensures Lookup(o, [key]) == Get(o.fields, key)
  {
  }

  /** The entry quotes both trees at its path, and they differ there. */
  ghost predicate Quotes(d: Difference, before: Json, after: Json) {
    && |d.path| > 0 && d.before != d.after
    && Lookup(before, d.path) == d.before && Lookup(after, d.path) == d.after
  }

  /** Neither path leads into the other. */
  ghost predicate Apart(p: KeyPath, q: KeyPath) {
    !(p <= q) && !(q <= p)
  }

  ghost predicate AllApart(ds: seq<Difference>) {
    forall i, j :: 0 <= i < j < |ds| ==> Apart(ds[i].path, ds[j].path)
  }

  /** Every entry quotes the two trees where they differ, and no path is a prefix of another. */
  lemma {:induction false} EntriesAreApart(before: Json, after: Json)
    requires before.Object? && after.Object? && WellFormed(before) && WellFormed(after)
    ensures var ds := Diff(before, after, []);
      AllApart(ds) && forall i :: 0 <= i < |ds| ==> Quotes(ds[i], before, after)
    decreases before, 1, 0
  {
    var keys := UnionKeys(before.fields, after.fields);
    UnionFacts(before.fields, after.fields);
    KeyEntriesAreApart(keys, before, after);
  }

  lemma {:induction false} KeyEntriesAreApart(keys: seq<string>, before: Json, after: Json)
    requires before.Object? && after.Object? && WellFormed(before) && WellFormed(after) && Distinct(keys)
    ensures var ds := DiffKeys(keys, before, after, []);
      && AllApart(ds)
      && forall i :: 0 <= i < |ds| ==> Quotes(ds[i], before, after) && ds[i].path[0] in keys
    decreases before, 0, |keys|
  {
    if |keys| > 0 {
      OneKeyEntries(keys[0], before, after);
      KeyEntriesAreApart(keys[1..], before, after);
      var ds, es := DiffKey(keys[0], before, after, []), DiffKeys(keys[1..], before, after, []);
      var all: seq<Difference> := ds + es;
      forall i, j | 0 <= i < j < |all| ensures Apart(all[i].path, all[j].path) {
        if i < |ds| <= j {
          assert es[j - |ds|].path[0] in keys[1..];
          assert ds[i].path[0] != es[j - |ds|].path[0];
        }
      }
    }
  }

  lemma {:induction false} OneKeyEntries(key: string, before: Json, after: Json)
    requires before.Object? && after.Object? && WellFormed(before) && WellFormed(after)
    ensures var ds := DiffKey(key, before, after, []);
      && AllApart(ds)
      && forall i :: 0 <= i < |ds| ==> Quotes(ds[i], before, after) && ds[i].path[0] == key
    decreases before, 0, 0
  {
    var b, a := Get(before.fields, key), Get(after.fields, key);
    GetIsHas(before.fields, key);
    assert [] + [key] == [key];
    if b != a && b.Some? && a.Some? && b.value.Object? && a.value.Object? {
      DiffKeyNested(key, before, after);
      SubtreesWellFormed(before, key);
      SubtreesWellFormed(after, key);
      EntriesAreApart(b.value, a.value);
      var ds := Diff(b.value, a.value, []);
      forall i | 0 <= i < |ds| ensures Quotes(Shift([key], ds)[i], before, after) {
        assert Quotes(ds[i], b.value, a.value);
        assert ([key] + ds[i].path)[1..] == ds[i].path;
      }
      forall i, j | 0 <= i < j < |ds| ensures Apart([key] + ds[i].path, [key] + ds[j].path) {
        ApartBelow(key, ds[i].path, ds[j].path);
      }
    } else if b != a {
      LookupOne(before, key);
      LookupOne(after, key);
    }
  }

  lemma ApartBelow(key: string, p: KeyPath, q: KeyPath)
    requires Apart(p, q)
    ensures Apart([key] + p, [key] + q)
  {
    assert ([key] + p)[1..] == p && ([key] + q)[1..] == q;
  }

  lemma {:induction false} SameHasNoEntries(before: Json, after: Json)
    requires before.Object? && after.Object? && WellFormed(before) && WellFormed(after) && Same(before, after)
    ensures Diff(before, after, []) == []
    decreases before, 1, 0
  {
    SameIsSameAt(before.fields, after.fields);
    SameKeysHaveNoEntries(UnionKeys(before.fields, after.fields), before, after);
  }

  lemma {:induction false} SameKeysHaveNoEntries(keys: seq<string>, before: Json, after: Json)
    requires before.Object? && after.Object? && WellFormed(before) && WellFormed(after)
    requires forall k :: SameAt(before.fields, after.fields, k)
    ensures DiffKeys(keys, before, after, []) == []
    decreases before, 0, |keys|
  {
    if |keys| > 0 {
      var key := keys[0];
      var b, a := Get(before.fields, key), Get(after.fields, key);
      assert SameAt(before.fields, after.fields, key);
      GetIsHas(before.fields, key);
      if b != a {
        SubtreesWellFormed(before, key);
        SubtreesWellFormed(after, key);
        DiffKeyNested(key, before, after);
        SameHasNoEntries(b.value, a.value);
      }
      SameKeysHaveNoEntries(keys[1..], before, after);
    }
  }

  // ---------------------------------------------------------------- the call made by the inspector

  /** A payload as the inspector gets it: an object, or null when none was stored. */
  predicate Payload(v: Json) {
    v.Object? || v.Null?
  }

  /** `before || {}`; below the top only objects are compared, so it matters there alone. */
  function OrEmpty(v: Json): Json
    requires Payload(v)
  {
    if v.Null? then Object([]) else v
  }

  function Inspect(before: Json, after: Json): seq<Difference>
    requires Payload(before) && Payload(after)
  {
    Diff(OrEmpty(before), OrEmpty(after), [])
  }

  /** There is nothing to show exactly when the trees agree up to the order of keys. */
  lemma EmptyIffSame(before: Json, after: Json)
    requires Payload(before) && Payload(after) && WellFormed(before) && WellFormed(after)
    ensures Inspect(before, after) == [] <==> Same(OrEmpty(before), OrEmpty(after))
  {
    var b, a := OrEmpty(before), OrEmpty(after);
    if Inspect(before, after) == [] {
      SameReflexive(b);
      PatchTransforms(b, a, b, true);
    } else if Same(b, a) {
      SameHasNoEntries(b, a);
    }
  }

  /** Patching forward gives the second payload, and patching back gives the first one again. */
  lemma PatchAndUndo(before: Json, after: Json)
    requires Payload(before) && Payload(after) && WellFormed(before) && WellFormed(after)
    ensures Rooted(Inspect(before, after))
    ensures var b, a, ds := OrEmpty(before), OrEmpty(after), Inspect(before, after);
      var there := Patch(b.fields, ds, true);
      && Same(Object(there), a)
      && Same(Object(Patch(there, ds, false)), b)
      && Same(Object(Patch(a.fields, ds, false)), b)
  {
    var b, a := OrEmpty(before), OrEmpty(after);
    SameReflexive(b);
    SameReflexive(a);
    PatchTransforms(b, a, b, true);
    PatchTransforms(b, a, Object(Patch(b.fields, Inspect(before, after), true)), false);
    PatchTransforms(b, a, a, false);
  }
}
