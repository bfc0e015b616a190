/**
  Which paths the difference of two payloads lists, and in which order
  (`payloadDiff`, src/components/Dashboard.jsx, lines 179-191).
 */
module DiffEntries {
  import opened Dicts
  import opened JsonTrees
  import opened PayloadDiff

  predicate BothObjects(b: Option<Json>, a: Option<Json>) {
    b.Some? && a.Some? && b.value.Object? && a.value.Object?
  }

  /** Objects on both sides all the way down, and then values that differ and are not both objects. */
  ghost predicate Changed(before: Json, after: Json, path: KeyPath) {
    && |path| > 0
    && (forall n :: 0 <= n < |path| ==> BothObjects(Lookup(before, path[..n]), Lookup(after, path[..n])))
    && Lookup(before, path) != Lookup(after, path)
    && !BothObjects(Lookup(before, path), Lookup(after, path))
  }

  ghost predicate Listed(ds: seq<Difference>, path: KeyPath) {
    exists i :: 0 <= i < |ds| && ds[i].path == path
  }

  lemma LookupBelow(o: Json, key: string, path: KeyPath)
    requires o.Object? && Get(o.fields, key).Some?
    ensures Lookup(o, [key] + path) == Lookup(Get(o.fields, key).value, path)
  {
  }

  /** Below a key with objects on both sides, what has changed is what has changed in them. */
  lemma ChangedBelow(before: Json, after: Json, key: string, path: KeyPath)
    requires before.Object? && after.Object? && BothObjects(Get(before.fields, key), Get(after.fields, key))
    ensures Changed(before, after, [key] + path) <==>
            Changed(Get(before.fields, key).value, Get(after.fields, key).value, path)
  {
    var b, a := Get(before.fields, key).value, Get(after.fields, key).value;
    var whole := [key] + path;
    LookupBelow(before, key, path);
    LookupBelow(after, key, path);
    forall n | 0 <= n <= |path|
      ensures whole[..n + 1] == [key] + path[..n]
      ensures Lookup(before, whole[..n + 1]) == Lookup(b, path[..n])
      ensures Lookup(after, whole[..n + 1]) == Lookup(a, path[..n])
    {
      assert whole[..n + 1] == [key] + path[..n];
      LookupBelow(before, key, path[..n]);
      LookupBelow(after, key, path[..n]);
    }
    if |path| == 0 {
      assert path == [];
    } else if Changed(before, after, whole) {
      forall n | 0 <= n < |path| ensures BothObjects(Lookup(b, path[..n]), Lookup(a, path[..n])) {
        assert BothObjects(Lookup(before, whole[..n + 1]), Lookup(after, whole[..n + 1]));
      }
    } else if Changed(b, a, path) {
      forall n | 0 <= n < |whole| ensures BothObjects(Lookup(before, whole[..n]), Lookup(after, whole[..n])) {
        if n > 0 {
          assert BothObjects(Lookup(b, path[..n - 1]), Lookup(a, path[..n - 1]));
        }
      }
    }
  }

  /** At a key without objects on both sides, only the key itself can have changed. */
  lemma ChangedHere(before: Json, after: Json, key: string, path: KeyPath)
    requires before.Object? && after.Object? && !BothObjects(Get(before.fields, key), Get(after.fields, key))
    ensures Changed(before, after, [key] + path) <==>
            path == [] && Get(before.fields, key) != Get(after.fields, key)
  {
    var whole := [key] + path;
    LookupOne(before, key);
    LookupOne(after, key);
    assert whole[..1] == [key] && whole[..0] == [];
    if |path| == 0 {
      assert whole == [key];
    } else {
      assert !BothObjects(Lookup(before, whole[..1]), Lookup(after, whole[..1]));
    }
  }

  lemma EqualIsUnchanged(v: Json, path: KeyPath)
    ensures !Changed(v, v, path)
  {
  }

  lemma ListedInShift(key: string, ds: seq<Difference>, path: KeyPath)
    ensures Listed(Shift([key], ds), path) <==> |path| > 0 && path[0] == key && Listed(ds, path[1..])
  {
    if i :| 0 <= i < |ds| && |path| > 0 && path[0] == key && ds[i].path == path[1..] {
      assert Shift([key], ds)[i].path == path;
    }
    if i :| 0 <= i < |ds| && Shift([key], ds)[i].path == path {
      assert path[1..] == ds[i].path;
    }
  }

  lemma ListedInBoth(ds: seq<Difference>, es: seq<Difference>, path: KeyPath)
    ensures Listed(ds + es, path) <==> Listed(ds, path) || Listed(es, path)
  {
    if i :| 0 <= i < |ds| && ds[i].path == path {
      assert (ds + es)[i].path == path;
    }
    if i :| 0 <= i < |es| && es[i].path == path {
      assert (ds + es)[|ds| + i].path == path;
    }
  }

  /** What one key lists: the changed paths that start with it. */
  lemma {:induction false} KeyLists(key: string, before: Json, after: Json, path: KeyPath)
    requires before.Object? && after.Object? && WellFormed(before) && WellFormed(after)
    ensures Listed(DiffKey(key, before, after, []), path) <==>
            |path| > 0 && path[0] == key && Changed(before, after, path)
    decreases before, 0, 0
  {
    var b, a := Get(before.fields, key), Get(after.fields, key);
    GetIsHas(before.fields, key);
    assert [] + [key] == [key];
    if |path| > 0 && path[0] == key {
      assert path == [key] + path[1..];
      if BothObjects(b, a) {
        ChangedBelow(before, after, key, path[1..]);
        EqualIsUnchanged(b.value, path[1..]);
      } else {
        ChangedHere(before, after, key, path[1..]);
      }
    }
    if b != a && BothObjects(b, a) {
      DiffKeyNested(key, before, after);
      ListedInShift(key, Diff(b.value, a.value, []), path);
      if |path| > 0 {
        SubtreesWellFormed(before, key);
        SubtreesWellFormed(after, key);
        ListedIffChanged(b.value, a.value, path[1..]);
      }
    } else if b != a {
      assert DiffKey(key, before, after, []) == [Difference([key], b, a)];
      assert DiffKey(key, before, after, [])[0].path == [key];
    }
  }

  lemma {:induction false} KeysList(keys: seq<string>, before: Json, after: Json, path: KeyPath)
    requires before.Object? && after.Object? && WellFormed(before) && WellFormed(after)
    ensures Listed(DiffKeys(keys, before, after, []), path) <==>
            |path| > 0 && path[0] in keys && Changed(before, after, path)
    decreases before, 0, |keys|
  {
    if |keys| > 0 {
      KeyLists(keys[0], before, after, path);
      KeysList(keys[1..], before, after, path);
      ListedInBoth(DiffKey(keys[0], before, after, []), DiffKeys(keys[1..], before, after, []), path);
    }
  }

  /** A path is listed exactly when the payloads have changed there, as deep down as both have objects. */
  lemma {:induction false} ListedIffChanged(before: Json, after: Json, path: KeyPath)
    requires before.Object? && after.Object? && WellFormed(before) && WellFormed(after)
    ensures Listed(Diff(before, after, []), path) <==> Changed(before, after, path)
    decreases before, 1, 0
  {
    var keys := UnionKeys(before.fields, after.fields);
    UnionFacts(before.fields, after.fields);
    KeysList(keys, before, after, path);
  }

  /** Against a payload that was never stored, every key of the other one is listed, whole. */
  lemma MissingListsAll(v: Json, path: KeyPath)
    requires v.Object? && WellFormed(v)
    ensures Listed(Inspect(Null, v), path) <==> |path| == 1 && Has(v.fields, path[0])
    ensures Listed(Inspect(v, Null), path) <==> |path| == 1 && Has(v.fields, path[0])
  {
    var empty := Object([]);
    ListedIffChanged(empty, v, path);
    ListedIffChanged(v, empty, path);
    if |path| > 0 {
      ChangedHere(empty, v, path[0], path[1..]);
      ChangedHere(v, empty, path[0], path[1..]);
      GetIsHas(v.fields, path[0]);
      assert path == [path[0]] + path[1..];
    }
  }

  // ---------------------------------------------------------------- the order of the entries

  ghost predicate InOrder(d: Dict<Json>, k: string, l: string) {
    exists i, j :: 0 <= i < j < |d| && d[i].key == k && d[j].key == l
  }

  /** The keys of `before` come first, in its order, and then the others of `after`, in its order. */
  ghost predicate Earlier(before: Dict<Json>, after: Dict<Json>, k: string, l: string) {
    if Has(before, k) then InOrder(before, k, l) || (!Has(before, l) && Has(after, l))
    else !Has(before, l) && InOrder(after, k, l)
  }

  /** Where two paths part, the key of the first is the earlier one. */
  ghost predicate ListedBefore(before: Json, after: Json, p: KeyPath, q: KeyPath)
    decreases |p|
  {
    && |p| > 0 && |q| > 0 && before.Object? && after.Object?
    && if p[0] != q[0] then Earlier(before.fields, after.fields, p[0], q[0])
       else
         var b, a := Get(before.fields, p[0]), Get(after.fields, p[0]);
         b.Some? && a.Some? && ListedBefore(b.value, a.value, p[1..], q[1..])
  }

  ghost predicate InListOrder(before: Json, after: Json, ds: seq<Difference>) {
    forall i, j :: 0 <= i < j < |ds| ==> ListedBefore(before, after, ds[i].path, ds[j].path)
  }

  lemma {:induction false} NewKeysInOrder(before: Dict<Json>, after: Dict<Json>, n: nat, i: nat, j: nat)
    requires n <= |after| && i < j < |NewKeys(before, Keys(after)[n..])|
    ensures var r := NewKeys(before, Keys(after)[n..]); InOrder(after, r[i], r[j])
    decreases |after| - n
  {
    var keys := Keys(after)[n..];
    assert keys[1..] == Keys(after)[n + 1..] && keys[0] == after[n].key;
    if Has(before, keys[0]) {
      NewKeysInOrder(before, after, n + 1, i, j);
    } else if i > 0 {
      NewKeysInOrder(before, after, n + 1, i - 1, j - 1);
    } else {
      var m := NewKeysCome(before, after, n + 1, j - 1);
    }
  }

  lemma {:induction false} NewKeysCome(before: Dict<Json>, after: Dict<Json>, n: nat, j: nat) returns (m: nat)
    requires n <= |after| && j < |NewKeys(before, Keys(after)[n..])|
    ensures n <= m < |after| && after[m].key == NewKeys(before, Keys(after)[n..])[j] && !Has(before, after[m].key)
    decreases |after| - n
  {
    var keys := Keys(after)[n..];
    assert keys[1..] == Keys(after)[n + 1..] && keys[0] == after[n].key;
    if Has(before, keys[0]) {
      m := NewKeysCome(before, after, n + 1, j);
    } else if j > 0 {
      m := NewKeysCome(before, after, n + 1, j - 1);
    } else {
      m := n;
    }
  }

  lemma UnionInOrder(before: Dict<Json>, after: Dict<Json>, i: nat, j: nat)
    requires i < j < |UnionKeys(before, after)|
    ensures var r := UnionKeys(before, after); Earlier(before, after, r[i], r[j])
  {
    var keys := Keys(after);
    assert keys[0..] == keys;
    if j < |before| {
      assert before[i].key == UnionKeys(before, after)[i] && before[j].key == UnionKeys(before, after)[j];
    } else {
      var m := NewKeysCome(before, after, 0, j - |before|);
      if i < |before| {
        assert before[i].key == UnionKeys(before, after)[i];
      } else {
        var x := NewKeysCome(before, after, 0, i - |before|);
        NewKeysInOrder(before, after, 0, i - |before|, j - |before|);
      }
    }
  }

  /** The entries of one key are in order. */
  lemma {:induction false} KeyIsInOrder(key: string, before: Json, after: Json)
    requires before.Object? && after.Object? && WellFormed(before) && WellFormed(after)
    ensures InListOrder(before, after, DiffKey(key, before, after, []))
    ensures forall i :: 0 <= i < |DiffKey(key, before, after, [])| ==>
      |DiffKey(key, before, after, [])[i].path| > 0 && DiffKey(key, before, after, [])[i].path[0] == key
    decreases before, 0, 0
  {
    var b, a := Get(before.fields, key), Get(after.fields, key);
    GetIsHas(before.fields, key);
    assert [] + [key] == [key];
    if b != a && BothObjects(b, a) {
      SubtreesWellFormed(before, key);
      SubtreesWellFormed(after, key);
      DiffKeyNested(key, before, after);
      EntriesAreInOrder(b.value, a.value);
      var ds := Diff(b.value, a.value, []);
      forall i, j | 0 <= i < j < |ds|
        ensures ListedBefore(before, after, Shift([key], ds)[i].path, Shift([key], ds)[j].path)
      {
        assert ([key] + ds[i].path)[1..] == ds[i].path && ([key] + ds[j].path)[1..] == ds[j].path;
      }
    }
  }

  lemma {:induction false} KeysAreInOrder(n: nat, before: Json, after: Json)
    requires before.Object? && after.Object? && WellFormed(before) && WellFormed(after)
    requires n <= |UnionKeys(before.fields, after.fields)|
    ensures var keys := UnionKeys(before.fields, after.fields)[n..];
      var ds := DiffKeys(keys, before, after, []);
      InListOrder(before, after, ds) && forall i :: 0 <= i < |ds| ==> |ds[i].path| > 0 && ds[i].path[0] in keys
    decreases before, 0, |UnionKeys(before.fields, after.fields)| - n
  {
    var all := UnionKeys(before.fields, after.fields);
    if n < |all| {
      KeyIsInOrder(all[n], before, after);
      KeysAreInOrder(n + 1, before, after);
      assert all[n..][1..] == all[n + 1..];
      var ds, es := DiffKey(all[n], before, after, []), DiffKeys(all[n + 1..], before, after, []);
      UnionFacts(before.fields, after.fields);
      forall i, j | 0 <= i < |ds| && 0 <= j < |es| ensures ListedBefore(before, after, ds[i].path, es[j].path) {
        var m :| n + 1 <= m < |all| && all[m] == es[j].path[0];
        UnionInOrder(before.fields, after.fields, n, m);
      }
      assert DiffKeys(all[n..], before, after, []) == ds + es;
    }
  }

  /** The entries come in the order of the keys at every depth: those of `before` first. */
  lemma {:induction false} EntriesAreInOrder(before: Json, after: Json)
    requires before.Object? && after.Object? && WellFormed(before) && WellFormed(after)
    ensures InListOrder(before, after, Diff(before, after, []))
    decreases before, 1, 0
  {
    var all := UnionKeys(before.fields, after.fields);
    assert all[0..] == all;
    KeysAreInOrder(0, before, after);
  }
}
