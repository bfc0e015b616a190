/**
  Insertion-ordered dictionaries with string keys: Python's `dict` and a JSON object.
  A dictionary is the sequence of its items, and no key occurs twice.
 */
module Dicts {

  datatype Option<+T> = None | Some(value: T)

  datatype Entry<+V> = Entry(key: string, value: V)

  type Dict<+V> = seq<Entry<V>>

  ghost predicate Unique<V>(d: Dict<V>) {
    forall i, j :: 0 <= i < j < |d| ==> d[i].key != d[j].key
  }

  predicate Has<V>(d: Dict<V>, k: string) {
    exists i :: 0 <= i < |d| && d[i].key == k
  }

  function Get<V>(d: Dict<V>, k: string): Option<V> {
    if |d| == 0 then None
    else if d[0].key == k then Some(d[0].value)
    else Get(d[1..], k)
  }

  /** `d[k] = v`: an existing key keeps its place, a new one goes last. */
  function Put<V>(d: Dict<V>, k: string, v: V): Dict<V> {
    if |d| == 0 then [Entry(k, v)]
    else if d[0].key == k then [Entry(k, v)] + d[1..]
    else [d[0]] + Put(d[1..], k, v)
  }

  /** `del d[k]`, which changes nothing when the key is absent. */
  function Remove<V>(d: Dict<V>, k: string): Dict<V> {
    if |d| == 0 then []
    else if d[0].key == k then d[1..]
    else [d[0]] + Remove(d[1..], k)
  }

  function Keys<V>(d: Dict<V>): seq<string> {
    seq(|d|, i requires 0 <= i < |d| => d[i].key)
  }

  function Values<V>(d: Dict<V>): seq<V> {
    seq(|d|, i requires 0 <= i < |d| => d[i].value)
  }

  /** Two dictionaries are equal in Python when they agree at every key, whatever the order. */
  ghost predicate SameItems<V>(d: Dict<V>, e: Dict<V>) {
    forall k :: Get(d, k) == Get(e, k)
  }

  lemma {:induction false} GetIsHas<V>(d: Dict<V>, k: string)
    ensures Get(d, k).Some? <==> Has(d, k)
    ensures Get(d, k).Some? ==> exists i :: 0 <= i < |d| && d[i] == Entry(k, Get(d, k).value)
  {
    if |d| > 0 && d[0].key != k {
      GetIsHas(d[1..], k);
      if Has(d, k) {
        var i :| 0 <= i < |d| && d[i].key == k;
        assert d[1..][i - 1].key == k;
      }
    }
  }

  lemma KeysAreDistinct<V>(d: Dict<V>)
    requires Unique(d)
    ensures forall i, j :: 0 <= i < j < |Keys(d)| ==> Keys(d)[i] != Keys(d)[j]
    ensures forall k :: k in Keys(d) <==> Has(d, k)
  {
    forall k | Has(d, k) ensures k in Keys(d) {
      var i :| 0 <= i < |d| && d[i].key == k;
      assert Keys(d)[i] == k;
    }
  }

  lemma {:induction false} GetAt<V>(d: Dict<V>, i: nat)
    requires Unique(d) && i < |d|
    ensures Get(d, d[i].key) == Some(d[i].value)
  {
    if i > 0 {
      GetAt(d[1..], i - 1);
    }
  }

  lemma {:induction false} GetPut<V>(d: Dict<V>, k: string, v: V, q: string)
    ensures Get(Put(d, k, v), q) == if q == k then Some(v) else Get(d, q)
  {
    if |d| > 0 && d[0].key != k {
      GetPut(d[1..], k, v, q);
    }
  }

  lemma PutHas<V>(d: Dict<V>, k: string, v: V, q: string)
    ensures Has(Put(d, k, v), q) <==> q == k || Has(d, q)
  {
    GetPut(d, k, v, q);
    GetIsHas(Put(d, k, v), q);
    GetIsHas(d, q);
  }

  lemma {:induction false} PutFresh<V>(d: Dict<V>, k: string, v: V)
    requires !Has(d, k)
    ensures Put(d, k, v) == d + [Entry(k, v)]
  {
    if |d| > 0 {
      PutFresh(d[1..], k, v);
    }
  }

  lemma {:induction false} PutExisting<V>(d: Dict<V>, k: string, v: V)
    requires Has(d, k)
    ensures |Put(d, k, v)| == |d|
    ensures forall i :: 0 <= i < |d| ==> Put(d, k, v)[i].key == d[i].key
  {
    if d[0].key != k {
      GetIsHas(d, k);
      GetIsHas(d[1..], k);
      PutExisting(d[1..], k, v);
    }
  }

  lemma PutUnique<V>(d: Dict<V>, k: string, v: V)
    requires Unique(d)
    ensures Unique(Put(d, k, v))
  {
    if Has(d, k) {
      PutExisting(d, k, v);
    } else {
      PutFresh(d, k, v);
    }
  }

  lemma {:induction false} GetRemove<V>(d: Dict<V>, k: string, q: string)
    requires Unique(d)
    ensures Unique(Remove(d, k))
    ensures Get(Remove(d, k), q) == if q == k then None else Get(d, q)
    ensures Has(d, k) ==> |Remove(d, k)| == |d| - 1
    ensures !Has(d, k) ==> Remove(d, k) == d
  {
    if |d| > 0 {
      if d[0].key == k {
        GetIsHas(d[1..], k);
      } else {
        GetRemove(d[1..], k, q);
        GetIsHas(d[1..], k);
        GetIsHas(d, k);
        var r := Remove(d[1..], k);
        forall i | 0 <= i < |r| ensures r[i].key != d[0].key {
          GetRemove(d[1..], k, d[0].key);
          GetIsHas(d[1..], d[0].key);
          GetIsHas(r, d[0].key);
        }
      }
    }
  }

  /** Removing takes out one item and leaves the others in their order. */
  lemma {:induction false} RemoveTakesOut<V>(d: Dict<V>, k: string) returns (i: nat)
    requires Has(d, k)
    ensures i < |d| && d[i].key == k && Remove(d, k) == d[..i] + d[i + 1..]
  {
    if d[0].key == k {
      i := 0;
    } else {
      var j: nat :| j < |d| && d[j].key == k;
      assert d[1..][j - 1].key == k;
      i := RemoveTakesOut(d[1..], k);
      i := i + 1;
      assert d[..i] == [d[0]] + d[1..][..i - 1];
    }
  }
}
