/**
  What the renaming loop of core/algorithms.py (lines 91-112) does to a payload, for any way of
  matching a key to an expected field: which keys end up in the table of renamings, when a
  value is lost, and which keys stay unmatched.
 */
module KeyRenaming {
  import opened Dicts

  type Matcher = string -> Option<string>

  /** All that renaming needs of a matcher: a field that some key matches would match itself. */
  ghost predicate SelfMatching(m: Matcher) {
    forall k :: m(k).Some? ==> m(m(k).value) == m(k)
  }

  /** The three locals of the loop. */
  datatype Mapped<V> = Mapped(payload: Dict<V>, mappings: map<string, string>, used: set<string>)

  function Step<V>(m: Matcher, acc: Mapped<V>, item: Entry<V>): Mapped<V> {
    var match_ := m(item.key);
    if match_ == None || match_.value in acc.used then
      acc.(payload := Put(acc.payload, item.key, item.value))
    else
      Mapped(Put(acc.payload, match_.value, item.value),
             if item.key != match_.value then acc.mappings[item.key := match_.value] else acc.mappings,
             acc.used + {match_.value})
  }

  function MapKeys<V>(m: Matcher, payload: Dict<V>): Mapped<V> {
    if |payload| == 0 then Mapped([], map[], {})
    else Step(m, MapKeys(m, payload[..|payload| - 1]), payload[|payload| - 1])
  }

  // ---------------------------------------------------------------- what the loop builds

  lemma MapKeysStep<V>(m: Matcher, payload: Dict<V>, n: nat)
    requires n < |payload|
    ensures MapKeys(m, payload[..n + 1]) == Step(m, MapKeys(m, payload[..n]), payload[n])
  {
    assert payload[..n + 1][..n] == payload[..n];
  }

  /** Some item among the first `n` matches field `u`. */
  ghost predicate Matched<V>(m: Matcher, payload: Dict<V>, n: nat, u: string)
    requires n <= |payload|
  {
    exists i :: 0 <= i < n && m(payload[i].key) == Some(u)
  }

  /** The first item that matches a field claims it; later ones keep their own key. */
  ghost predicate Claims<V>(m: Matcher, payload: Dict<V>, i: nat)
    requires i < |payload|
  {
    m(payload[i].key).Some? && !Matched(m, payload, i, m(payload[i].key).value)
  }

  ghost function NewKey<V>(m: Matcher, payload: Dict<V>, i: nat): string
    requires i < |payload|
  {
    if Claims(m, payload, i) then m(payload[i].key).value else payload[i].key
  }

  lemma {:induction false} UsedAreMatched<V>(m: Matcher, payload: Dict<V>, n: nat)
    requires n <= |payload|
    ensures forall u :: u in MapKeys(m, payload[..n]).used <==> Matched(m, payload, n, u)
  {
    if n > 0 {
      MapKeysStep(m, payload, n - 1);
      UsedAreMatched(m, payload, n - 1);
      forall u ensures Matched(m, payload, n, u) <==>
                       Matched(m, payload, n - 1, u) || m(payload[n - 1].key) == Some(u) {
        if m(payload[n - 1].key) == Some(u) {
          assert Matched(m, payload, n, u);
        }
      }
    }
  }

  lemma ClaimIsFirst<V>(m: Matcher, payload: Dict<V>, i: nat, j: nat)
    requires i < j < |payload| && Claims(m, payload, j)
    ensures m(payload[i].key) != m(payload[j].key)
  {
  }

  /** Each item is written once, under the field it claims or under its own key. */
  lemma PayloadStep<V>(m: Matcher, payload: Dict<V>, n: nat)
    requires n < |payload|
    ensures MapKeys(m, payload[..n + 1]).payload ==
            Put(MapKeys(m, payload[..n]).payload, NewKey(m, payload, n), payload[n].value)
  {
    MapKeysStep(m, payload, n);
    UsedAreMatched(m, payload, n);
  }

  /** Item `i` is the one that put `k` in the table of renamings. */
  ghost predicate Renames<V>(m: Matcher, payload: Dict<V>, i: nat, k: string)
    requires i < |payload|
  {
    payload[i].key == k && Claims(m, payload, i) && m(k) != Some(k)
  }

  lemma {:induction false} TableOfRenamings<V>(m: Matcher, payload: Dict<V>, n: nat)
    requires n <= |payload|
    ensures var table := MapKeys(m, payload[..n]).mappings;
      && (forall k :: k in table <==> exists i :: 0 <= i < n && Renames(m, payload, i, k))
      && (forall k :: k in table ==> m(k) == Some(table[k]))
  {
    if n > 0 {
      MapKeysStep(m, payload, n - 1);
      TableOfRenamings(m, payload, n - 1);
      UsedAreMatched(m, payload, n - 1);
      var before, after := MapKeys(m, payload[..n - 1]).mappings, MapKeys(m, payload[..n]).mappings;
      forall k ensures k in after <==> k in before || Renames(m, payload, n - 1, k) {
      }
    }
  }

  /** The table never sends two keys to one field, and never a key to itself. */
  lemma TableIsInjective<V>(m: Matcher, payload: Dict<V>, k: string, q: string)
    requires var table := MapKeys(m, payload).mappings; k in table && q in table
    ensures var table := MapKeys(m, payload).mappings;
      table[k] != k && (table[k] == table[q] ==> k == q)
  {
    assert payload[..|payload|] == payload;
    TableOfRenamings(m, payload, |payload|);
    var i :| 0 <= i < |payload| && Renames(m, payload, i, k);
    var j :| 0 <= j < |payload| && Renames(m, payload, j, q);
    if i < j {
      ClaimIsFirst(m, payload, i, j);
    } else if j < i {
      ClaimIsFirst(m, payload, j, i);
    }
  }

  // ---------------------------------------------------------------- losing a value

  /** An expected key arrives after another key has matched it: the write replaces a value. */
  ghost predicate Overwrites<V>(m: Matcher, payload: Dict<V>, i: nat, j: nat)
    requires i < j < |payload|
  {
    m(payload[i].key) == Some(payload[j].key)
  }

  ghost predicate Collision<V>(m: Matcher, payload: Dict<V>) {
    exists i, j :: 0 <= i < j < |payload| && Overwrites(m, payload, i, j)
  }

  ghost function Renamed<V>(m: Matcher, payload: Dict<V>, n: nat): Dict<V>
    requires n <= |payload|
  {
    seq(n, i requires 0 <= i < n => Entry(NewKey(m, payload, i), payload[i].value))
  }

  lemma NewKeysDiffer<V>(m: Matcher, payload: Dict<V>, i: nat, j: nat)
    requires Unique(payload) && SelfMatching(m) && !Collision(m, payload) && i < j < |payload|
    ensures NewKey(m, payload, i) != NewKey(m, payload, j)
  {
    var x, y := payload[i].key, payload[j].key;
    assert !Overwrites(m, payload, i, j);
    if m(x).Some? && m(x) == m(y) {
      assert Matched(m, payload, j, m(y).value);
    }
  }

  ghost predicate NewKeysAreDistinct<V>(m: Matcher, payload: Dict<V>) {
    forall i, j :: 0 <= i < j < |payload| ==> NewKey(m, payload, i) != NewKey(m, payload, j)
  }

  lemma {:induction false} OutputIsRenamed<V>(m: Matcher, payload: Dict<V>, n: nat)
    requires NewKeysAreDistinct(m, payload) && n <= |payload|
    ensures MapKeys(m, payload[..n]).payload == Renamed(m, payload, n)
  {
    if n > 0 {
      PayloadStep(m, payload, n - 1);
      OutputIsRenamed(m, payload, n - 1);
      PutFresh(Renamed(m, payload, n - 1), NewKey(m, payload, n - 1), payload[n - 1].value);
    }
  }

  /** Item `i` is the last of the first `n` that is written under `k`. */
  ghost predicate WritesLast<V>(m: Matcher, payload: Dict<V>, n: nat, i: nat, k: string)
    requires n <= |payload|
  {
    i < n && NewKey(m, payload, i) == k && forall j :: i < j < n ==> NewKey(m, payload, j) != k
  }

  lemma OutputStep<V>(m: Matcher, payload: Dict<V>, n: nat, k: string)
    requires n < |payload|
    ensures Get(MapKeys(m, payload[..n + 1]).payload, k) ==
            if NewKey(m, payload, n) == k then Some(payload[n].value) else Get(MapKeys(m, payload[..n]).payload, k)
  {
    PayloadStep(m, payload, n);
    GetPut(MapKeys(m, payload[..n]).payload, NewKey(m, payload, n), payload[n].value, k);
  }

  /** With or without collisions, a field of the output holds the value of the last item written under it. */
  lemma {:induction false} OutputAt<V>(m: Matcher, payload: Dict<V>, n: nat, i: nat, k: string)
    requires n <= |payload| && WritesLast(m, payload, n, i, k)
    ensures Get(MapKeys(m, payload[..n]).payload, k) == Some(payload[i].value)
  {
    OutputStep(m, payload, n - 1, k);
    if i < n - 1 {
      OutputAt(m, payload, n - 1, i, k);
    }
  }

  /** Nothing else is in the output. */
  lemma {:induction false} OutputHasNoOther<V>(m: Matcher, payload: Dict<V>, n: nat, k: string)
    requires n <= |payload| && forall i :: 0 <= i < n ==> NewKey(m, payload, i) != k
    ensures Get(MapKeys(m, payload[..n]).payload, k) == None
  {
    if n > 0 {
      OutputStep(m, payload, n - 1, k);
      OutputHasNoOther(m, payload, n - 1, k);
    }
  }

  lemma {:induction false} UsedAreWritten<V>(m: Matcher, payload: Dict<V>, n: nat, u: string)
    requires n <= |payload| && u in MapKeys(m, payload[..n]).used
    ensures Has(MapKeys(m, payload[..n]).payload, u)
  {
    if n > 0 {
      MapKeysStep(m, payload, n - 1);
      var acc, item := MapKeys(m, payload[..n - 1]), payload[n - 1];
      var k := if m(item.key) == None || m(item.key).value in acc.used then item.key else m(item.key).value;
      PutHas(acc.payload, k, item.value, u);
      if u in acc.used {
        UsedAreWritten(m, payload, n - 1, u);
      }
    }
  }

  lemma {:induction false} OutputIsNoLonger<V>(m: Matcher, payload: Dict<V>, n: nat)
    requires n <= |payload|
    ensures |MapKeys(m, payload[..n]).payload| <= n
  {
    if n > 0 {
      PayloadStep(m, payload, n - 1);
      OutputIsNoLonger(m, payload, n - 1);
      PutLength(MapKeys(m, payload[..n - 1]).payload, NewKey(m, payload, n - 1), payload[n - 1].value);
    }
  }

  lemma PutLength<V>(d: Dict<V>, k: string, v: V)
    ensures |Put(d, k, v)| == if Has(d, k) then |d| else |d| + 1
  {
  }

  lemma {:induction false} CollisionShortens<V>(m: Matcher, payload: Dict<V>, i: nat, j: nat, n: nat)
    requires SelfMatching(m) && i < j < n <= |payload| && Overwrites(m, payload, i, j)
    ensures |MapKeys(m, payload[..n]).payload| < n
    decreases n
  {
    PayloadStep(m, payload, n - 1);
    PutLength(MapKeys(m, payload[..n - 1]).payload, NewKey(m, payload, n - 1), payload[n - 1].value);
    if j < n - 1 {
      CollisionShortens(m, payload, i, j, n - 1);
    } else {
      OutputIsNoLonger(m, payload, n - 1);
      assert Matched(m, payload, n - 1, payload[j].key);
      UsedAreMatched(m, payload, n - 1);
      UsedAreWritten(m, payload, n - 1, payload[j].key);
    }
  }

  // ---------------------------------------------------------------- round trip

  /** The key that the table renames to `k`, or `k` when there is none. */
  ghost function OldKey(table: map<string, string>, k: string): string {
    if exists s :: s in table && table[s] == k then
      var s :| s in table && table[s] == k; s
    else k
  }

  ghost function RenameBack<V>(table: map<string, string>, output: Dict<V>): Dict<V> {
    seq(|output|, i requires 0 <= i < |output| => Entry(OldKey(table, output[i].key), output[i].value))
  }

  lemma TableNamesItem<V>(m: Matcher, payload: Dict<V>, i: nat, s: string)
    requires NewKeysAreDistinct(m, payload) && i < |payload|
    requires var table := MapKeys(m, payload).mappings; s in table && table[s] == NewKey(m, payload, i)
    ensures s == payload[i].key
  {
    assert payload[..|payload|] == payload;
    TableOfRenamings(m, payload, |payload|);
    var j :| 0 <= j < |payload| && Renames(m, payload, j, s);
    assert NewKey(m, payload, j) == NewKey(m, payload, i);
  }

  lemma RenamedIsInTable<V>(m: Matcher, payload: Dict<V>, i: nat)
    requires i < |payload| && NewKey(m, payload, i) != payload[i].key
    ensures var table := MapKeys(m, payload).mappings;
      payload[i].key in table && table[payload[i].key] == NewKey(m, payload, i)
  {
    assert payload[..|payload|] == payload;
    TableOfRenamings(m, payload, |payload|);
    assert Renames(m, payload, i, payload[i].key);
  }

  lemma OldKeyOfNewKey<V>(m: Matcher, payload: Dict<V>, i: nat)
    requires NewKeysAreDistinct(m, payload) && i < |payload|
    ensures OldKey(MapKeys(m, payload).mappings, NewKey(m, payload, i)) == payload[i].key
  {
    var table, k := MapKeys(m, payload).mappings, NewKey(m, payload, i);
    if k != payload[i].key {
      RenamedIsInTable(m, payload, i);
    }
    if exists s :: s in table && table[s] == k {
      TableNamesItem(m, payload, i, OldKey(table, k));
    }
  }

  /**
    Renaming the output back through the table gives the input again, value for value and in
    the same order, exactly when no expected key comes after a key that matched it.
   */
  lemma RoundTrip<V>(m: Matcher, payload: Dict<V>)
    requires Unique(payload) && SelfMatching(m)
    ensures var r := MapKeys(m, payload);
      RenameBack(r.mappings, r.payload) == payload <==> !Collision(m, payload)
  {
    assert payload[..|payload|] == payload;
    var r := MapKeys(m, payload);
    if Collision(m, payload) {
      var i, j :| 0 <= i < j < |payload| && Overwrites(m, payload, i, j);
      CollisionShortens(m, payload, i, j, |payload|);
    } else {
      forall i, j | 0 <= i < j < |payload| ensures NewKey(m, payload, i) != NewKey(m, payload, j) {
        NewKeysDiffer(m, payload, i, j);
      }
      OutputIsRenamed(m, payload, |payload|);
      forall i | 0 <= i < |payload| ensures RenameBack(r.mappings, r.payload)[i] == payload[i] {
        OldKeyOfNewKey(m, payload, i);
      }
    }
  }

  // ---------------------------------------------------------------- uncertain keys

  function Filter(p: string -> bool, keys: seq<string>): seq<string> {
    if |keys| == 0 then []
    else Filter(p, keys[..|keys| - 1]) + (if p(keys[|keys| - 1]) then [keys[|keys| - 1]] else [])
  }

  function Unmatched(m: Matcher, keys: seq<string>): seq<string> {
    Filter(key => m(key) == None, keys)
  }

  lemma {:induction false} FilterAgrees(p: string -> bool, q: string -> bool, keys: seq<string>)
    requires forall k :: p(k) == q(k)
    ensures Filter(p, keys) == Filter(q, keys)
  {
    if |keys| > 0 {
      FilterAgrees(p, q, keys[..|keys| - 1]);
    }
  }

  lemma FilterSnoc(p: string -> bool, keys: seq<string>, k: string)
    ensures Filter(p, keys + [k]) == Filter(p, keys) + (if p(k) then [k] else [])
  {
  }

  lemma {:induction false} WrittenKeys<V>(m: Matcher, payload: Dict<V>, n: nat, k: string)
    requires SelfMatching(m) && n <= |payload| && Has(MapKeys(m, payload[..n]).payload, k)
    ensures m(k).Some? || exists i :: 0 <= i < n && payload[i].key == k
  {
    if n > 0 {
      PayloadStep(m, payload, n - 1);
      PutHas(MapKeys(m, payload[..n - 1]).payload, NewKey(m, payload, n - 1), payload[n - 1].value, k);
      if k != NewKey(m, payload, n - 1) {
        WrittenKeys(m, payload, n - 1, k);
      }
    }
  }

  lemma PutKeys<V>(p: string -> bool, d: Dict<V>, k: string, v: V)
    requires p(k) ==> !Has(d, k)
    ensures Filter(p, Keys(Put(d, k, v))) == Filter(p, Keys(d)) + (if p(k) then [k] else [])
  {
    if Has(d, k) {
      PutExisting(d, k, v);
      assert Keys(Put(d, k, v)) == Keys(d);
    } else {
      PutFresh(d, k, v);
      FilterSnoc(p, Keys(d), k);
      assert Keys(d + [Entry(k, v)]) == Keys(d) + [k];
    }
  }

  lemma NewKeyIsMatched<V>(m: Matcher, payload: Dict<V>, n: nat)
    requires SelfMatching(m) && n < |payload|
    ensures m(NewKey(m, payload, n)) == None <==> m(payload[n].key) == None
  {
  }

  /** An unmatched key meets no earlier write of its own name, and keeps its name. */
  lemma UnmatchedIsFresh<V>(m: Matcher, payload: Dict<V>, n: nat)
    requires Unique(payload) && SelfMatching(m) && n < |payload| && m(payload[n].key) == None
    ensures !Has(MapKeys(m, payload[..n]).payload, payload[n].key) && NewKey(m, payload, n) == payload[n].key
  {
    if Has(MapKeys(m, payload[..n]).payload, payload[n].key) {
      WrittenKeys(m, payload, n, payload[n].key);
    }
  }

  lemma FilterKeys<V>(p: string -> bool, d: Dict<V>, n: nat)
    requires n < |d|
    ensures Filter(p, Keys(d[..n + 1])) == Filter(p, Keys(d[..n])) + (if p(d[n].key) then [d[n].key] else [])
  {
    FilterSnoc(p, Keys(d[..n]), d[n].key);
    assert Keys(d[..n + 1]) == Keys(d[..n]) + [d[n].key];
  }

  lemma {:induction false} UnmatchedSurvive<V>(m: Matcher, payload: Dict<V>, n: nat)
    requires Unique(payload) && SelfMatching(m) && n <= |payload|
    ensures Unmatched(m, Keys(MapKeys(m, payload[..n]).payload)) == Unmatched(m, Keys(payload[..n]))
  {
    if n > 0 {
      var p := (key: string) => m(key) == None;
      UnmatchedSurvive(m, payload, n - 1);
      PayloadStep(m, payload, n - 1);
      NewKeyIsMatched(m, payload, n - 1);
      if p(payload[n - 1].key) {
        UnmatchedIsFresh(m, payload, n - 1);
      }
      PutKeys(p, MapKeys(m, payload[..n - 1]).payload, NewKey(m, payload, n - 1), payload[n - 1].value);
      FilterKeys(p, payload, n - 1);
    }
  }

  /** The chosen keys are exactly those that satisfy the predicate. */
  lemma {:induction false} FilterMembers(p: string -> bool, keys: seq<string>, k: string)
    ensures k in Filter(p, keys) <==> k in keys && p(k)
  {
    if |keys| > 0 {
      FilterMembers(p, keys[..|keys| - 1], k);
      assert k in keys <==> k in keys[..|keys| - 1] || k == keys[|keys| - 1];
    }
  }

  /** They keep their order. */
  lemma {:induction false} FilterPlaces(p: string -> bool, keys: seq<string>) returns (places: seq<nat>)
    ensures |places| == |Filter(p, keys)|
    ensures forall i :: 0 <= i < |places| ==> places[i] < |keys| && keys[places[i]] == Filter(p, keys)[i]
    ensures forall i, j :: 0 <= i < j < |places| ==> places[i] < places[j]
  {
    if |keys| == 0 {
      places := [];
    } else {
      var n := |keys| - 1;
      places := FilterPlaces(p, keys[..n]);
      if p(keys[n]) {
        places := places + [n];
      }
    }
  }
}
