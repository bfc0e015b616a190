/**
  The rolling-row Levenshtein distance of core/algorithms.py, proved against edit scripts.

  An edit script walks two strings from left to right; its cost is what the distance is
  meant to minimise.  `Distance` is the usual recurrence, `ComputeDistance` the loop that
  keeps two rows of it.
 */
module EditDistance {

  /** One column of an alignment.  Substituting a character for itself is free. */
  datatype Edit = Substitute(a: char, b: char) | Delete(a: char) | Insert(b: char)

  type Script = seq<Edit>

  function EditCost(e: Edit): nat {
    if e.Substitute? && e.a == e.b then 0 else 1
  }

  function Cost(s: Script): nat {
    if |s| == 0 then 0 else Cost(s[..|s| - 1]) + EditCost(s[|s| - 1])
  }

  /** The string a script reads. */
  function Source(s: Script): string {
    if |s| == 0 then ""
    else Source(s[..|s| - 1]) + (if s[|s| - 1].Insert? then "" else [s[|s| - 1].a])
  }

  /** The string a script writes. */
  function Target(s: Script): string {
    if |s| == 0 then ""
    else Target(s[..|s| - 1]) + (if s[|s| - 1].Delete? then "" else [s[|s| - 1].b])
  }

  ghost predicate Transforms(s: Script, left: string, right: string) {
    Source(s) == left && Target(s) == right
  }

  function Least(a: int, b: int, c: int): int {
    if a <= b && a <= c then a else if b <= c then b else c
  }

  function Max(a: int, b: int): int { if a <= b then b else a }

  function Mismatch(a: char, b: char): int { if a == b then 0 else 1 }

  /** The distance between the first `i` characters of `left` and the first `j` of `right`. */
  function PrefixDistance(left: string, right: string, i: nat, j: nat): nat
    requires i <= |left| && j <= |right|
  {
    if i == 0 then j
    else if j == 0 then i
    else
      Least(PrefixDistance(left, right, i, j - 1) + 1,
            PrefixDistance(left, right, i - 1, j) + 1,
            PrefixDistance(left, right, i - 1, j - 1) + Mismatch(left[i - 1], right[j - 1]))
  }

  function Distance(left: string, right: string): nat {
    PrefixDistance(left, right, |left|, |right|)
  }

  lemma Snoc(s: Script, e: Edit)
    ensures Cost(s + [e]) == Cost(s) + EditCost(e)
    ensures Source(s + [e]) == Source(s) + (if e.Insert? then "" else [e.a])
    ensures Target(s + [e]) == Target(s) + (if e.Delete? then "" else [e.b])
  {
  }

  lemma LastEdit(s: Script, left: string, right: string)
    requires |s| > 0 && Transforms(s, left, right)
    ensures var e, init := s[|s| - 1], s[..|s| - 1];
      && (!e.Insert? ==> |left| > 0 && e.a == left[|left| - 1])
      && (!e.Delete? ==> |right| > 0 && e.b == right[|right| - 1])
      && Transforms(init, if e.Insert? then left else left[..|left| - 1],
                    if e.Delete? then right else right[..|right| - 1])
  {
  }

  /** How many characters of the left and of the right string an edit accounts for. */
  function Read(e: Edit): nat { if e.Insert? then 0 else 1 }

  function Written(e: Edit): nat { if e.Delete? then 0 else 1 }

  /** The last edit of a script between two prefixes, and what the script was before it. */
  lemma LastEditOfPrefixes(s: Script, left: string, right: string, i: nat, j: nat)
    requires |s| > 0 && i <= |left| && j <= |right| && Transforms(s, left[..i], right[..j])
    ensures var e := s[|s| - 1];
      && Read(e) <= i && Written(e) <= j
      && Transforms(s[..|s| - 1], left[..i - Read(e)], right[..j - Written(e)])
      && (e.Substitute? ==> e.a == left[i - 1] && e.b == right[j - 1])
  {
  }

  /** One edit more costs at least what the recurrence adds for it. */
  lemma EditBound(left: string, right: string, i: nat, j: nat, e: Edit)
    requires Read(e) <= i <= |left| && Written(e) <= j <= |right|
    requires e.Substitute? ==> e.a == left[i - 1] && e.b == right[j - 1]
    ensures PrefixDistance(left, right, i, j) <= PrefixDistance(left, right, i - Read(e), j - Written(e)) + EditCost(e)
  {
  }

  /** No script is cheaper than the recurrence says. */
  lemma {:induction false} NoCheaperScript(s: Script, left: string, right: string, i: nat, j: nat)
    requires i <= |left| && j <= |right| && Transforms(s, left[..i], right[..j])
    ensures PrefixDistance(left, right, i, j) <= Cost(s)
  {
    if |s| > 0 {
      var e := s[|s| - 1];
      LastEditOfPrefixes(s, left, right, i, j);
      EditBound(left, right, i, j, e);
      NoCheaperScript(s[..|s| - 1], left, right, i - Read(e), j - Written(e));
    }
  }

  /** The edit that the recurrence takes last. */
  lemma LastChoice(left: string, right: string, i: nat, j: nat) returns (e: Edit)
    requires i <= |left| && j <= |right| && (i > 0 || j > 0)
    ensures Read(e) <= i && Written(e) <= j
    ensures (!e.Insert? ==> e.a == left[i - 1]) && (!e.Delete? ==> e.b == right[j - 1])
    ensures PrefixDistance(left, right, i, j) == PrefixDistance(left, right, i - Read(e), j - Written(e)) + EditCost(e)
  {
    var d := PrefixDistance(left, right, i, j);
    if j > 0 && d == PrefixDistance(left, right, i, j - 1) + 1 {
      e := Insert(right[j - 1]);
    } else if i > 0 && d == PrefixDistance(left, right, i - 1, j) + 1 {
      e := Delete(left[i - 1]);
    } else {
      e := Substitute(left[i - 1], right[j - 1]);
    }
  }

  lemma SnocBetweenPrefixes(s: Script, e: Edit, left: string, right: string, i: nat, j: nat)
    requires Read(e) <= i <= |left| && Written(e) <= j <= |right|
    requires (!e.Insert? ==> e.a == left[i - 1]) && (!e.Delete? ==> e.b == right[j - 1])
    requires Transforms(s, left[..i - Read(e)], right[..j - Written(e)])
    ensures Transforms(s + [e], left[..i], right[..j])
  {
  }

  /** Some script costs exactly what the recurrence says. */
  lemma {:induction false} CheapestScript(left: string, right: string, i: nat, j: nat) returns (s: Script)
    requires i <= |left| && j <= |right|
    ensures Transforms(s, left[..i], right[..j]) && Cost(s) == PrefixDistance(left, right, i, j)
    decreases i + j
  {
    if i == 0 && j == 0 {
      s := [];
    } else {
      var e := LastChoice(left, right, i, j);
      s := CheapestScript(left, right, i - Read(e), j - Written(e));
      SnocBetweenPrefixes(s, e, left, right, i, j);
      Snoc(s, e);
      s := s + [e];
    }
  }

  /** The distance is the least cost of any edit script. */
  lemma DistanceIsLeastCost(left: string, right: string) returns (best: Script)
    ensures Transforms(best, left, right) && Cost(best) == Distance(left, right)
    ensures forall s: Script :: Transforms(s, left, right) ==> Distance(left, right) <= Cost(s)
  {
    assert left[..|left|] == left && right[..|right|] == right;
    best := CheapestScript(left, right, |left|, |right|);
    forall s: Script | Transforms(s, left, right)
      ensures Distance(left, right) <= Cost(s)
    {
      NoCheaperScript(s, left, right, |left|, |right|);
    }
  }

  /** `row` holds the distances from the first `i` characters of `left` to prefixes of `right`. */
  ghost predicate IsRow(row: seq<nat>, left: string, right: string, i: nat)
    requires i <= |left| && |row| <= |right| + 1
  {
    forall k :: 0 <= k < |row| ==> row[k] == PrefixDistance(left, right, i, k)
  }

  lemma ExtendRow(previous: seq<nat>, current: seq<nat>, left: string, right: string, i: nat)
    requires i < |left| && |previous| == |right| + 1 && 0 < |current| <= |right|
    requires IsRow(previous, left, right, i) && IsRow(current, left, right, i + 1)
    ensures var j := |current| - 1;
      PrefixDistance(left, right, i + 1, j + 1) ==
      Least(current[j] + 1, previous[j + 1] + 1, previous[j] + Mismatch(left[i], right[j]))
  {
  }

  /** The two-row loop returns the least cost of any left-to-right edit script. */
  method ComputeDistance(left: string, right: string) returns (distance: nat)
    ensures distance == Distance(left, right)
    ensures exists s: Script :: Transforms(s, left, right) && Cost(s) == distance
    ensures forall s: Script :: Transforms(s, left, right) ==> distance <= Cost(s)
  {
    var previousRow: seq<nat> := seq(|right| + 1, j requires 0 <= j => j);
    var i := 0;
    while i < |left|
      invariant i <= |left| && |previousRow| == |right| + 1
      invariant IsRow(previousRow, left, right, i)
    {
      var currentRow: seq<nat> := [i + 1];
      var j := 0;
      while j < |right|
        invariant j <= |right| && |currentRow| == j + 1
        invariant IsRow(currentRow, left, right, i + 1)
      {
        ExtendRow(previousRow, currentRow, left, right, i);
        currentRow := currentRow +
          [Least(currentRow[j] + 1,
                 previousRow[j + 1] + 1,
                 previousRow[j] + Mismatch(left[i], right[j]))];
        j := j + 1;
      }
      previousRow := currentRow;
      i := i + 1;
    }
    distance := previousRow[|right|];
    ghost var s := DistanceIsLeastCost(left, right);
  }

  // ---------------------------------------------------------------- metric laws

  function Flip(e: Edit): Edit {
    match e
    case Substitute(a, b) => Substitute(b, a)
    case Delete(a) => Insert(a)
    case Insert(b) => Delete(b)
  }

  /** The script that undoes `s`. */
  function Inverse(s: Script): Script {
    if |s| == 0 then [] else Inverse(s[..|s| - 1]) + [Flip(s[|s| - 1])]
  }

  lemma {:induction false} InverseUndoes(s: Script)
    ensures Transforms(Inverse(s), Target(s), Source(s)) && Cost(Inverse(s)) == Cost(s)
  {
    if |s| > 0 {
      InverseUndoes(s[..|s| - 1]);
      Snoc(Inverse(s[..|s| - 1]), Flip(s[|s| - 1]));
    }
  }

  /** Two scripts that meet in the middle compose into one that costs no more than both. */
  lemma {:induction false} Compose(s: Script, t: Script) returns (u: Script)
    requires Target(s) == Source(t)
    ensures Transforms(u, Source(s), Target(t)) && Cost(u) <= Cost(s) + Cost(t)
    decreases |s| + |t|
  {
    if |s| == 0 && |t| == 0 {
      u := [];
    } else if |s| > 0 && s[|s| - 1].Delete? {
      LastEdit(s, Source(s), Target(s));
      u := Compose(s[..|s| - 1], t);
      Snoc(u, s[|s| - 1]);
      u := u + [s[|s| - 1]];
    } else if |t| > 0 && t[|t| - 1].Insert? {
      LastEdit(t, Source(t), Target(t));
      u := Compose(s, t[..|t| - 1]);
      Snoc(u, t[|t| - 1]);
      u := u + [t[|t| - 1]];
    } else {
      assert |s| > 0 && |t| > 0;
      var e, f := s[|s| - 1], t[|t| - 1];
      LastEdit(s, Source(s), Target(s));
      LastEdit(t, Source(t), Target(t));
      u := Compose(s[..|s| - 1], t[..|t| - 1]);
      if e.Substitute? || f.Substitute? {
        var g := if e.Substitute? && f.Substitute? then Substitute(e.a, f.b)
                 else if e.Substitute? then Delete(e.a) else Insert(f.b);
        Snoc(u, g);
        u := u + [g];
      }
    }
  }

  lemma {:induction false} PrefixDistanceSelf(s: string, i: nat)
    requires i <= |s|
    ensures PrefixDistance(s, s, i, i) == 0
  {
    if i > 0 {
      PrefixDistanceSelf(s, i - 1);
    }
  }

  lemma {:induction false} FreeScriptCopies(s: Script)
    requires Cost(s) == 0
    ensures Source(s) == Target(s)
  {
    if |s| > 0 {
      FreeScriptCopies(s[..|s| - 1]);
    }
  }

  /** The distance is a metric on strings. */
  lemma Metric(x: string, y: string, z: string)
    ensures Distance(x, y) == 0 <==> x == y
    ensures Distance(x, y) == Distance(y, x)
    ensures Distance(x, z) <= Distance(x, y) + Distance(y, z)
  {
    var xy := DistanceIsLeastCost(x, y);
    var yx := DistanceIsLeastCost(y, x);
    var yz := DistanceIsLeastCost(y, z);
    var xz := DistanceIsLeastCost(x, z);
    if Distance(x, y) == 0 {
      FreeScriptCopies(xy);
    }
    PrefixDistanceSelf(x, |x|);
    InverseUndoes(xy);
    InverseUndoes(yx);
    var u := Compose(xy, yz);
  }

  lemma {:induction false} PrefixDistanceAtLeast(x: string, y: string, i: nat, j: nat)
    requires i <= |x| && j <= |y|
    ensures i <= j + PrefixDistance(x, y, i, j) && j <= i + PrefixDistance(x, y, i, j)
    decreases i + j
  {
    if i > 0 && j > 0 {
      PrefixDistanceAtLeast(x, y, i, j - 1);
      PrefixDistanceAtLeast(x, y, i - 1, j);
      PrefixDistanceAtLeast(x, y, i - 1, j - 1);
    }
  }

  lemma {:induction false} PrefixDistanceAtMost(x: string, y: string, i: nat, j: nat)
    requires i <= |x| && j <= |y|
    ensures PrefixDistance(x, y, i, j) <= Max(i, j)
    decreases i + j
  {
    if i > 0 && j > 0 {
      PrefixDistanceAtMost(x, y, i, j - 1);
      PrefixDistanceAtMost(x, y, i - 1, j);
      PrefixDistanceAtMost(x, y, i - 1, j - 1);
    }
  }

  /** The distance lies between the difference of the lengths and the longer length. */
  lemma DistanceBounds(x: string, y: string)
    ensures |x| <= |y| + Distance(x, y) && |y| <= |x| + Distance(x, y)
    ensures Distance(x, y) <= Max(|x|, |y|)
  {
    PrefixDistanceAtLeast(x, y, |x|, |y|);
    PrefixDistanceAtMost(x, y, |x|, |y|);
  }

  function Ratio(left: string, right: string): real {
    var longest := Max(|left|, |right|);
    if longest == 0 then 1.0 else 1.0 - Distance(left, right) as real / longest as real
  }

  lemma Quotient(d: nat, n: nat)
    requires d <= n && 0 < n
    ensures 0.0 <= 1.0 - d as real / n as real <= 1.0
    ensures 1.0 - d as real / n as real == 1.0 <==> d == 0
  {
  }

  /** The ratio is a symmetric score in [0, 1] that is 1 exactly on equal strings. */
  lemma RatioIsScore(left: string, right: string)
    ensures 0.0 <= Ratio(left, right) <= 1.0
    ensures Ratio(left, right) == 1.0 <==> left == right
    ensures Ratio(left, right) == Ratio(right, left)
  {
    DistanceBounds(left, right);
    Metric(left, right, left);
    if Max(|left|, |right|) != 0 {
      Quotient(Distance(left, right), Max(|left|, |right|));
    }
  }

  lemma Share(d: nat, n: nat)
    requires 0 < n
    ensures (1.0 - d as real / n as real) * n as real == (n - d) as real
  {
    var q := d as real / n as real;
    assert q * n as real == d as real;
  }

  lemma RatioByDistance(left: string, right: string, d: nat)
    requires d == Distance(left, right) && (|left| > 0 || |right| > 0)
    ensures var longest := if |left| < |right| then |right| else |left|;
      Ratio(left, right) * longest as real == (longest - d) as real
  {
    Share(d, Max(|left|, |right|));
  }

  /** The ratio is the share of the longer string that a cheapest script leaves alone. */
  lemma RatioIsShareKept(left: string, right: string) returns (best: Script)
    ensures Transforms(best, left, right)
    ensures forall s: Script :: Transforms(s, left, right) ==> Cost(best) <= Cost(s)
    ensures var longest := if |left| < |right| then |right| else |left|;
      if longest == 0 then Ratio(left, right) == 1.0
      else Ratio(left, right) * longest as real == (longest - Cost(best)) as real
  {
    best := DistanceIsLeastCost(left, right);
    if |left| > 0 || |right| > 0 {
      RatioByDistance(left, right, Cost(best));
    }
  }
}
