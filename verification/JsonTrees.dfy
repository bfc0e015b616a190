/** JSON values.  An object keeps its fields in order, as Python and JavaScript both do. */
module JsonTrees {
  import opened Dicts

  datatype Float = Finite(value: real) | Infinite(positive: bool) | NotANumber

  datatype Json =
    | Null
    | Bool(flag: bool)
    | Int(int_: int)
    | Number(float_: Float)
    | Text(text: string)
    | Array(items: seq<Json>)
    | Object(fields: Dict<Json>)

  /** A step down from an object or from an array. */
  datatype Step = Field(key: string) | Index(index: nat)

  type Path = seq<Step>

  /** The value at a path, if there is one. */
  function At(v: Json, path: Path): Option<Json>
    decreases |path|
  {
    if |path| == 0 then Some(v)
    else
      match (v, path[0])
      case (Object(fields), Field(key)) =>
        var sub := Get(fields, key);
        if sub.Some? then At(sub.value, path[1..]) else None
      case (Array(items), Index(i)) =>
        if i < |items| then At(items[i], path[1..]) else None
      case _ => None
  }

  /** Dictionaries with the same keys are looked up at the same place. */
  lemma {:induction false} SamePlace<A, B>(d: Dict<A>, e: Dict<B>, k: string) returns (i: nat)
    requires |d| == |e| && forall j :: 0 <= j < |d| ==> d[j].key == e[j].key
    ensures Get(d, k).Some? ==>
      i < |d| && d[i].key == k && Get(d, k) == Some(d[i].value) && Get(e, k) == Some(e[i].value)
    ensures Get(d, k) == None <==> Get(e, k) == None
  {
    if |d| == 0 || d[0].key == k {
      i := 0;
    } else {
      i := SamePlace(d[1..], e[1..], k);
      i := i + 1;
    }
  }
}
