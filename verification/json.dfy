/**
  Decoded JSON values as Python's `json` module produces them: `None`, `bool`, numbers, `str`,
  `list` and `dict`. Numbers are integers only (floating point is not modelled).
*/
module Json {
  import opened Wrappers
  import opened Text

  datatype Json =
    | JNull
    | JBool(b: bool)
    | JNum(n: int)
    | JStr(s: string)
    | JArr(items: seq<Json>)
    | JObj(fields: map<string, Json>)

  /** The empty `{}`. */
  const EmptyObject: Json := JObj(map[])

  /** Python's truth value of a decoded JSON value: `None`, `False`, `0`, `""`, `[]` and `{}` are false. */
  predicate Truthy(j: Json)
  {
    match j
    case JNull => false
    case JBool(b) => b
    case JNum(n) => n != 0
    case JStr(s) => s != ""
    case JArr(items) => items != []
    case JObj(fields) => fields != map[]
  }

  /**
    `str(v)` (an f-string slot) for a decoded value: a string is itself, an integer its decimal text,
    `True`/`False`/`None` their names; lists and dicts use the supplied `repr`.
  */
  function PyStr(j: Json, repr: Json -> string): (r: string)
    ensures j.JStr? ==> r == j.s
    ensures j.JNum? ==> r == IntText(j.n)
  {
    match j
    case JStr(s) => s
    case JNum(n) => IntText(n)
    case JBool(b) => if b then "True" else "False"
    case JNull => "None"
    case _ => repr(j)
  }

  /**
    Iterating a decoded value in a `for` loop or comprehension: a list gives its items, a string
    its characters (as one-character strings). Numbers, booleans and `None` raise `TypeError`
    (`None` here); iterating a dict (its keys, in insertion order) is not modelled and also gives `None`.
  */
  function Iterate(j: Json): (r: Option<seq<Json>>)
    ensures r.Some? <==> j.JArr? || j.JStr?
    ensures j.JArr? ==> r == Some(j.items)
    ensures j.JStr? ==> |r.value| == |j.s| && forall i :: 0 <= i < |j.s| ==> r.value[i] == JStr([j.s[i]])
  {
    match j
    case JArr(items) => Some(items)
    case JStr(s) => Some(seq(|s|, i requires 0 <= i < |s| => JStr([s[i]])))
    case _ => None
  }

  /** An iterable value is truthy exactly when iterating it yields something. */
  lemma IterateTruthy(j: Json)
    requires Iterate(j).Some?
    ensures |Iterate(j).value| > 0 <==> Truthy(j)
  {
    if j.JStr? && |j.s| > 0 {
      assert Iterate(j).value[0] == JStr([j.s[0]]);
    }
  }
}
