/** Decoded JSON values, Python's view of them (truthiness, `str()`, `dict.get`),
    and the abstract decoder standing for `json.loads`. */
module Json {
  import opened Wrappers
  import opened Text

  /** A value `json.loads` can return. Numbers are integers (floats are not modelled);
      an object keeps its keys in insertion order, as a Python dict does. */
  datatype Json =
    | JNull
    | JBool(b: bool)
    | JNum(n: int)
    | JStr(s: string)
    | JArr(items: seq<Json>)
    | JObj(fields: seq<(string, Json)>)

  /** Python's `bool(value)`. */
  predicate Truthy(j: Json) {
    match j
    case JNull => false
    case JBool(b) => b
    case JNum(n) => n != 0
    case JStr(s) => s != ""
    case JArr(items) => items != []
    case JObj(fields) => fields != []
  }

  /** `d.get(key)` on a decoded object. */
  function Get(fields: seq<(string, Json)>, key: string): (r: Option<Json>)
    ensures r.Some? <==> exists i :: 0 <= i < |fields| && fields[i].0 == key
    ensures r.Some? ==> exists i :: 0 <= i < |fields| && fields[i] == (key, r.value)
  {
    if fields == [] then None
    else if fields[0].0 == key then Some(fields[0].1)
    else
      var r := Get(fields[1..], key);
      assert forall i :: 1 <= i < |fields| ==> fields[i] == fields[1..][i - 1];
      r
  }

  /** Iterating a dict yields its keys, in order. */
  function Keys(fields: seq<(string, Json)>): (r: seq<string>)
    ensures |r| == |fields| && forall i :: 0 <= i < |fields| ==> r[i] == fields[i].0
  {
    seq(|fields|, i requires 0 <= i < |fields| => fields[i].0)
  }

  /** Python's `str(value)` for a decoded value. */
  function Str(j: Json): (r: string)
    ensures j.JStr? ==> r == j.s
    ensures !j.JStr? ==> r != []
  {
    match j
    case JStr(s) => s
    case _ => Repr(j)
  }

  /** Python's `repr(value)`; strings are quoted with `'` (escape sequences are not modelled). */
  function Repr(j: Json): (r: string)
    ensures r != []
  {
    match j
    case JNull => "None"
    case JBool(b) => if b then "True" else "False"
    case JNum(n) => IntToString(n)
    case JStr(s) => "'" + s + "'"
    case JArr(items) =>
      "[" + Join(", ", seq(|items|, i requires 0 <= i < |items| => Repr(items[i]))) + "]"
    case JObj(fields) =>
      "{" + Join(", ", seq(|fields|, i requires 0 <= i < |fields| =>
                             "'" + fields[i].0 + "': " + Repr(fields[i].1))) + "}"
  }

  /** The text starts with `{`. */
  predicate OpensObject(t: string) {
    StartsWith(t, "{")
  }

  /** What `json.loads` guarantees of every text that starts with `{`: it is either
      rejected or decoded to an object. */
  ghost predicate BraceTextsDecodeToObjects(decode: string -> Option<Json>) {
    forall t {:trigger OpensObject(t)} :: OpensObject(t) && decode(t).Some? ==> decode(t).value.JObj?
  }

  /** `json.loads`, as an abstract decoder: `None` stands for `JSONDecodeError`. */
  type Parser = decode: string -> Option<Json> | BraceTextsDecodeToObjects(decode)
    witness (t: string) => None
}
