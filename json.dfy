/**
 * The JSON-like values that `to_dict` methods build. An object keeps its
 * fields in insertion order, as a Python `dict` does.
 */
module Json {

  import opened Wrappers

  datatype JsonValue =
    | JNull
    | JBool(b: bool)
    | JInt(i: int)
    | JReal(r: real)
    | JStr(s: string)
    | JList(items: seq<JsonValue>)
    | JObject(fields: seq<(string, JsonValue)>)

  /** The keys of an object's fields, in order. */
  function Keys(fields: seq<(string, JsonValue)>): (ks: seq<string>)
    ensures |ks| == |fields|
    ensures forall i :: 0 <= i < |fields| ==> ks[i] == fields[i].0
  {
    seq(|fields|, i requires 0 <= i < |fields| => fields[i].0)
  }

  /** The keys of two field lists put together are the keys of each, in turn. */
  lemma KeysAppend(a: seq<(string, JsonValue)>, b: seq<(string, JsonValue)>)
    ensures Keys(a + b) == Keys(a) + Keys(b)
  {
  }

  /** The value of the first field named `k`, as `d[k]`. */
  function Lookup(fields: seq<(string, JsonValue)>, k: string): JsonValue {
    if fields == [] then JNull
    else if fields[0].0 == k then fields[0].1
    else Lookup(fields[1..], k)
  }

  /** Python's `asdict` of an optional value: `None` becomes null. */
  function OptStr(o: Option<string>): JsonValue {
    match o
    case None => JNull
    case Some(s) => JStr(s)
  }

  function OptReal(o: Option<real>): JsonValue {
    match o
    case None => JNull
    case Some(r) => JReal(r)
  }

  function OptInt(o: Option<int>): JsonValue {
    match o
    case None => JNull
    case Some(i) => JInt(i)
  }

  function StrList(s: seq<string>): (v: JsonValue)
    ensures v.JList? && |v.items| == |s|
  {
    JList(seq(|s|, i requires 0 <= i < |s| => JStr(s[i])))
  }
}
