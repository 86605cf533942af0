/**
 * Values produced by `JSON.parse` and stored in the database's JSON
 * columns, with the two JavaScript behaviours the core depends on:
 * truthiness (for `x || fallback`) and member access (`v.key`).
 * Parsing itself is not modelled: callers receive a parser as a parameter.
 */
module Json {
  import opened Wrappers

  datatype Json =
    | JNull
    | JBool(b: bool)
    | JNumber(n: real)
    | JString(s: string)
    | JArray(items: seq<Json>)
    | JObject(members: map<string, Json>)

  /** JavaScript truthiness: `null`, `false`, `0` and `""` are falsy, every array and object is truthy. */
  predicate Truthy(v: Json)
  {
    match v
    case JNull => false
    case JBool(b) => b
    case JNumber(n) => n != 0.0
    case JString(s) => s != ""
    case JArray(_) => true
    case JObject(_) => true
  }

  /**
   * `v.key` on a value that is not `null`: the member of an object, and
   * `undefined` (None) for a missing key or a value of any other kind.
   * Reading a member of `null` throws; callers handle that case first.
   */
  function Member(v: Json, key: string): (r: Option<Json>)
    ensures r.Some? <==> v.JObject? && key in v.members
  {
    if v.JObject? && key in v.members then Some(v.members[key]) else None
  }

  /** `a || b` where `a` may be `undefined`. */
  function Or(a: Option<Json>, b: Json): (r: Json)
    ensures r == b || (a.Some? && r == a.value && Truthy(r))
    ensures a.Some? && Truthy(a.value) ==> r == a.value
  {
    if a.Some? && Truthy(a.value) then a.value else b
  }

  /** The JSON array of strings that `JSON.stringify` writes for a `string[]`. */
  function Strings(ss: seq<string>): (r: seq<Json>)
    ensures |r| == |ss|
    ensures forall i :: 0 <= i < |ss| ==> r[i] == JString(ss[i])
  {
    if ss == [] then [] else [JString(ss[0])] + Strings(ss[1..])
  }
}
