/**
 * Untrusted JSON-shaped input: what `JSON.parse` or `response.json()` can produce.
 * Numbers are finite reals (JSON has no NaN or Infinity). A missing property reads
 * as `undefined`, which is `None` below.
 */
module Json {
  import opened Wrappers

  datatype Json =
    | JNull
    | JBool(b: bool)
    | JNum(n: real)
    | JStr(s: string)
    | JArr(items: seq<Json>)
    | JObj(fields: map<string, Json>)

  /** The property read `v[key]`; only objects carry named properties in a JSON value. */
  function Get(v: Json, key: string): (r: Option<Json>)
    ensures r.Some? <==> v.JObj? && key in v.fields
    ensures r.Some? ==> r.value == v.fields[key]
  {
    if v.JObj? && key in v.fields then Some(v.fields[key]) else None
  }

  /** JavaScript's loose `x == null`: true for `undefined` and for `null`. */
  predicate IsNullish(p: Option<Json>) {
    p.None? || p.value.JNull?
  }
}
