/**
 * JSON values as the serverless handlers and the profile service see them
 * after `JSON.parse`, with the few JavaScript operations the code applies to
 * them: property reads, truthiness tests and a property write.
 */
module Json {
  import opened Base

  datatype Json =
    | JNull
    | JBool(b: bool)
    | JNum(n: real)
    | JStr(s: string)
    | JArr(items: seq<Json>)
    | JObj(fields: map<string, Json>)

  /** `v.key`: defined only when `v` is an object holding `key`; a property
      read on any other kind of value yields `undefined` (`None`). */
  function Get(v: Json, key: string): (r: Option<Json>)
    ensures r.Some? <==> v.JObj? && key in v.fields
    ensures r.Some? ==> r.value == v.fields[key]
  {
    match v
    case JObj(m) => if key in m then Some(m[key]) else None
    case _ => None
  }

  /** JavaScript truthiness of a possibly undefined JSON value: `undefined`,
      `null`, `false`, `0` and `""` are falsy, everything else is truthy. */
  predicate Truthy(v: Option<Json>) {
    match v
    case None => false
    case Some(JNull) => false
    case Some(JBool(b)) => b
    case Some(JNum(n)) => n != 0.0
    case Some(JStr(s)) => s != ""
    case Some(_) => true
  }

  /** Truthiness of a possibly undefined string. */
  predicate Present(s: Option<string>) {
    s.Some? && s.value != ""
  }

  /** `v.key = x` in strict-mode code. On an object it sets the property; on
      an array it creates a non-index property that serialisation drops, so
      the JSON value is unchanged; on `null` or a primitive it throws a
      `TypeError` (`None`). */
  function Put(v: Json, key: string, x: Json): (r: Option<Json>)
    ensures r.None? <==> !(v.JObj? || v.JArr?)
    ensures v.JArr? ==> r == Some(v)
    ensures v.JObj? ==> r.Some? && r.value.JObj?
    ensures v.JObj? ==> Get(r.value, key) == Some(x)
    ensures v.JObj? ==> forall k :: k != key ==> Get(r.value, k) == Get(v, k)
  {
    match v
    case JObj(m) => Some(JObj(m[key := x]))
    case JArr(_) => Some(v)
    case _ => None
  }
}
