/** Decoded JSON values, as `response.json()` hands them to the client, and
    the few Python operations the client applies to them: truthiness,
    `d.get(key)`, `d[key]` and `for x in d`. */
module Json {
  import opened Common

  /** A decoded JSON value. Object keys are strings, as JSON requires. */
  datatype Json =
    | JNull
    | JBool(b: bool)
    | JInt(i: int)
    | JStr(s: string)
    | JList(items: seq<Json>)
    | JObject(fields: map<string, Json>)

  /** Python's truth value of the decoded value (`if v:`). */
  predicate Truthy(j: Json) {
    match j
    case JNull => false
    case JBool(b) => b
    case JInt(i) => i != 0
    case JStr(s) => s != ""
    case JList(items) => items != []
    case JObject(fields) => fields != map[]
  }

  /** `d.get(key)` on a dict: the value, or `None` when the key is absent. */
  function Get(fields: map<string, Json>, key: string): (v: Json)
    ensures key in fields ==> v == fields[key]
    ensures key !in fields ==> v == JNull
  {
    if key in fields then fields[key] else JNull
  }

  /** `v[key]` with a string key: a dict without the key raises KeyError,
      and every other value (a list, a string, a number, None) TypeError. */
  function Index(j: Json, key: string): (r: Result<Json>)
    ensures r.Ok? <==> j.JObject? && key in j.fields
    ensures r.Ok? ==> r.value == j.fields[key]
    ensures j.JObject? && key !in j.fields ==> r == Err(KeyError(key))
    ensures !j.JObject? ==> r == Err(TypeError)
  {
    match j
    case JObject(fields) => if key in fields then Ok(fields[key]) else Err(KeyError(key))
    case _ => Err(TypeError)
  }

  /** The elements a `for x in v` loop visits, for a loop whose body then
      indexes or unpacks each `x` by string keys (every such loop in the
      client). A list gives its items and an empty dict or string gives
      none. A non-empty dict or string gives keys or characters, which are
      strings, and the body fails on the very first one with TypeError;
      numbers, booleans and None are not iterable at all. */
  function Elements(j: Json): (r: Result<seq<Json>>)
    ensures j.JList? ==> r == Ok(j.items)
    ensures r.Ok? ==> j.JList? || (!Truthy(j) && r.value == [])
    ensures r.Err? ==> r.error == TypeError
  {
    match j
    case JList(items) => Ok(items)
    case JObject(fields) => if fields == map[] then Ok([]) else Err(TypeError)
    case JStr(s) => if s == "" then Ok([]) else Err(TypeError)
    case _ => Err(TypeError)
  }
}
