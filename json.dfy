/**
 * `serde_json::Value`, the in-memory JSON tree that request bodies are built
 * as and that response text is parsed into. Objects are maps from key to
 * value: serde_json's default `Map` keeps one value per key and orders keys
 * itself, so a body's content is its key set and the value under each key.
 * Numbers are integers only; every number the client sends or reads is one.
 */
module JsonValue {
  import opened Wrappers

  datatype Json =
    | JNull
    | JBool(b: bool)
    | JNumber(n: int)
    | JString(s: string)
    | JArray(items: seq<Json>)
    | JObject(members: map<string, Json>)

  /** The member `key` of an object; `None` for a missing key or a non-object. */
  function Member(v: Json, key: string): (r: Option<Json>)
    ensures r.Some? <==> v.JObject? && key in v.members
    ensures r.Some? ==> r.value == v.members[key]
  {
    if v.JObject? && key in v.members then Some(v.members[key]) else None
  }

  /** The string under `key`, if there is one. */
  function StringMember(v: Json, key: string): (r: Option<string>)
    ensures r.Some? <==> Member(v, key).Some? && Member(v, key).value.JString?
    ensures r.Some? ==> Member(v, key) == Some(JString(r.value))
  {
    match Member(v, key)
    case Some(JString(s)) => Some(s)
    case _ => None
  }

  /** A JSON object whose members are exactly the given string-valued pairs. */
  function StringObject(pairs: map<string, string>): (v: Json)
    ensures v.JObject? && v.members.Keys == pairs.Keys
    ensures forall k :: k in pairs ==> v.members[k] == JString(pairs[k])
  {
    JObject(map k | k in pairs :: JString(pairs[k]))
  }
}
