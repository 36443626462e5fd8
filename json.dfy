/** Parsed JSON values, as `JSON.parse` and axios hand them to the adapters. */
module Json {
  import opened Js

  /** A JSON value; an object keeps its members in source order. */
  datatype Json =
    | JNull
    | JBool(b: bool)
    | JNumber(n: int)
    | JString(s: string)
    | JArray(elems: seq<Json>)
    | JObject(members: seq<(string, Json)>)

  /** `value?.key` on a parsed body: only an object has members, and of
      repeated names `JSON.parse` keeps the last. */
  function Get(value: Json, key: string): (r: Option<Json>)
    ensures r.Some? <==> value.JObject? && HasKey(value.members, key)
    ensures r.Some? ==> exists i :: 0 <= i < |value.members| && value.members[i] == (key, r.value)
    ensures value.JObject? ==> r == LastValue(value.members, key)
  {
    if value.JObject? then LastValue(value.members, key) else None
  }

  /** `value?.key` when it holds a non-empty string. */
  predicate HasNonEmptyString(value: Json, key: string) {
    var v := Get(value, key);
    v.Some? && v.value.JString? && v.value.s != ""
  }
}
