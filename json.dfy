/** The Map<String, Object> documents the generators build, as a JSON value. */
module Json {
  import opened Wrappers
  import opened OrderedMap

  /** A JSON value; an object keeps its members in insertion order (LinkedHashMap). */
  datatype Json =
    | JNull
    | JBool(b: bool)
    | JInt(i: int)
    | JString(s: string)
    | JArray(items: seq<Json>)
    | JObject(members: OMap<string, Json>)

  /** Map.get on an object; None for a missing key or a value that is not an object. */
  function Member(j: Json, key: string): Option<Json> {
    if j.JObject? then Get(j.members, key) else None
  }

  /** A list of strings. */
  function Strings(s: seq<string>): (r: Json)
    ensures r.JArray? && |r.items| == |s|
    ensures forall i :: 0 <= i < |s| ==> r.items[i] == JString(s[i])
  {
    JArray(seq(|s|, i requires 0 <= i < |s| => JString(s[i])))
  }

  /** A String that may be null. */
  function NullableString(s: Option<string>): Json {
    match s
    case Some(v) => JString(v)
    case None => JNull
  }
}
