/** Parsed JSON values as Python sees them (dicts, lists, strings, ...), with the two
    operations the upload code applies to them: `value[key]` and `for item in value`. */
module PyJson {
  import opened Wrappers

  /** A parsed JSON document. Numbers are integers here; objects are dicts keyed by string. */
  datatype Json =
    | JNull
    | JBool(b: bool)
    | JNumber(n: int)
    | JString(s: string)
    | JArray(items: seq<Json>)
    | JObject(fields: map<string, Json>)

  /** Python's `value[key]` with a string key: only a dict supports it; a missing key is a KeyError,
      and a list, a string, a number, a bool or None raises TypeError. */
  function Subscript(value: Json, key: string): (r: Result<Json>)
    ensures r.Ok? <==> value.JObject? && key in value.fields
    ensures r.Ok? ==> r.value == value.fields[key]
    ensures r.Err? ==> r.error == (if value.JObject? then KeyError(key) else TypeError)
  {
    match value
    case JObject(fields) => if key in fields then Ok(fields[key]) else Err(KeyError(key))
    case _ => Err(TypeError)
  }

  /** The items a Python `for` loop visits in `value`, when the loop body subscripts each item
      with a string. A list yields its elements and a string its one-character strings. A dict
      yields its keys, which are strings, so a loop body that subscripts them raises TypeError at
      the first key: a non-empty dict is given that TypeError here (a map keeps no key order to
      list them in), an empty one no items. Numbers, bools and None are not iterable. */
  function Iterate(value: Json): (r: Result<seq<Json>>)
    ensures value.JArray? ==> r == Ok(value.items)
    ensures value.JString? ==> r.Ok? && |r.value| == |value.s|
                               && forall k :: 0 <= k < |value.s| ==> r.value[k] == JString([value.s[k]])
    ensures value.JObject? ==> (r.Ok? <==> value.fields == map[])
    ensures value.JObject? && r.Ok? ==> r.value == []
    ensures value.JNull? || value.JBool? || value.JNumber? ==> r == Err(TypeError)
    ensures r.Err? ==> r.error == TypeError
  {
    match value
    case JArray(items) => Ok(items)
    case JString(s) => Ok(seq(|s|, k requires 0 <= k < |s| => JString([s[k]])))
    case JObject(fields) => if fields == map[] then Ok([]) else Err(TypeError)
    case _ => Err(TypeError)
  }
}
