/**
 * JSON values as the request body is built and as `res.json()` decodes the
 * response, with Python's subscription `v[k]` on the decoded value.
 */
module Json {
  import opened Wrappers

  datatype Json =
    | JNull
    | JBool(b: bool)
    | JNumber(n: real)
    | JString(s: string)
    | JArray(items: seq<Json>)
    | JObject(fields: map<string, Json>)

  /** A subscript: a dictionary key `v["name"]` or a list position `v[i]`. */
  datatype Key = Name(name: string) | Index(index: nat)

  /** The exceptions a subscription of a decoded JSON value can raise. */
  datatype SubscriptError =
    | KeyError(key: Key)   // missing key in a dict (a dict has only string keys)
    | IndexError           // position past the end of a list or a string
    | TypeError            // value not subscriptable with that kind of key

  /**
   * `v[k]` in Python: dicts take string keys only, lists and strings take
   * positions, everything else (None, booleans, numbers) raises TypeError.
   * Indexing a string yields the one-character string at that position.
   */
  function Subscript(v: Json, k: Key): (r: Result<Json, SubscriptError>)
    ensures r.Success? <==>
              (v.JObject? && k.Name? && k.name in v.fields) ||
              (v.JArray? && k.Index? && k.index < |v.items|) ||
              (v.JString? && k.Index? && k.index < |v.s|)
    ensures r.Success? && v.JObject? ==> r.value == v.fields[k.name]
    ensures r.Success? && v.JArray? ==> r.value == v.items[k.index]
    ensures r.Success? && v.JString? ==> r.value == JString([v.s[k.index]])
    ensures r.Failure? && v.JObject? ==> r.error == KeyError(k)
  {
    match v
    case JObject(fields) =>
      if k.Name? && k.name in fields then Success(fields[k.name]) else Failure(KeyError(k))
    case JArray(items) =>
      if !k.Index? then Failure(TypeError)
      else if k.index < |items| then Success(items[k.index])
      else Failure(IndexError)
    case JString(s) =>
      if !k.Index? then Failure(TypeError)
      else if k.index < |s| then Success(JString([s[k.index]]))
      else Failure(IndexError)
    case _ => Failure(TypeError)
  }
}
