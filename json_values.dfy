/** Decoded JSON values as the payload builder sees them, with the bits of
    Python's dictionary semantics it relies on. */
module JsonValues {
  import opened Results

  /** A decoded JSON document. Numbers are integers only. */
  datatype Json =
    | JNull
    | JBool(b: bool)
    | JNum(n: int)
    | JStr(s: string)
    | JArr(items: seq<Json>)
    | JObj(fields: map<string, Json>)

  /** A JSON object as a dictionary. */
  type Record = map<string, Json>

  /** Python's truth value of a decoded value: null, false, 0 and empty
      strings, lists and dictionaries are false; everything else is true. */
  predicate Truthy(v: Json) {
    match v
    case JNull => false
    case JBool(b) => b
    case JNum(n) => n != 0
    case JStr(s) => s != ""
    case JArr(items) => items != []
    case JObj(fields) => fields != map[]
  }

  /** Python's `value or fallback`. */
  function Or(value: Json, fallback: Json): (r: Json)
    ensures Truthy(value) ==> r == value
    ensures !Truthy(value) ==> r == fallback
    ensures Truthy(fallback) ==> Truthy(r)
  {
    if Truthy(value) then value else fallback
  }

  /** Python's `obj.get(key, default)`; None when `obj` is not a dictionary
      (the call raises AttributeError there). */
  function DictGet(obj: Json, key: string, default: Json): (r: Option<Json>)
    ensures r.Some? <==> obj.JObj?
    ensures obj.JObj? && key in obj.fields ==> r == Some(obj.fields[key])
    ensures obj.JObj? && key !in obj.fields ==> r == Some(default)
  {
    if obj.JObj? then
      Some(if key in obj.fields then obj.fields[key] else default)
    else
      None
  }
}
