/** Values shared by every part of the plugin model: optional values and
    already-parsed JSON documents. */
module Common {

  /** A value that may be missing: a Python `None`, or an absent dictionary key. */
  datatype Option<+T> = None | Some(value: T) {

    /** The carried value, or `default` when missing (Python's `d.get(k, default)`). */
    function GetOr(default: T): T {
      match this
      case Some(v) => v
      case None => default
    }
  }

  /** A parsed JSON value. Python's `json` module turns objects into `dict`,
      arrays into `list`, integers into `int` and other numbers into `float`. */
  datatype Json =
    | JNull
    | JBool(b: bool)
    | JInt(i: int)
    | JReal(r: real)
    | JString(s: string)
    | JArray(items: seq<Json>)
    | JObject(fields: map<string, Json>)

  /** The empty JSON object `{}`. */
  const EmptyObject: Json := JObject(map[])

  /** The name Python reports for the type of a parsed JSON value. */
  function PythonTypeName(j: Json): (name: string)
    ensures name == "dict" <==> j.JObject?
  {
    match j
    case JNull => "NoneType"
    case JBool(_) => "bool"
    case JInt(_) => "int"
    case JReal(_) => "float"
    case JString(_) => "str"
    case JArray(_) => "list"
    case JObject(_) => "dict"
  }
}
