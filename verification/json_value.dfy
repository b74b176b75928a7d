/**
 * JSON documents as the two services exchange them, and the Python type that
 * json decoding gives each kind of value (used to word Python's errors).
 */
module JsonValue {

  /** A JSON value. Objects are maps from key to value; numbers are integers. */
  datatype Json =
    | JNull
    | JBool(b: bool)
    | JInt(n: int)
    | JString(s: string)
    | JArray(elems: seq<Json>)
    | JObject(fields: map<string, Json>)

  /** The name of the Python type a decoded JSON value has. */
  function PyTypeName(v: Json): (name: string)
    ensures name in {"NoneType", "bool", "int", "str", "list", "dict"}
    ensures name == "dict" <==> v.JObject?
    ensures name == "list" <==> v.JArray?
    ensures name == "str" <==> v.JString?
  {
    match v
    case JNull => "NoneType"
    case JBool(_) => "bool"
    case JInt(_) => "int"
    case JString(_) => "str"
    case JArray(_) => "list"
    case JObject(_) => "dict"
  }

  /** A one-field object `{key: value}`. */
  function Singleton(key: string, value: Json): (obj: Json)
    ensures obj.JObject? && obj.fields.Keys == {key} && obj.fields[key] == value
  {
    JObject(map[key := value])
  }
}
