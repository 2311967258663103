/**
 * The Python values `json.loads` produces, with the two Python behaviours the token
 * parser depends on: truthiness (`if not value`) and `dict.get(key, default)`.
 */
module Json {

  /** A parsed JSON document: `None`, `bool`, `int`, `float`, `str`, `list` or `dict`. */
  datatype Json =
    | JNull
    | JBool(b: bool)
    | JInt(i: int)
    | JFloat(f: real)
    | JString(s: string)
    | JArray(items: seq<Json>)
    | JObject(fields: map<string, Json>)

  /** Python truthiness: the falsy JSON values are `None`, `False`, `0`, `0.0`, `""`, `[]` and `{}`. */
  predicate Truthy(j: Json): (truthy: bool)
    ensures !truthy <==> j in {JNull, JBool(false), JInt(0), JFloat(0.0), JString(""), JArray([]), JObject(map[])}
  {
    match j
    case JNull => false
    case JBool(b) => b
    case JInt(i) => i != 0
    case JFloat(f) => f != 0.0
    case JString(s) => |s| > 0
    case JArray(items) => |items| > 0
    case JObject(fields) => |fields| > 0
  }

  /** `fields.get(key, default)`; `fields.get(key)` is `Get(fields, key, JNull)`. */
  function Get(fields: map<string, Json>, key: string, default: Json): (value: Json)
    ensures key in fields ==> value == fields[key]
    ensures key !in fields ==> value == default
  {
    if key in fields then fields[key] else default
  }

  /** Python's `type(value).__name__` for a parsed JSON value. */
  function TypeName(j: Json): (name: string)
    ensures |name| > 0
    ensures name == "dict" <==> j.JObject?
    ensures name == "NoneType" <==> j == JNull
  {
    match j
    case JNull => "NoneType"
    case JBool(_) => "bool"
    case JInt(_) => "int"
    case JFloat(_) => "float"
    case JString(_) => "str"
    case JArray(_) => "list"
    case JObject(_) => "dict"
  }
}
