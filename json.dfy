/** Decoded JSON values, the `Dict[str, Any]` payloads and bodies the
    wrapper passes around. Objects are maps: the key order of a Python dict
    is not part of the model. */
module Json {

  datatype Json =
    | JNull
    | JBool(b: bool)
    | JInt(i: int)
    | JReal(r: real)
    | JStr(s: string)
    | JArr(items: seq<Json>)
    | JObj(fields: map<string, Json>)

  /** `m.get(key, default)`. */
  function Get(m: map<string, Json>, key: string, default: Json): Json {
    if key in m then m[key] else default
  }

  /** Python's truth value of a decoded JSON value. */
  predicate Truthy(j: Json) {
    match j
    case JNull => false
    case JBool(b) => b
    case JInt(i) => i != 0
    case JReal(r) => r != 0.0
    case JStr(s) => s != ""
    case JArr(items) => items != []
    case JObj(fields) => fields != map[]
  }

  /** The name Python gives the type of a decoded value, as it appears in
      the text of a `TypeError` or `AttributeError`. */
  function PyTypeName(j: Json): string {
    match j
    case JNull => "NoneType"
    case JBool(_) => "bool"
    case JInt(_) => "int"
    case JReal(_) => "float"
    case JStr(_) => "str"
    case JArr(_) => "list"
    case JObj(_) => "dict"
  }

  /** The text of the `AttributeError` raised by `value.attr` when the
      value has no such attribute. */
  function NoAttribute(j: Json, attr: string): string {
    "'" + PyTypeName(j) + "' object has no attribute '" + attr + "'"
  }

  /** A `Dict[str, str]` seen as a JSON object. */
  function StrMap(h: map<string, string>): map<string, Json> {
    map k | k in h :: JStr(h[k])
  }
}
