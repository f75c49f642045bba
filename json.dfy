/**
 * Decoded JSON, as Python's `json.loads` hands it to the receivers, and the
 * few Python operations the receivers apply to it: truthiness, `dict.get`,
 * `float(...)` and `int(...)`.
 */
module Json {
  import opened Wrappers
  import opened Rounding

  datatype Json =
    | JNull
    | JBool(b: bool)
    | JNum(n: real)
    | JStr(s: string)
    | JArr(items: seq<Json>)
    | JObj(fields: map<string, Json>)

  /** One text frame from a client: either it parses as JSON or it does not. */
  datatype Frame = Undecodable | Decoded(data: Json)

  /** Python truthiness of a decoded value. */
  predicate Truthy(v: Json) {
    match v
    case JNull => false
    case JBool(b) => b
    case JNum(n) => n != 0.0
    case JStr(s) => s != ""
    case JArr(items) => items != []
    case JObj(fields) => fields != map[]
  }

  /** `d.get(key)`: None when the key is absent. */
  function Get(fields: map<string, Json>, key: string): Option<Json> {
    if key in fields then Some(fields[key]) else None
  }

  /** `d.get(key, default)`. */
  function GetOr(fields: map<string, Json>, key: string, default: Json): Json {
    if key in fields then fields[key] else default
  }

  /** A frame that decoded to a JSON object, the only kind a handler reads members from. */
  predicate IsObject(frame: Frame) {
    frame.Decoded? && frame.data.JObj?
  }

  /** `msg.get("t")` of an object frame; None for any other frame. */
  function MessageType(frame: Frame): (t: Option<Json>)
    ensures t.Some? ==> IsObject(frame)
  {
    if IsObject(frame) then Get(frame.data.fields, "t") else None
  }

  /** An object frame whose `t` is the string `name`. */
  predicate HasType(frame: Frame, name: string) {
    MessageType(frame) == Some(JStr(name))
  }

  /**
   * `float(d.get(key, 0))`: None where Python raises (null, arrays, objects).
   * Strings are treated as failing too: parsing numerals is not modelled.
   */
  function FloatField(fields: map<string, Json>, key: string): (r: Option<real>)
    ensures key !in fields ==> r == Some(0.0)
    ensures key in fields && fields[key].JNum? ==> r == Some(fields[key].n)
    ensures key in fields && fields[key].JBool? ==> r == Some(if fields[key].b then 1.0 else 0.0)
    ensures key in fields && (fields[key].JNull? || fields[key].JStr? || fields[key].JArr? || fields[key].JObj?) ==> r.None?
  {
    match GetOr(fields, key, JNum(0.0))
    case JNum(n) => Some(n)
    case JBool(b) => Some(if b then 1.0 else 0.0)
    case _ => None
  }

  /**
   * `int(v)`: numbers are truncated toward zero, booleans are 0 or 1; None
   * where Python raises. Strings are treated as failing: parsing is not modelled.
   */
  function IntOf(v: Json): Option<int> {
    match v
    case JNum(n) => Some(Trunc(n))
    case JBool(b) => Some(if b then 1 else 0)
    case _ => None
  }
}
