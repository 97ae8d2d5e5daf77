/**
 * Parsed JSON bodies of the private-chain API, with the three Python
 * operations the handler applies to them: `dict.get`, truth testing and
 * comparison with `0`.
 * Floating-point numbers are not represented.
 */
module Json {

  datatype Value =
    | JNull
    | JBool(b: bool)
    | JNumber(n: int)
    | JString(s: string)
    | JArray(elems: seq<Value>)
    | JObject(fields: map<string, Value>)

  /** Python truth value of a decoded JSON value. */
  predicate Truthy(v: Value)
  {
    match v
    case JNull => false
    case JBool(b) => b
    case JNumber(n) => n != 0
    case JString(s) => s != ""
    case JArray(elems) => elems != []
    case JObject(fields) => fields != map[]
  }

  /**
   * The falsy JSON values are exactly Python's: `None`, `False`, `0`, the
   * empty string, list and dict. In particular anything equal to `0` is falsy.
   */
  lemma FalsyValues(v: Value)
    ensures !Truthy(v) <==> v in [JNull, JBool(false), JNumber(0), JString(""), JArray([]), JObject(map[])]
    ensures EqualsZero(v) ==> !Truthy(v)
  {
  }

  /** `obj.get(key)`: a missing key reads as None, like an explicit null. */
  function Get(obj: Value, key: string): Value
    requires obj.JObject?
  {
    if key in obj.fields then obj.fields[key] else JNull
  }

  /** Python's `v == 0`: true of the integer 0 and of `False`, never of a list. */
  predicate EqualsZero(v: Value)
  {
    v == JNumber(0) || v == JBool(false)
  }
}
