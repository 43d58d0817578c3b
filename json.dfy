/**
 * A JSON-like view of the JavaScript values the plugin persists and loads.
 * Objects are maps from key to value; `Undefined` is JavaScript's `undefined`,
 * which a loaded blob never holds but an object built in memory may carry as a
 * property value (a key that is present with the value `undefined`).
 */
module Json {
  datatype Json =
    | Undefined
    | Null
    | Bool(b: bool)
    | Num(n: int)
    | Str(s: string)
    | Arr(items: seq<Json>)
    | Obj(fields: map<string, Json>)

  /** JavaScript truthiness (`!!v`); NaN is not a value of this model. */
  predicate Truthy(v: Json) {
    match v
    case Undefined => false
    case Null => false
    case Bool(b) => b
    case Num(n) => n != 0
    case Str(s) => s != ""
    case Arr(_) => true
    case Obj(_) => true
  }

  /** The string `typeof v` yields; note that `typeof null` is "object". */
  function TypeOf(v: Json): string {
    match v
    case Undefined => "undefined"
    case Null => "object"
    case Bool(_) => "boolean"
    case Num(_) => "number"
    case Str(_) => "string"
    case Arr(_) => "object"
    case Obj(_) => "object"
  }

  /**
   * `key in v` for an object value.  The own keys of an array are its
   * indices and "length"; the settings keys asked about here are neither,
   * so for arrays the answer is false.
   */
  predicate HasProperty(v: Json, key: string)
    requires TypeOf(v) == "object" && v != Null
  {
    v.Obj? && key in v.fields
  }

  /** Property read `v[key]`: `undefined` when the key is absent. */
  function Get(v: Json, key: string): Json {
    if v.Obj? && key in v.fields then v.fields[key] else Undefined
  }
}
