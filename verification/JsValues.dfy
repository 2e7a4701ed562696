/**
 * The untyped JavaScript values that the runtime type guards inspect:
 * `typeof`, `Array.isArray` and property access.
 */
module JsValues {
  import opened Numbers

  datatype JsValue =
    | Undefined
    | Null
    | Bool(b: bool)
    | Number(n: Num)
    | Str(s: string)
    | Array(items: seq<JsValue>)
    | Object(props: map<string, JsValue>)

  /** The `typeof` operator: `null` and arrays are "object". */
  function TypeOf(v: JsValue): string {
    match v
    case Undefined => "undefined"
    case Null => "object"
    case Bool(_) => "boolean"
    case Number(_) => "number"
    case Str(_) => "string"
    case Array(_) => "object"
    case Object(_) => "object"
  }

  /** `typeof value === "object" && value !== null`. */
  predicate IsObject(v: JsValue) {
    TypeOf(v) == "object" && !v.Null?
  }

  /** `Array.isArray(value)`. */
  predicate IsArray(v: JsValue) {
    v.Array?
  }

  /** `value[key]` for a named property: missing properties read as `undefined`. */
  function Get(v: JsValue, key: string): JsValue {
    if v.Object? && key in v.props then v.props[key] else Undefined
  }
}
