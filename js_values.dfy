/**
 * The part of JavaScript's value semantics the plugin depends on: truthiness
 * (`if (x)`, `x && y`, `x || y`), `typeof x === 'object'` and optional
 * property access `x?.name`.
 */
module JsValues {

  /** A JavaScript value as far as the plugin inspects one. */
  datatype JsValue =
    | Undefined
    | Null
    | Bool(b: bool)
    | Number(n: real)
    | Str(s: string)
    | Object(fields: map<string, JsValue>)

  /** JavaScript truthiness: `undefined`, `null`, `false`, `0` and `""` are falsy. */
  predicate Truthy(v: JsValue)
  {
    match v
    case Undefined => false
    case Null => false
    case Bool(b) => b
    case Number(n) => n != 0.0
    case Str(s) => s != ""
    case Object(_) => true
  }

  /** `typeof v === 'object'`, which holds of `null` as well as of objects. */
  predicate TypeofObject(v: JsValue)
  {
    v.Null? || v.Object?
  }

  /** Optional own-property access `v?.name`; `undefined` when there is no such property. */
  function Get(v: JsValue, name: string): JsValue
  {
    if v.Object? && name in v.fields then v.fields[name] else Undefined
  }

}
