/**
 * The JavaScript values that flow through the wrappers: option bags,
 * request data and callbacks. Numbers are modelled as integers; a
 * function value is known only by an identity.
 */
module Js {

  datatype Value =
    | Undefined
    | Null
    | Bool(b: bool)
    | Number(n: int)
    | Text(s: string)
    | Object(fields: map<string, Value>)
    | Function(id: nat)

  /** JavaScript truthiness, as used by `if (x)` and `!x`: all but the falsy values. */
  predicate Truthy(v: Value)
    ensures Truthy(v) <==> v !in {Undefined, Null, Bool(false), Number(0), Text("")}
  {
    match v
    case Undefined => false
    case Null => false
    case Bool(b) => b
    case Number(n) => n != 0
    case Text(s) => s != ""
    case Object(_) => true
    case Function(_) => true
  }

  /** Property access `v.key`: own fields of an object, `undefined` otherwise. */
  function Prop(v: Value, key: string): Value {
    if v.Object? && key in v.fields then v.fields[key] else Undefined
  }
}
