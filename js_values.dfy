// ECMAScript values as the proxy layer sees them: type tests and equality
// only.  Objects are references; numbers are abstract (no NaN, no signed
// zero), so `==` on values stands for the engine's Value comparison.

module JsValues {

  /** An object reference; the object's contents live elsewhere. */
  type ObjectId = nat

  datatype Value =
    | Undefined
    | Null
    | Boolean(b: bool)
    | Number(n: int)
    | Str(s: string)
    | Obj(ref: ObjectId)

  datatype Option<T> = None | Some(value: T)

  /** What the engine throws. `Thrown` is an exception raised by code the model does not see (a target operation). */
  datatype ErrorValue = TypeError | Thrown(v: Value)

  /** A normal or abrupt completion. */
  datatype Completion<T> = Normal(value: T) | Throw(error: ErrorValue)

  /** ToBoolean of section 7.1.2 of ECMA-262 for the abstract value kinds. */
  predicate ToBoolean(v: Value)
  {
    match v
    case Undefined => false
    case Null => false
    case Boolean(b) => b
    case Number(n) => n != 0
    case Str(s) => s != ""
    case Obj(_) => true
  }

  /** Value::isFalse: the value is exactly the boolean false. */
  predicate IsFalse(v: Value)
  {
    v == Boolean(false)
  }
}
