/**
  The JavaScript values that flow through the reactive runtime: the values a
  reference holds, the keys of the dependency store, the results of effect
  bodies and getters, and the two failure-compatible wrappers the model uses.
 */
module Values {

  /** Identity of a JavaScript object. Objects made by `ref` and every other
      object live in separate name spaces, so the two are never conflated. */
  datatype ObjectId = RefObject(n: nat) | PlainObject(n: nat)

  /** The JavaScript values the model distinguishes. Functions are not values
      here: effect bodies, getters and callbacks are programs (see Semantics). */
  datatype Value =
    | Undefined
    | Null
    | Bool(b: bool)
    | Num(n: int)
    | Str(s: string)
    | Object(id: ObjectId)

  /** JavaScript truthiness, as used by `if (immediate)` and `if (!activeEffect)`. */
  predicate Truthy(v: Value)
  {
    match v
    case Undefined => false
    case Null => false
    case Bool(b) => b
    case Num(n) => n != 0
    case Str(s) => s != ""
    case Object(_) => true
  }

  /** The key every reference uses for its accessor: the string "value". */
  const ValueKey: Value := Str("value")

  datatype Option<+T> = None | Some(value: T)

  /** What makes a call fail. The runtime defines no errors of its own:
      `Thrown` is an exception raised by user code, `TypeError` is JavaScript's
      error for reading a property of `undefined` or calling a non-function, and
      `OutOfFuel` stands for the host's stack limit being reached. */
  datatype Error = Thrown | TypeError | OutOfFuel

  datatype Result<+T> = Ok(value: T) | Err(error: Error)
}
