/** Shared value types: optional values, results, and the JavaScript values
    that cross the window-messaging transport. */
module Values {

  datatype Option<+T> = None | Some(value: T)

  datatype Result<+T, +E> = Ok(value: T) | Err(error: E)

  /** The settlement of one awaited call into an opaque signer: either it
      answered with a value, or its promise was rejected with some reason. */
  datatype Reply<+T> = Answered(value: T) | CallRejected(reason: JsValue)

  /** A JavaScript value as it appears in a message payload or an argument
      list. Numbers are kept as integers. */
  datatype JsValue =
    | Undefined
    | Null
    | Bool(b: bool)
    | Num(n: int)
    | Str(s: string)
    | Obj(fields: map<string, JsValue>)

  /** JavaScript truthiness: `undefined`, `null`, `false`, `0` and `""` are falsy. */
  predicate Truthy(v: JsValue) {
    match v
    case Undefined => false
    case Null => false
    case Bool(b) => b
    case Num(n) => n != 0
    case Str(s) => s != ""
    case Obj(_) => true
  }

  /** Property access `v.key`; a missing property, or a property of a
      non-object, reads as `undefined`. */
  function Property(v: JsValue, key: string): JsValue {
    if v.Obj? && key in v.fields then v.fields[key] else Undefined
  }

  /** A nullable string (`string | null`) as a JavaScript value. */
  function NullableString(x: Option<string>): JsValue {
    match x
    case None => Null
    case Some(s) => Str(s)
  }

  /** A nullable number (`number | null`) as a JavaScript value. */
  function NullableNumber(x: Option<int>): JsValue {
    match x
    case None => Null
    case Some(n) => Num(n)
  }
}
