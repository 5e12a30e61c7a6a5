/**
  The JavaScript values the adapter inspects: the request context's sub-maps, the
  callback arguments, the trigger-event fields and the configuration entries.
  Numbers are integers (no NaN, no -0); an Error is an opaque error object.
 */
module JsValue {

  datatype Value =
    | Undefined
    | Null
    | Bool(b: bool)
    | Num(n: int)
    | Str(s: string)
    | Arr(items: seq<Value>)
    | Obj(fields: map<string, Value>)
    | Error(message: string)

  /** The library predicate `isNullOrUndefined`. */
  predicate IsNullOrUndefined(v: Value) {
    v.Undefined? || v.Null?
  }

  /** JavaScript truthiness, as used by `if (x)`: undefined, null, false, 0 and "" are falsy. */
  predicate Truthy(v: Value) {
    match v
    case Undefined => false
    case Null => false
    case Bool(b) => b
    case Num(n) => n != 0
    case Str(s) => s != ""
    case _ => true
  }

  /** Property read `m[key]` on a plain object: a missing key reads as undefined. */
  function Get(m: map<string, Value>, key: string): Value {
    if key in m then m[key] else Undefined
  }

  /** The object literal `{}`. */
  const EmptyObject: Value := Obj(map[])

  /**
    The JSON helpers the adapter calls and does not define: the shared library's
    `stringToJSON`, and the built-in `JSON.stringify` in its compact form and with
    two-space indentation. They are left uninterpreted.
   */
  datatype Codec = Codec(
    stringToJson: string -> Value,
    stringify: Value -> string,
    stringifyIndented: Value -> string)

}
