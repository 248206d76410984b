/** The JavaScript values a JSON response body can hold, with the two JavaScript tests the
    client code applies to them: truthiness and the `in` operator. */
module Js {
  import opened Wrappers
  import Text

  /** A JavaScript value as produced by `JSON.parse` (plus `undefined`). A number is a `real`:
      NaN and the infinities, which JSON cannot carry, are not represented. */
  datatype Value =
    | Undefined
    | Null
    | Bool(b: bool)
    | Number(n: real)
    | Str(s: string)
    | Array(items: seq<Value>)
    | Object(props: map<string, Value>)

  /** What a JavaScript `throw` carries: an `Error` with its message, or the `TypeError`
      the engine raises itself (its message text is engine-specific and not modelled). */
  datatype Thrown = Error(message: string) | TypeError

  /** JavaScript truthiness: `undefined`, `null`, `false`, `0` and `""` are falsy. */
  predicate Truthy(v: Value)
  {
    match v
    case Undefined => false
    case Null => false
    case Bool(b) => b
    case Number(n) => n != 0.0
    case Str(s) => s != ""
    case Array(_) => true
    case Object(_) => true
  }

  /** `key in v`: the own keys of an object, the index keys and `length` of an array;
      on any primitive the operator throws a TypeError. */
  function HasProperty(v: Value, key: string): (r: Result<bool, Thrown>)
    ensures r.Failure? <==> !(v.Object? || v.Array?)
    ensures v.Object? ==> r == Success(key in v.props)
  {
    match v
    case Object(props) => Success(key in props)
    case Array(items) => Success(key == "length" || exists i :: 0 <= i < |items| && key == Text.Decimal(i))
    case _ => Failure(TypeError)
  }
}
