/**
  The JavaScript values that the mock server distinguishes: what `typeof`
  reports for them, whether an optional option is truthy, and the text that
  `toString()` gives for a value that is neither undefined nor an object.
 */
module JsValues {

  datatype Option<+T> = None | Some(value: T)

  /** The kinds whose `typeof` is neither "string", "object" nor "undefined", spelled out below. */
  datatype ScalarKind = Number | Boolean | BigInt | Symbol | Function

  /**
    A JavaScript value as the server sees it. Objects and arrays are known only
    by reference; a scalar carries the text its `toString()` produces.
   */
  datatype JsValue =
    | Undefined
    | Null
    | Str(text: string)
    | Obj(id: nat)
    | Scalar(kind: ScalarKind, shown: string)

  /** The string JavaScript's `typeof` operator yields. */
  function TypeOf(v: JsValue): (t: string)
    ensures t == "object" <==> v.Null? || v.Obj?
    ensures t == "string" <==> v.Str?
    ensures t == "undefined" <==> v.Undefined?
  {
    match v
    case Undefined => "undefined"
    case Null => "object"
    case Str(_) => "string"
    case Obj(_) => "object"
    case Scalar(k, _) =>
      match k
      case Number => "number"
      case Boolean => "boolean"
      case BigInt => "bigint"
      case Symbol => "symbol"
      case Function => "function"
  }

  /** `typeof v === "object"`, which holds for `null` as well. */
  predicate IsObjectTyped(v: JsValue)
    ensures IsObjectTyped(v) <==> v.Null? || v.Obj?
  {
    TypeOf(v) == "object"
  }

  /** `payload.toString()` for a payload that is neither undefined nor object-typed. */
  function ToText(v: JsValue): (s: string)
    requires !v.Undefined? && !IsObjectTyped(v)
    ensures v.Str? ==> s == v.text
  {
    match v
    case Str(t) => t
    case Scalar(_, shown) => shown
  }

  /** Truthiness of an optional boolean option: absent is falsy. */
  predicate Truthy(b: Option<bool>)
    ensures Truthy(b) <==> b.Some? && b.value
  {
    b == Some(true)
  }
}
