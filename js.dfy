/**
 * The JavaScript values this console handles: decoded JSON, the truthiness
 * tests the code applies to them with `||` and `if`, property reads, and
 * thrown exceptions.
 */
module Js {
  import opened Wrappers

  /** A value produced by `JSON.parse`. Numbers only ever meet a truthiness test here. */
  datatype Json =
    | JNull
    | JBool(b: bool)
    | JNumber(n: real)
    | JString(s: string)
    | JArray(items: seq<Json>)
    | JObject(fields: map<string, Json>)

  /** JavaScript truthiness of a JSON value (JSON cannot produce `NaN` or `undefined`). */
  predicate Truthy(v: Json) {
    match v
    case JNull => false
    case JBool(b) => b
    case JNumber(n) => n != 0.0
    case JString(s) => s != ""
    case JArray(_) => true
    case JObject(_) => true
  }

  /** Truthiness of a slot that holds either `null` (`None`) or a value. */
  predicate TruthySlot(v: Option<Json>) {
    v.Some? && Truthy(v.value)
  }

  /** `a || b` where both sides are `null` or a JSON value. */
  function Or(a: Option<Json>, b: Option<Json>): Option<Json> {
    if TruthySlot(a) then a else b
  }

  /** What reading a property `v.key` gives. */
  datatype Property = Undefined | Found(value: Json) | ThrowsTypeError

  /**
   * `v.key` for the plain keys this console reads (`status`, `message`):
   * reading a property of `null` throws a `TypeError`, only an object can
   * own such a key, and every other value yields `undefined`.
   */
  function Get(v: Json, key: string): Property {
    match v
    case JNull => ThrowsTypeError
    case JObject(fields) => if key in fields then Found(fields[key]) else Undefined
    case _ => Undefined
  }

  /** The outcome of `JSON.parse(text)`. */
  datatype JsonParse = Parsed(value: Json) | SyntaxError(message: string)

  /** `JSON.parse` itself is not part of this model: every operation takes it as a parameter. */
  type Decoder = string -> JsonParse

  /** A thrown value, as far as a `catch` block can tell it apart. */
  datatype Exception =
    | Error(message: string)      // an `Error`, or a subclass of it other than `TypeError`
    | TypeError(message: string)
    | NotAnError                  // a thrown value that is not an `Error` at all

  /** `err instanceof Error ? err.message : fallback`. */
  function MessageOr(e: Exception, fallback: string): string {
    match e
    case Error(m) => m
    case TypeError(m) => m
    case NotAnError => fallback
  }
}
