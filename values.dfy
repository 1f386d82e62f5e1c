/**
 * Values of the JavaScript runtime that the API inspects: optional values,
 * parsed JSON, the values a `catch` block can receive, and the result of
 * `Number(...)` applied to a configuration string.
 */
module Values {

  /** A value that may be `undefined`. */
  datatype Option<+T> = None | Some(value: T) {

    /** `x ?? default` */
    function GetOr(default: T): T {
      match this
      case Some(v) => v
      case None => default
    }
  }

  datatype Result<+T, +E> = Ok(value: T) | Err(error: E)

  /** A value produced by `JSON.parse`; numbers are finite. */
  datatype Json =
    | JNull
    | JBool(b: bool)
    | JNum(n: real)
    | JStr(s: string)
    | JArr(items: seq<Json>)
    | JObj(fields: map<string, Json>)

  /**
   * What a `catch` block receives: an `HTTPException` (always carrying a numeric
   * status), any other `Error` instance (whose `status` property may be absent),
   * or a thrown value that is not an `Error` at all.
   */
  datatype Thrown =
    | HttpError(name: string, message: string, stack: Option<string>, code: int)
    | PlainError(name: string, message: string, stack: Option<string>, statusField: Option<int>)
    | NonError(value: Json)
  {
    /** `error instanceof Error` */
    predicate IsError() {
      !NonError?
    }
  }

  /** The outcome of `Number(s)` on an environment string. */
  datatype JsNumber = Finite(r: real) | NaN | PosInfinity | NegInfinity

  /** JavaScript truthiness of a possibly undefined string: defined and non-empty. */
  predicate Truthy(v: Option<string>) {
    v.Some? && v.value != ""
  }
}
