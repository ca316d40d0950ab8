/** Values shared by every part of the delivery back end: optional values, the
    outcome of a request handler, and the JavaScript values that arrive in
    request bodies and leave in event payloads. */
module Common {

  datatype Option<T> = None | Some(value: T)

  /** The HTTP status classes the handlers answer with when they stop early. */
  datatype HttpError =
    | BadRequest    // 400
    | Unauthorized  // 401
    | Forbidden     // 403
    | NotFound      // 404
    | ServerError   // 500, also what a failed schema validation on save becomes

  datatype Result<T> = Ok(value: T) | Err(error: HttpError)

  /** A value of a JSON payload. `Time` is a date, which the source sends as an
      ISO-8601 string; here it keeps its millisecond count. */
  datatype Json =
    | Undefined
    | Null
    | Bool(b: bool)
    | Num(n: real)
    | Str(s: string)
    | Time(ms: int)

  type Payload = map<string, Json>

  /** JavaScript truthiness of a request-body string: absent and "" are falsy. */
  predicate TruthyString(o: Option<string>) {
    o.Some? && o.value != ""
  }

  /** JavaScript truthiness of a request-body number: absent and 0 are falsy. */
  predicate TruthyNumber(o: Option<real>) {
    o.Some? && o.value != 0.0
  }

  /** `o || fallback` for a request-body string. */
  function StringOr(o: Option<string>, fallback: string): string {
    if TruthyString(o) then o.value else fallback
  }

  function OptionalString(o: Option<string>): Json {
    if o.Some? then Str(o.value) else Undefined
  }

  function OptionalNumber(o: Option<real>): Json {
    if o.Some? then Num(o.value) else Undefined
  }
}
