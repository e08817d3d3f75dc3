/** Small shared vocabulary: optional values and results with an error. */
module Common {

  /** A value that may be absent (an `undefined` field of a request or document). */
  datatype Option<T> = None | Some(value: T) {
    function GetOr(default: T): T {
      if Some? then value else default
    }
  }

  /** The outcome of an operation that can fail with an error of type E. */
  datatype Result<T, E> = Ok(value: T) | Err(error: E)

  /** JavaScript truthiness of a string field: only the empty string (the model's
      stand-in for a missing field) is falsy. */
  predicate Truthy(s: string) {
    s != ""
  }
}
