/**
 * Small value wrappers used throughout the model: optional values, results
 * with an error, the outcome of an operation that may raise, and the value a
 * key of a decoded JSON object can have.
 */
module Base {

  /** Python's `Optional[T]` / JavaScript's `null`-or-value. */
  datatype Option<T> = None | Some(value: T) {
    function GetOr(default: T): T {
      if Some? then value else default
    }
  }

  /** `o || fallback` (JavaScript) / `o or fallback` (Python) on optional text: `null` and `""` fall back. */
  function OrText(o: Option<string>, fallback: string): string
  {
    if o.Some? && o.value != "" then o.value else fallback
  }

  /** A value, or the error a route reports instead (an HTTP status and detail). */
  datatype Result<T, E> = Ok(value: T) | Err(error: E)

  /** Whether a statement completed or raised an exception that propagates. */
  datatype Outcome = Done | Raised(reason: string)

  /**
   * What `d.get(key)` can see in a decoded JSON object: the key is absent,
   * it holds `null`, it holds a value of the expected JSON type, or it holds
   * a value of some other JSON type.
   */
  datatype Json<T> = Missing | Null | Value(v: T) | Mistyped
}
