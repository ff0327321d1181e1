/** Optional values and error-carrying results, standing in for Go's
    `(T, bool)`, `(T, error)` and bare `error` returns. */
module Results {

  datatype Option<+T> = None | Some(value: T)

  /** `Err` carries the text that Go's `err.Error()` would return. */
  datatype Result<+T> = Ok(value: T) | Err(message: string)

  /** A bare `error` return: nil or an error's text. */
  datatype Outcome = Pass | Fail(message: string)
}
