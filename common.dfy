/** Failure-carrying values shared by the backend and the client models. */
module Common {

  /** A value that may be absent (Python `None`, JavaScript `null`). */
  datatype Option<+T> = None | Some(value: T)

  /** The outcome of a step that either produces a value or fails. */
  datatype Result<+T, +E> = Ok(value: T) | Err(error: E)

  /** The outcome of a step that produces no value: it completes or throws. */
  datatype Outcome<+E> = Pass | Fail(error: E)

  /** An `HTTPException` raised by a backend handler. */
  datatype HttpError = HttpError(status: int, detail: string)

  /** JavaScript and Python truthiness of an optional string: present and non-empty. */
  predicate Truthy(s: Option<string>)
  {
    s.Some? && s.value != ""
  }
}
