/**
 Go-style error values and the two shapes of outcome the external calls of
 the buildpack can have: a value or an error, or just an error.
 */
module Errors {

  /** An optional value; `None` stands for Go's `nil`. */
  datatype Option<+T> = None | Some(value: T)

  /** A Go `error`. `Fault` is one produced by a collaborator the model cannot
      see, known only by its message; `Wrapped` is one built with
      `fmt.Errorf("<context>: %w", cause)`, which keeps its cause on the
      unwrap chain. */
  datatype Error = Fault(message: string) | Wrapped(context: string, cause: Error)

  /** `errors.Is(e, target)`: `target` is `e` or lies on its unwrap chain. */
  predicate Is(e: Error, target: Error)
  {
    e == target || (e.Wrapped? && Is(e.cause, target))
  }

  /** Outcome of a call that returns a value and an error. */
  datatype Result<+T> = Ok(value: T) | Err(error: Error)

  /** Outcome of a call that returns only an error. */
  datatype Outcome = Pass | Fail(error: Error)
}
