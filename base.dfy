/**
 * Shared value wrappers used across the model: an optional value, a value-or-error
 * result (Go's `(T, error)` pairs), and an error-only outcome (Go's bare `error`).
 */
module Base {

  datatype Option<+T> = None | Some(value: T)

  /** Go's `(value, error)` return pair: exactly one side is meaningful. */
  datatype Result<+T, +E> = Ok(value: T) | Err(error: E)

  /** Go's bare `error` return: `nil` is `Done`. */
  datatype Outcome = Done | Failed(message: string)
}
