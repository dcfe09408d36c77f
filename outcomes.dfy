/** Go's `error` returns and nil pointers, as values. */
module Outcomes {

  datatype Option<T> = None | Some(value: T)

  /** The errors the modelled code can return: a failed filesystem call
      (afero's *PathError) or a failure reported by the template engine. */
  datatype Error =
    | PathError(op: string, path: string)
    | TemplateError(message: string)

  /** A value or an error, as Go's `(T, error)` pair. */
  datatype Result<T> = Ok(value: T) | Err(error: Error)

  /** A bare `error` return: nil (Success) or non-nil (Failure). */
  datatype Status = Success | Failure(error: Error)
}
