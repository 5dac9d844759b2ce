/** Error values as the Go source builds them: an innermost cause reported by a
    collaborator, wrapped by `errors.Wrap` with one context string per layer. */
module Errors {

  datatype Option<+T> = None | Some(value: T)

  /** The classification that `os.IsExist` / `os.IsNotExist` look at. */
  datatype ErrorKind = NotExist | Exist | OtherKind

  /** `Cause` is an error coming from outside the modelled code; `Wrapped` is
      `errors.Wrap(cause, context)`, which keeps the cause for diagnostics. */
  datatype Error =
    | Cause(kind: ErrorKind, message: string)
    | Wrapped(context: string, cause: Error)

  datatype Result<+T> = Success(value: T) | Failure(error: Error)

  /** `os.IsExist` on an error returned directly by the file system. */
  predicate IsExist(e: Error) {
    e.Cause? && e.kind == Exist
  }

  /** `os.IsNotExist` on an error returned directly by the file system. */
  predicate IsNotExist(e: Error) {
    e.Cause? && e.kind == NotExist
  }
}
