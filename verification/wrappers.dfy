/** Failure-carrying datatypes shared by the whole model.

    The application reports every failure as a thrown `Error` whose only
    content is its message string, so failures here carry a `string`. */
module Wrappers {

  /** A value that may be absent: TypeScript's `T | null` / `T | undefined`. */
  datatype Option<+T> = None | Some(value: T) {

    /** The wrapped value, or `default` when absent (`x ?? default`). */
    function GetOr(default: T): T {
      match this
      case Some(v) => v
      case None => default
    }
  }

  /** The result of an `async (): Promise<void>` call: it resolves, or it
      rejects with an error message. */
  datatype Outcome = Pass | Fail(message: string)

  /** The result of a call that produces a value or throws. */
  datatype Result<+T> = Ok(value: T) | Err(message: string)
}
