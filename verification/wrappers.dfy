/** Failure-carrying values used wherever a library call of the original
    program can fail: an `Option` for a call whose error is only "absent or
    unusable", a `Result` for one that reports an error message. */
module Wrappers {

  datatype Option<+T> = None | Some(value: T)

  datatype Result<+T> = Success(value: T) | Failure(error: string)
}
