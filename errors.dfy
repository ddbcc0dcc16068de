/** Go's `error` results. A Go function returning `(T, error)` is modelled as a
    pair whose second half is `None` for a nil error. */
module Errors {

  datatype Option<+T> = None | Some(value: T)

  /** An error value; `message` is what its `Error()` method returns. */
  datatype Error = Error(message: string)
}
