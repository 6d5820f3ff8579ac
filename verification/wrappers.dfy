/** Option and Result, the failure-carrying datatypes the rest of the model uses
    in place of C's NULL pointers and fatal exits. */
module Wrappers {

  /** A value that may be absent; `None` plays the role of a NULL `char *`. */
  datatype Option<+T> = None | Some(value: T)

  /** The outcome of a step that either produces a value or reports an error. */
  datatype Result<+R, +E> = Success(value: R) | Failure(error: E)
}
