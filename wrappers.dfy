/** Option and Result, used for Java's nullable references and for the
    two ways a call can end (a returned value or a raised exception). */
module Wrappers {

  datatype Option<+T> = None | Some(value: T)

  datatype Result<+R, +E> = Success(value: R) | Failure(error: E)
}
