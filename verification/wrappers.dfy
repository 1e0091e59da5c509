/** Failure-carrying results for the places where the Java code throws. */
module Wrappers {

  datatype Option<+T> = None | Some(value: T)

  /** The runtime exceptions the modelled code can raise. */
  datatype Error =
    | IndexOutOfBounds   // `ArrayList.remove(0)` on an empty list
    | DivisionByZero     // integer division by an empty forest's member count

  datatype Result<+T> = Success(value: T) | Failure(error: Error)
}
