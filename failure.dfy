/** Failure-compatible wrappers and the exceptions the store layer can raise. */
module Failure {

  datatype Option<+T> = None | Some(value: T)

  /** The exceptions thrown by the coordination store client and by the JVM
      that the protocol code lets propagate or catches. */
  datatype Fault =
    | NodeExists        // KeeperException.NodeExistsException
    | NoNode            // KeeperException.NoNodeException
    | ConnectionLoss    // any store call made after the session was closed
    | NumberFormat      // NumberFormatException from Integer.parseInt
    | NullPointer       // NullPointerException (a null list, an unboxed null Integer)
    | IndexOutOfBounds  // StringIndexOutOfBoundsException from substring
    | Raised(message: string)  // an Exception created by the protocol code itself

  datatype Result<+T, +E> = Success(value: T) | Failure(error: E) {
    predicate IsFailure() { Failure? }

    function PropagateFailure<U>(): Result<U, E>
      requires Failure?
    {
      Failure(error)
    }

    function Extract(): T
      requires Success?
    {
      value
    }
  }

  /** A store-layer call that returns nothing but may throw. */
  type Outcome = Result<(), Fault>

  const Pass: Outcome := Success(())
}
