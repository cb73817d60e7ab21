/** Results of operations that may raise, and the failure classes of the persistence layer. */
module Wrappers {
  datatype Option<+T> = None | Some(value: T)

  /** The three classes the write lane distinguishes; only `Contract` is never retried. */
  datatype Error = Backpressure | Contract | Unavailable

  datatype Result<+T> = Success(value: T) | Failure(error: Error)
  {
    predicate IsFailure() {
      Failure?
    }

    function PropagateFailure<U>(): Result<U>
      requires Failure?
    {
      Failure(error)
    }

    function Extract(): T
      requires Success?
    {
      value
    }
  }
}
