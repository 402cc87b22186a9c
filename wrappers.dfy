/** Failure-carrying results for the operations of the flight model that can
    throw, and the faults they carry. */
module Wrappers {

  datatype Option<+T> = None | Some(value: T)

  datatype Result<+T, +E> = Success(value: T) | Failure(error: E) {
    predicate IsFailure() {
      Failure?
    }

    function PropagateFailure<U>(): Result<U, E>
      requires Failure?
    {
      Failure(error)
    }

    function Extract(): T
      requires Success?
    {
      value
    }
  }

  datatype Outcome<+E> = Pass | Fail(error: E)

  /** What can go wrong in the flight model.  The first two are the C++
      exceptions the code throws, with their messages.  The model works over
      the reals, so where the C++ code would divide by zero without a guard
      (producing NaN or infinity, and in one place casting it to an index)
      the model stops with `NotFinite` instead of inventing a value. */
  datatype Fault =
    | RuntimeError(what: string)
    | InvalidArgument(what: string)
    | NotFinite
}
