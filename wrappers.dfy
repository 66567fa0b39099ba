/** Failure-carrying results shared by every module: the exceptions the C#
    core throws are modelled as `Failure` values instead of control flow. */
module Wrappers {

  datatype Option<+T> = None | Some(value: T)

  /** The .NET exception kinds the core can raise. */
  datatype Exception =
    | ArgumentNull       // System.ArgumentNullException
    | Argument           // System.ArgumentException
    | InvalidOperation   // System.InvalidOperationException
    | IndexOutOfRange    // System.IndexOutOfRangeException (array bounds check)
    | NullReference      // System.NullReferenceException (a member read through null)

  datatype Result<+T> = Success(value: T) | Failure(error: Exception) {
    predicate IsFailure() { Failure? }

    function PropagateFailure<U>(): Result<U>
      requires Failure?
    {
      Failure(error)
    }

    function Extract(): T
      requires Success?
    {
      value
    }
  }

  /** A step that either completes or raises, with no value. */
  datatype Outcome = Pass | Fail(error: Exception) {
    predicate IsFailure() { Fail? }

    function PropagateFailure<U>(): Result<U>
      requires Fail?
    {
      Failure(error)
    }
  }
}
