/** Option and Result carriers shared by every module. */
module Wrappers {

  datatype Option<T> = None | Some(value: T)
  {
    function GetOr(default: T): T
    {
      if Some? then value else default
    }
  }

  /** The value of an operation that either succeeds or raises an error. */
  datatype Result<T, E> = Success(value: T) | Failure(error: E)
  {
    predicate IsFailure()
    {
      Failure?
    }

    function PropagateFailure<U>(): Result<U, E>
      requires Failure?
    {
      Failure(error)
    }

    function Extract(): T
      requires Success?
    {
      value
    }
  }

  /** The completion of a void operation that may raise an error. */
  datatype Status<E> = Done | Raised(error: E)
  {
    predicate IsFailure()
    {
      Raised?
    }

    function PropagateFailure(): Status<E>
      requires Raised?
    {
      this
    }
  }
}
