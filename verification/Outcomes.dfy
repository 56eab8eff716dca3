/** The result of a transaction: either it takes effect, or it reverts and leaves no trace. */
module Outcomes {

  datatype Result<+T, +E> = Success(value: T) | Failure(error: E) {
    predicate IsFailure() {
      Failure?
    }

    function PropagateFailure<U>(): Result<U, E>
      requires Failure?
    {
      Failure(error)
    }

    function Extract(): T
      requires Success?
    {
      value
    }
  }

  datatype Unit = Unit

  /** A Solidity `require`: continue, or revert with `error`. */
  function Require<E>(condition: bool, error: E): Result<Unit, E> {
    if condition then Success(Unit) else Failure(error)
  }

  /**
   `after` and `r` are what the specified transaction `spec` leaves behind when run in `before`: its new state
   and result if it succeeds, and the untouched state with its error if it reverts.
   */
  ghost predicate Realizes<S, A, E>(spec: Result<(S, A), E>, before: S, after: S, r: Result<A, E>) {
    match spec
    case Success(done) => after == done.0 && r == Success(done.1)
    case Failure(e) => after == before && r == Failure(e)
  }

  /** The same for a transaction that returns nothing. */
  ghost predicate RealizesUnit<S, E>(spec: Result<S, E>, before: S, after: S, r: Result<Unit, E>) {
    match spec
    case Success(done) => after == done && r == Success(Unit)
    case Failure(e) => after == before && r == Failure(e)
  }
}
