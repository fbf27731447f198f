/** Failure-compatible result types used by every module of the model.
    `Result` stands for the repository's `FuseQueryResult<T>`; the `:-`
    operator plays the part of Rust's `?`. */
module Wrappers {

  datatype Option<+T> = None | Some(value: T)

  datatype Result<+T, +E> = Success(value: T) | Failure(error: E) {

    predicate IsFailure() {
      Failure?
    }

    function PropagateFailure<U>(): Result<U, E>
      requires Failure?
    {
      Failure(error)
    }

    function Extract(): T
      requires Success?
    {
      value
    }
  }

  /** Errors the core reports. `PlanTooDeep` and `UnsupportedNode` are raised
      by the core itself; `CollaboratorError` carries a failure reported by a
      collaborator (thread budget, processor construction). */
  datatype QueryError =
    | PlanTooDeep(maxDepth: nat)
    | UnsupportedNode(name: string)
    | CollaboratorError(reason: string)
}
