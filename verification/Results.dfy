/** Failure-compatible results: `Result` for values, `Requirement` for a guard that may refuse. */
module Results {
  datatype Option<+T> = None | Some(value: T)

  datatype Result<+T, +E> = Ok(value: T) | Err(error: E) {
    predicate IsFailure() {
      Err?
    }

    function PropagateFailure<U>(): Result<U, E>
      requires Err?
    {
      Err(error)
    }

    function Extract(): T
      requires Ok?
    {
      value
    }
  }

  datatype Requirement<+E> = Met | Unmet(error: E) {
    predicate IsFailure() {
      Unmet?
    }

    function PropagateFailure<U>(): Result<U, E>
      requires Unmet?
    {
      Err(error)
    }
  }

  /** Anchor's `require!`: go on if the condition holds, abort with the error otherwise. */
  function Require<E>(condition: bool, error: E): Requirement<E> {
    if condition then Met else Unmet(error)
  }
}
