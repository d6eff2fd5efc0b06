module Wrappers {
  datatype Option<+T> = None | Some(value: T)

  datatype Result<+T, +E> = Success(value: T) | Failure(error: E)

  /**
   A type with one value. A predicate that quantifies over it holds exactly when its body does,
   but a proof carries it about as one fact, and looks inside only where it names the value.
   */
  datatype Unit = Unit

  /** What a step comes back with: its value, or nothing because the power went. */
  datatype Power<+T> = On(value: T) | Cut {
    predicate IsFailure() {
      Cut?
    }

    function PropagateFailure<U>(): Power<U>
      requires Cut?
    {
      Cut
    }

    function Extract(): T
      requires On?
    {
      value
    }
  }
}
