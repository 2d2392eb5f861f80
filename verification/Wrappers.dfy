// Result types shared by the modules: the source's thrown errors become Failure.
module Wrappers {
  datatype Option<+T> = None | Some(value: T)

  // How a store or ledger call ends: an error can be raised before or after the call took effect.
  datatype Fate = Answered | Threw(applied: bool)
  {
    predicate Applies() { Answered? || applied }
  }

  datatype Result<+T> = Success(value: T) | Failure
  {
    predicate IsFailure() { Failure? }

    function PropagateFailure<U>(): Result<U>
      requires Failure?
    {
      Failure
    }

    function Extract(): T
      requires Success?
    {
      value
    }
  }
}
