/** Failure-carrying result types shared by every module of the model. */
module Wrappers {

  datatype Option<+T> = None | Some(value: T)

  /** A JavaScript completion: a value, or an exception carrying its `message`. */
  datatype Result<+T> = Ok(value: T) | Err(msg: string) {
    predicate IsFailure() { Err? }
    function PropagateFailure<U>(): Result<U>
      requires Err?
    {
      Err(msg)
    }
    function Extract(): T
      requires Ok?
    {
      value
    }
  }
}
