/** Failure-carrying results, standing in for Rust's `Result<T, Box<dyn Error>>`:
    the error is kept as its rendered message. */
module Wrappers {

  datatype Result<T> = Ok(value: T) | Err(error: string)
  {
    predicate IsFailure() { Err? }

    function PropagateFailure<U>(): Result<U>
      requires Err?
    {
      Err(error)
    }

    function Extract(): T
      requires Ok?
    {
      value
    }
  }

  datatype Option<T> = None | Some(value: T)
}
