/** Optional values, the Python exceptions the orchestration layer can raise
    itself, and a result type that carries either a value or one of them. */
module Outcome {

  datatype Option<+T> = None | Some(value: T)

  /** The exceptions raised by the bookkeeping around the worker pool:
      `tup[-1]` on an empty data tuple, a dictionary lookup of an absent key,
      and a tuple unpacking whose arity does not match. */
  datatype Error = IndexError | KeyError | ValueError

  datatype Result<+T> = Ok(value: T) | Err(error: Error) {
    predicate IsFailure() { Err? }

    function PropagateFailure<U>(): Result<U>
      requires Err?
    {
      Err(error)
    }

    function Extract(): T
      requires Ok?
    {
      value
    }
  }
}
