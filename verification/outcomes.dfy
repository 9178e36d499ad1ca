/** Failures that `setup` can raise, and the result type that carries them. */
module Outcomes {

  /** The Python exceptions the modelled code can raise. */
  datatype SetupError =
    | KeyError(key: string)        // a required dict entry is missing
    | TypeError(key: string)       // a dict entry is not itself a dict
    | ZeroDivisionError            // the per-worker share divides by a zero worker count

  datatype Result<+T> = Ok(value: T) | Err(error: SetupError) {

    predicate IsFailure() {
      Err?
    }

    function PropagateFailure<U>(): Result<U>
      requires Err?
    {
      Err(error)
    }

    function Extract(): T
      requires Ok?
    {
      value
    }
  }

  datatype Option<+T> = None | Some(value: T)
}
