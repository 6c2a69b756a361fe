/** Failure-compatible result types standing for the exceptions the loader and
    the asset manager throw. */
module Results {

  /** The exception kinds the modelled code can raise. */
  datatype Exception =
    | IndexOutOfRange          // an array index outside its bounds
    | Format                   // float.Parse / int.Parse rejected a token
    | Application(info: string) // ApplicationException carrying a shader info log

  datatype Option<T> = None | Some(value: T)

  /** A value, or the exception that aborted its computation. */
  datatype Result<T> = Ok(value: T) | Err(error: Exception) {
    predicate IsFailure() { Err? }

    function PropagateFailure<U>(): Result<U>
      requires Err?
    {
      Err(error)
    }

    function Extract(): T
      requires Ok?
    {
      value
    }
  }

  /** Normal completion, or the exception that ended a statement sequence. */
  datatype Outcome = Pass | Fail(error: Exception)
}
