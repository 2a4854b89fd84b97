/** Failure-compatible result type and the error kinds the explorer can raise. */
module Wrappers {

  datatype Option<+T> = None | Some(value: T)

  /** Why an operation failed; each case names the Python failure it stands for. */
  datatype Error =
    | MissingKey(key: string)   // KeyError on a JSON object
    | NotAnObject               // TypeError: a record that is not a JSON object was subscripted
    | NotAList                  // a collection response that is not a JSON list
    | NotAString(key: string)   // a name or descriptor field that is not a JSON string
    | NotFound(key: string)     // abort(404)
    | NoDescriptor              // "Cannot get connections for entity without descriptor."

  datatype Result<+T> = Ok(value: T) | Err(error: Error) {

    predicate IsFailure() {
      Err?
    }

    function PropagateFailure<U>(): Result<U>
      requires Err?
    {
      Err(error)
    }

    function Extract(): T
      requires Ok?
    {
      value
    }
  }
}
