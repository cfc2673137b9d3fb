/** Option and Result, and the exceptions the modelled upload code can raise. */
module Wrappers {

  datatype Option<T> = None | Some(value: T)

  /** The Python exceptions (and library errors) that reach the caller of the upload functions. */
  datatype Error =
    | KeyError(key: string)       // a dict subscript with a missing key
    | TypeError                   // subscripting or iterating a value that does not support it
    | AttributeError              // calling .split on a value that is not a string
    | IndexError                  // a negative list index that reaches past the start
    | HttpError(status: int)      // requests' raise_for_status on a 4xx or 5xx status
    | JsonDecodeError             // requests' json() on a body that is not JSON
    | LoadFailed(path: string)    // load_bundle refusing a file
    | NonStringField(key: string) // a reference field that is not a JSON string (not modelled further)

  /** A value or the error that was raised instead; usable with `:-`. */
  datatype Result<T> = Ok(value: T) | Err(error: Error) {
    predicate IsFailure() { Err? }

    function PropagateFailure<U>(): Result<U>
      requires Err?
    {
      Err(error)
    }

    function Extract(): T
      requires Ok?
    {
      value
    }
  }
}
