/** Shared wrappers: optional values, results, and the Python exceptions the
    modelled code can raise (and always catches or reports). */
module Prelude {

  datatype Option<+T> = None | Some(value: T)

  datatype Result<+T, +E> = Ok(value: T) | Err(error: E) {
    predicate IsFailure() { Err? }

    function PropagateFailure<U>(): Result<U, E>
      requires Err?
    {
      Err(error)
    }

    function Extract(): T
      requires Ok?
    {
      value
    }
  }

  /** The exceptions the price tracker's code can raise. Built-in exceptions are
      identified by their class; `ValueError` raised by the code itself and
      network failures carry their message. */
  datatype PyError =
    | AttributeError    // e.g. `.get` or `.lower` on a value that lacks it
    | TypeError         // e.g. iterating or slicing a number or None
    | KeyError          // e.g. `dict[0]`
    | IndexError        // e.g. `[][0]`
    | ValueError(message: string)
    | IntegrityError    // a NOT NULL column bound to None
    | BindingError      // a list or dict bound to an SQL parameter
    | FetchFailed(message: string)  // transport error or non-2xx status

  /** `str(e)`: the text recorded in an observation's `error` field. */
  function Describe(e: PyError): string
  {
    match e
    case AttributeError => "AttributeError"
    case TypeError => "TypeError"
    case KeyError => "KeyError"
    case IndexError => "IndexError"
    case ValueError(msg) => msg
    case IntegrityError => "NOT NULL constraint failed"
    case BindingError => "Error binding parameter"
    case FetchFailed(msg) => msg
  }
}
