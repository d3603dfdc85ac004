/**
 * Option and Result, plus the Python exceptions that the modelled code
 * raises or lets propagate.  A function that may raise returns a Result.
 */
module Wrappers {
  datatype Option<T> = None | Some(value: T)

  /** The exception kinds the modelled Python and Go code can end with. */
  datatype Exception =
    | KeyError           // a missing dictionary key, including a missing KV key
    | TypeError          // None or a non-iterable value where a collection is used
    | ValueError         // json.loads or int() on malformed text
    | AttributeError     // a method missing on a value (`.iteritems()` on a non-dict)
    | IndexError         // an index past the end of a list, or a Go index panic
    | UnboundLocalError  // a local read before any branch assigned it
    | SslError           // a TLS failure reported by the HTTP layer
    | QueryError(message: string)  // an error value returned by a Go function
    | SystemExit(code: int)        // `sys.exit(code)`, and optparse's `parser.error`, which exits 2

  datatype Result<T> = Ok(value: T) | Err(error: Exception) {
    predicate IsFailure() { Err? }
    function PropagateFailure<U>(): Result<U>
      requires Err?
    {
      Err(error)
    }
    function Extract(): T
      requires Ok?
    {
      value
    }
  }
}
