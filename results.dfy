/**
 * Values that stand in for Python's `None` and for the exceptions the
 * scraper code can raise.
 */
module Results {

  /** A value that may be absent (Python's `None`). */
  datatype Option<+T> = None | Some(value: T)

  /** The Python exception classes that the modelled code can raise. */
  datatype PyError =
    | AttributeError     // an attribute looked up on `None` (a node that was not found)
    | UnboundLocalError  // a local variable read before any assignment
    | KeyError           // a missing DataFrame column
    | IndexError         // `iloc[0]` on an empty Series
    | ConnectionError    // `requests.get` raised instead of returning a response

  /** Either the value a call returns or the exception it raises. */
  datatype Outcome<+T> = Ok(value: T) | Raised(error: PyError)
}
