/** Option and Result, the two failure-carrying shapes used across the model. */
module Wrappers {

  datatype Option<+T> = None | Some(value: T) {
    function GetOr(default: T): T {
      match this
      case Some(v) => v
      case None => default
    }
  }

  /** The Python exceptions the modelled code can raise. */
  datatype PyError =
    | JsonDecodeError   // `response.json()` on a body that is not JSON
    | AttributeError    // `.get` called on something that is not a dict
    | TypeError         // iterating over something that is not iterable

  datatype Result<+T> = Ok(value: T) | Err(error: PyError)
}
