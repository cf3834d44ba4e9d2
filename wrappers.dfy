/** The optional value used for Python's None, SQL's NULL and "no match", and the outcome of an API request. */
module Wrappers {

  datatype Option<+T> = None | Some(value: T) {

    /** The value, or a default when None (Python `x if x is not None else d`). */
    function GetOr(default: T): T {
      match this
      case Some(v) => v
      case None => default
    }
  }

  /**
   * What one API request returned: the `items` of its response, or `Failed` when the request
   * raised (an HTTP error, a quota refusal, a network fault or a malformed response).
   */
  datatype Reply<+T> = Ok(items: seq<T>) | Failed
}
