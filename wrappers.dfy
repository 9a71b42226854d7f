/** Optional values and results: JavaScript's `undefined` and thrown errors, made explicit. */
module Wrappers {

  datatype Option<+T> = None | Some(value: T) {
    function GetOr(default: T): T {
      match this
      case Some(v) => v
      case None => default
    }
  }

  /** The outcome of an operation that may throw: `Err` carries the error's message. */
  datatype Result<+T> = Ok(value: T) | Err(message: string)

  /** The outcome of a `fetch` followed by `response.json()`: a thrown error (network
      failure, abort, unparsable body), a response whose `ok` is false, or a parsed body. */
  datatype Response<+T> = Failed(error: string) | HttpError(status: int, statusText: string) | Received(body: T)
}
