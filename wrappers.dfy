/** Optional values (JavaScript `null`/`undefined` versus a value) and the outcome of a
    call that may throw (`Failure` carries the thrown error's `message`). */
module Wrappers {

  datatype Option<+T> = None | Some(value: T)

  datatype Result<+T, +E> = Success(value: T) | Failure(error: E)
}
