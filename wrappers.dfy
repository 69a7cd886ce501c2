/** Optional values and the success-or-error outcome of a call into the
    assistant backend. An error is kept as the string it prints as. */
module Wrappers {

  datatype Option<+T> = None | Some(value: T)

  datatype Result<+T> = Success(value: T) | Failure(error: string)
}
