/** Option, Result and Outcome: the values and failures the services hand back
    in place of `undefined`, a thrown error, or a `void` that may throw. */
module Wrappers {

  datatype Option<+T> = None | Some(value: T)

  datatype Result<+R, +E> = Success(value: R) | Failure(error: E)

  datatype Outcome<+E> = Pass | Fail(error: E)
}
