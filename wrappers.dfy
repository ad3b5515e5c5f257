/** Option and Result, used for the scripts' error paths (a missing
    dictionary key, a `sys.exit()`, a `TypeError` raised by `str.join`). */
module Wrappers {

  datatype Option<+T> = None | Some(value: T)

  datatype Result<+R, +E> = Success(value: R) | Failure(error: E)
}
