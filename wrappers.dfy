/** Option and Result values, and the Python exceptions the core can raise,
    carried as values instead of being thrown. */
module Wrappers {

  datatype Option<+T> = None | Some(value: T)

  datatype Result<+T> = Ok(value: T) | Err(error: Error)

  /** The exceptions that escape from `decensor` and `find_censored_md5ext`.
      `UnpackError` is Python's `ValueError` from a tuple unpack that gets
      a number of values other than the number of names. */
  datatype Error =
    | KeyError(key: string)
    | TypeError
    | UnpackError(expected: nat, got: nat)
}
