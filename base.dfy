/** Value types shared by every part of the model: optional values, results,
    Go's `int32`, and the `map[string]string` used for labels. */
module Base {

  datatype Option<+T> = None | Some(value: T)

  datatype Result<+T, +E> = Success(value: T) | Failure(error: E)

  /** Go's `int32`. The model never does arithmetic on it, so no wrap-around arises. */
  newtype int32 = x: int | -0x8000_0000 <= x < 0x8000_0000

  /** A Go `map[string]string`; a nil map and an empty map read alike. */
  type Labels = map<string, string>
}
