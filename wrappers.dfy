/** Small failure-compatible datatypes shared by every module. */
module Wrappers {

  /** A value that may be missing (`undefined` in the source). */
  datatype Option<+T> = None | Some(value: T)

  /** What a call into code the model does not see (the database, bcrypt,
      jsonwebtoken) did: it returned a value or it threw. */
  datatype Call<+T> = Returns(value: T) | Throws

  function Min(a: int, b: int): int { if a <= b then a else b }
}
