/** Option and Result values shared by the modules of this model. */
module Wrappers {

  /** A value that may be absent (a null pointer, Python's None, an unset protobuf field). */
  datatype Option<+T> = None | Some(value: T)

  /** The outcome of an operation that either produces a value or raises an error. */
  datatype Result<+R, +E> = Success(value: R) | Failure(error: E)

  /** The smaller of `a` and `b`. */
  function Min(a: int, b: int): (m: int)
    ensures m <= a && m <= b && (m == a || m == b)
  {
    if a <= b then a else b
  }
}
