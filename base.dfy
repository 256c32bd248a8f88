/** Small building blocks shared by the whole model: the width of Rust's `u8`
    and the Option/Result wrappers that stand for `Option` and for the
    panics of the Rust program. */
module Base {

  /** Rust's `u8`: levels, counters and race attributes are stored in it. */
  newtype u8 = x: int | 0 <= x < 256

  datatype Option<+T> = None | Some(value: T)

  datatype Result<+T, +E> = Success(value: T) | Failure(error: E)
}
