/** Failure-compatible wrappers used across the model: `Option` stands for a
    nullable Java reference, `Result` for a call that may throw. */
module Wrappers {

  /** `None` models a Java `null`; `Some(v)` a non-null reference to `v`. */
  datatype Option<+T> = None | Some(value: T)

  /** `Failure(e)` models a call that throws `e`; `Success(v)` one that returns `v`. */
  datatype Result<+R, +E> = Success(value: R) | Failure(error: E)
}
