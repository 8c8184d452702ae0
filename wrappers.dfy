/** The optional and fallible results used throughout the model:
    `None` stands for JavaScript's `null`, `Failure` for a thrown error. */
module Wrappers {

  datatype Option<+T> = None | Some(value: T)

  datatype Result<+R, +E> = Success(value: R) | Failure(error: E)
}
