/** Failure-compatible datatypes shared by every module of the model.
    - Option<T> stands for a C# reference that may be null.
    - Result<R, E> is a value or the exception that replaced it.
    - Outcome<E> is a void call that either returned or threw.
 */
module Wrappers {

  datatype Option<+T> = None | Some(value: T)

  datatype Result<+R, +E> = Success(value: R) | Failure(error: E)

  datatype Outcome<+E> = Pass | Fail(error: E)
}
