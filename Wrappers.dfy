/** Nullable values and Kotlin's `Result`, as plain datatypes. */
module Wrappers {

  /** A Kotlin nullable value `T?`. */
  datatype Option<+T> = None | Some(value: T)

  /** A Kotlin `Throwable`, reduced to the one thing the app reads of it: its nullable message. */
  datatype Throwable = Throwable(message: Option<string>)

  /** Kotlin's `Result<T>`: what `runCatching` produces. */
  datatype Result<+T> = Success(value: T) | Failure(exception: Throwable)
}
