/** Nullable values and throwing calls: a value that may be absent (Kotlin's
    nullable types) and the outcome of a library call that may throw. */
module Wrappers {

  datatype Option<+T> = None | Some(value: T)

  /** The outcome of a library call that either returns a value or throws.
      The model never inspects the exception, so it carries no payload. */
  datatype Result<+T> = Ok(value: T) | Thrown
}
