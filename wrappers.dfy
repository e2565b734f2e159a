/** Failure-carrying values shared by every module of the model. */
module Wrappers {

  /** A value that may be absent: the source's `null` / `undefined`. */
  datatype Option<T> = None | Some(value: T)

  /** The settled outcome of an asynchronous call that either yields a value or fails with a message. */
  datatype Result<T, E> = Ok(value: T) | Err(error: E)

  /** The settled outcome of an asynchronous call that yields nothing (`Observable<void>`). */
  datatype Outcome = Pass | Fail(message: string)
}
