/** The two stock wrappers the model uses for nullable references and for
    operations that may throw. */
module Wrappers {

  /** A reference that may be null. */
  datatype Option<+T> = None | Some(value: T)

  /** The value of a call that either returns or throws an exception whose
      message is `message`. */
  datatype Result<+T> = Ok(value: T) | Err(message: string)
}
