/** Optional values and results with an error, as the screens use them. */
module Wrappers {

  /** A value that may be absent, such as the selected record (`undefined` when none). */
  datatype Option<+T> = None | Some(value: T)

  /** The outcome of a check that either yields a value or fails with an error. */
  datatype Result<+T, +E> = Success(value: T) | Failure(error: E)
}

/** The transient notification both screens show inside their edit modal. */
module Toasts {

  /** How long a toast stays up, in milliseconds. */
  const ToastDuration: nat := 1000

  /** A toast: its text and its display duration (the style is presentation only). */
  datatype Toast = Toast(text: string, duration: nat)
}
