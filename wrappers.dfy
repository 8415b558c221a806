/** Failure-carrying values shared by every module: an optional value and a
    value-or-error-message result (the Go `(T, error)` return pair). */
module Wrappers {

  datatype Option<+T> = None | Some(value: T)

  /** A Go `(T, error)` pair: the error is kept as its message text, which is
      what the service ever does with it (prefix it and pass it on). */
  datatype Result<+T> = Ok(value: T) | Err(message: string)
}
