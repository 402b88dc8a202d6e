/** A value that may be absent, as a Go function's second result or a nil value says. */
module Options {
  datatype Option<T> = None | Some(value: T)
}
