/** A value that may be absent: `undefined` or `null` in the source, or the result of a call that threw. */
module Options {
  datatype Option<+T> = None | Some(value: T)
}
