/** A value that may be absent: `null`, `undefined` and Redis' nil reply in the source. */
module Options {
  datatype Option<+T> = None | Some(value: T)
}
