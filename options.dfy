/** A Go pointer to a value: `None` is nil, `Some(v)` points at `v`. */
module Optional {
  datatype Option<+T> = None | Some(value: T)
}
