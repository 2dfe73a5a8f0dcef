/** An optional value: a Redis field, a map entry or a pointer that may be missing. */
module Optional {
  datatype Option<+T> = None | Some(value: T)
}
