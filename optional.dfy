/** A value that may be absent: stands for a C pointer that may be NULL. */
module Optional {
  datatype Option<+T> = None | Some(value: T)
}
