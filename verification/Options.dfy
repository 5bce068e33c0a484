/** The optional value used wherever the daemon has a nil pointer, a zero time or a missing file. */
module Options {
  datatype Option<+T> = None | Some(value: T)
}
