/** The optional value used wherever the program has `null`, a missing field or a failed call. */
module Options {
  datatype Option<+T> = None | Some(value: T)
}
