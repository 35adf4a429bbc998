/** The optional value used wherever the program has a null pointer, an SQL NULL or a missing key. */
module Options {
  datatype Option<+T> = None | Some(value: T)
}
