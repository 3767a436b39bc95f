/** The optional value that stands for Go's nil pointers, missing map entries and nil errors. */
module Options {
  datatype Option<+T> = None | Some(value: T)
}
