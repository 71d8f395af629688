/** The optional value used throughout the model for Go's nil pointers and missing map entries. */
module Option {
  datatype Option<+T> = None | Some(value: T)
}
