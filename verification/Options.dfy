/** The optional value used throughout the model for Go's nil-able pointers. */
module Options {

  datatype Option<+T> = None | Some(value: T)
}
