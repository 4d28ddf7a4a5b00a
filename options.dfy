/** The optional value used throughout the model (Swift's `T?`, JavaScript's null). */
module Options {
  datatype Option<+T> = None | Some(value: T)
}
