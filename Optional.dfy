/** The optional values of the source (`T | undefined`). */
module Optional {
  datatype Option<+T> = None | Some(value: T)
}
