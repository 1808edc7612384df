/** The optional value that stands in for a `null` or a failed match. */
module Optional {

  datatype Option<+T> = None | Some(value: T)
}
