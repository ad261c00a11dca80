/** The optional values that the JavaScript writes as null, undefined or an empty string. */
module Options {
  datatype Option<+T> = None | Some(value: T)
}
