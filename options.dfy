/** The usual optional value, standing for Go's nil-or-value results and error returns. */
module Options {
  datatype Option<+T> = None | Some(value: T)
}
