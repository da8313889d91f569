/** The usual optional value, standing in for PHP's `null` where a value may be absent. */
module Options {
  datatype Option<+T> = None | Some(value: T)
}
