/** The usual Some/None wrapper, used for "no value" results such as a failed parse. */
module Optional {
  datatype Option<+T> = None | Some(value: T)
}
