/** An optional value: what the service writes as `undefined` or leaves out. */
module Options {
  datatype Option<+T> = None | Some(value: T)
}
