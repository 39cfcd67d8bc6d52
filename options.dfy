/** The optional value used for the component's nullable state (`T | null`). */
module Options {
  datatype Option<+T> = None | Some(value: T)
}
