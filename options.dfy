/** A value that may be absent: the `null` initial states of the games. */
module Options {
  datatype Option<T> = None | Some(value: T)
}
