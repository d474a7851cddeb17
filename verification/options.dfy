/** Python's `None`-or-value, used for optional configuration and for reads that can fail. */
module Options {

  datatype Option<+T> = None | Some(value: T)
}
