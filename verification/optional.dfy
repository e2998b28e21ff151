/** An optional value: `None` when there is nothing, `Some(v)` otherwise. */
module Optional {

  datatype Option<+T> = None | Some(value: T)
}
