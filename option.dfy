/** An optional value: the result of a computation that may have nothing to give. */
module Options {

  datatype Option<T> = None | Some(value: T)
}
