/** Optional values: the source's nil pointers and absent map entries. */
module Options {
  datatype Option<+T> = None | Some(value: T)
}
