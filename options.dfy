/** Optional values: an intersection that may miss, a nearest index that may not exist. */
module Options {
  datatype Option<+T> = None | Some(value: T)
}
