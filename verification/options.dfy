/** Optional values: a field or an environment capability that may be absent. */
module Options {

  datatype Option<+T> = None | Some(value: T)
}
