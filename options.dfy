/** Optional values: the model's stand-in for a nullable reference or an absent prop. */
module Options {
  datatype Option<+T> = None | Some(value: T)
}
