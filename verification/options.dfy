/** The one failure-free wrapper the models share: a pointer that may be nil, or a result that may be an error. */
module Options {
  datatype Option<+T> = None | Some(value: T)
}
