/** Small value wrappers shared by every module of the relay model. */
module Base {

  /** A value that may be missing, as `None` is in the relay's dictionaries and events. */
  datatype Option<+T> = None | Some(value: T)
}
