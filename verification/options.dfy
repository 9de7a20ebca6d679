/** The absent-or-present values the engine signals with a NULL pointer. */
module Options {

  /** `None` stands for a NULL argument or a NULL (failed) result. */
  datatype Option<+T> = None | Some(value: T)
}
