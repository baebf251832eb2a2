/** The absent-or-present value used throughout the model: JavaScript's
    `null` versus an actual value. */
module Optional {
  datatype Option<+T> = None | Some(value: T)
}
