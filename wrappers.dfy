/** Option, the wrapper the model uses for nullable values. */
module Wrappers {

  /** A nullable value: `None` stands for JavaScript's `null`/`undefined`. */
  datatype Option<+T> = None | Some(value: T)
}
