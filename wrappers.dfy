/** The optional-value type used for the script's failure paths. */
module Wrappers {

  /** `None` stands for a run of the script that stops with an exception. */
  datatype Option<+T> = None | Some(value: T)
}
