/** Failure-compatible wrapper used where the dashboard code returns `None`. */
module Wrappers {

  /** `None` stands for Python's `None` (or a missing session key). */
  datatype Option<+T> = None | Some(value: T)
}
