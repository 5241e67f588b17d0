/** The optional-value type used throughout the model. */
module Wrappers {

  /** `None` stands for an absent value (JavaScript `undefined` slot, a failed read). */
  datatype Option<+T> = None | Some(value: T)
}
