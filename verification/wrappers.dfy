/** The success-or-failure value of the calculator's abstract evaluators. */
module Wrappers {

  /** `Some(v)` is a computed value; `None` is a raised exception. */
  datatype Option<+T> = None | Some(value: T)
}
