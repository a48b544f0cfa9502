/** Stock optional-value type, used for fields the scenario code may leave unset. */
module Wrappers {
  datatype Option<+T> = None | Some(value: T)
}
