/** Optional values, shared by the dispatcher and the plan builder. */
module Wrappers {

  /** `nil` or a value, as Ruby's optional attributes are. */
  datatype Option<+T> = None | Some(value: T)
}
