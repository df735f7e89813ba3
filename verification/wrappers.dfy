/** The explicit "present or absent" outcome that stands in for a Java
    reference that may be `null`. */
module Wrappers {

  /** `None` is the absent result (Java `null`); `Some(value)` a present one. */
  datatype Option<+T> = None | Some(value: T)
}
