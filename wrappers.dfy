/** The optional-value type used wherever the browser returns "nothing" (a
    missing storage key, an unreadable percent-escape). */
module Wrappers {
  datatype Option<+T> = None | Some(value: T)
}
