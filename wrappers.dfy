/** The optional value used wherever the source has a value or `null`
    (a `find` that matches nothing, a doctor attending nobody, no current call). */
module Wrappers {
  datatype Option<+T> = None | Some(value: T)
}
