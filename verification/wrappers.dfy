/** The Some/None datatype that stands in for JavaScript's `null` and for
    "not a finite number" throughout the model. */
module Wrappers {

  datatype Option<+T> = None | Some(value: T)
}
