/** Result shapes shared by the model: an optional value (Python's `None`
    or a value) and the outcome of a call that may let an exception escape. */
module Wrappers {

  datatype Option<+T> = None | Some(value: T)

  /** A call either returns a value or raises an exception that the source
      does not catch (the exception's kind is not modelled). */
  datatype Outcome<+T> = Returned(value: T) | Raised
}
