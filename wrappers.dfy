/** Small failure-carrying values shared by the modules of this model. */
module Wrappers {

  /** A value that may be absent: Python's `None` against a present value. */
  datatype Option<+T> = None | Some(value: T)

  /** What a call into a library whose code is not modelled did: it returned
      a value, or it raised an exception whose `str(e)` is `message`. */
  datatype Outcome<+T> = Returned(value: T) | Raised(message: string)
}
