/** Python's `None`-or-value, used wherever the scraper stores `None` for
    an element it did not find or a dictionary key that is absent, and the
    outcome of a call that may raise. */
module Wrappers {

  datatype Option<+T> = None | Some(value: T)

  /** The outcome of calling a Python function: the value it returned, or an
      exception that escaped it. */
  datatype Outcome<+T> = Returned(value: T) | Raised
}
