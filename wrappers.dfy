/** Python's `None`-or-value results, as an explicit datatype. */
module Wrappers {

  datatype Option<+T> = None | Some(value: T)

  /** The outcome of a call into a service outside the model: it answered
      with a value, it answered with "nothing" (a Python `None` or a falsy
      object), or it raised an exception. */
  datatype Lookup<+T> = Hit(value: T) | Miss | Raised
}
