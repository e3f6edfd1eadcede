/** Option and Result, and the Python exceptions that the modelled code raises. */
module Wrappers {

  datatype Option<+T> = None | Some(value: T)

  /** The exception classes the build helpers can raise (or let escape from the library calls they make). */
  datatype Exception =
    | ValueError      // pathlib.relative_to / with_suffix, BoundedSemaphore over-release, negative permit count
    | KeyError        // a missing dictionary key
    | TypeError       // a constructor called with too few arguments
    | AttributeError  // an attribute the object does not have
    | RuntimeError    // a failed command, an unsupported CPU

  datatype Result<+T> = Ok(value: T) | Raise(exception: Exception)

  /** What a coroutine that returns nothing of interest ends with: normally, or by raising. */
  datatype Outcome = Completed | Raised(exception: Exception)
}
