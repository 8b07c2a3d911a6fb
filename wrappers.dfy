/** Optional values and the failures the core can raise on its own. */
module Wrappers {

  /** Python's `None` versus a present value. */
  datatype Option<+T> = None | Some(value: T)

  /** The errors the core raises: `min` of an empty sequence (a
      `ValueError`), a field index past the end of a split line (an
      `IndexError`), a date text `strptime` rejects (a `ValueError`), and
      an attribute read on `None` (an `AttributeError`). */
  datatype Error = EmptySequence | MissingField | BadDate | NoneAttribute

  /** A value, or the error that the source would raise instead of returning it. */
  datatype Result<+T> = Success(value: T) | Failure(error: Error)
}
