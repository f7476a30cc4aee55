/** Option and Result, the failure-carrying values used across the model. */
module Wrappers {

  datatype Option<+T> = None | Some(value: T)

  /** Either a value or the error the source raises or answers with. */
  datatype Result<+T, +E> = Ok(value: T) | Err(error: E)

  /** The value held, or `fallback` when there is none (`dict.setdefault`, `x or y`). */
  function OrElse<T>(o: Option<T>, fallback: T): T {
    if o.Some? then o.value else fallback
  }
}
