/** Optional values and error-carrying results, used wherever the application has
    an optional field (`dimensions?`, `file?`) or an `{ data, error }` reply. */
module Wrappers {

  datatype Option<+T> = None | Some(value: T)

  datatype Result<+T, +E> = Ok(value: T) | Err(error: E)

  /** One field of an object spread `{ ...current, ...update }`: a present field of
      the update wins, an absent one keeps the current value. */
  function Pick<T>(update: Option<T>, current: T): (r: T)
    ensures update.Some? ==> r == update.value
    ensures update.None? ==> r == current
  {
    if update.Some? then update.value else current
  }
}
