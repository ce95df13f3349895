/** Swift optionals. */
module Wrappers {
  datatype Option<+T> = None | Some(value: T)

  /** Swift's nil-coalescing operator `o ?? fallback`. */
  function Coalesce<T>(o: Option<T>, fallback: T): (r: T)
    ensures o.Some? ==> r == o.value
    ensures o.None? ==> r == fallback
  {
    match o
    case Some(v) => v
    case None => fallback
  }

  /** `o ?? other` on two optionals: the first one that is present. */
  function OrElse<T>(o: Option<T>, other: Option<T>): (r: Option<T>)
    ensures o.Some? ==> r == o
    ensures o.None? ==> r == other
  {
    if o.Some? then o else other
  }
}
