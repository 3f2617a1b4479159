/** Small shared vocabulary: the optional value used for nullable and partial fields. */
module Basics {

  /** `T | null` in the source, and "key absent" in a partial record. */
  datatype Option<+T> = None | Some(value: T)

  /** The value carried by `o`, or `d` when there is none. */
  function Pick<T>(o: Option<T>, d: T): (r: T)
    ensures o.Some? ==> r == o.value
    ensures o.None? ==> r == d
  {
    match o
    case Some(v) => v
    case None => d
  }
}
