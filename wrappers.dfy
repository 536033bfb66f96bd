/** Optional values: a Java `null`, a C `NULL` or "no result". */
module Wrappers {
  datatype Option<T> = None | Some(value: T)
  {
    predicate IsSome() { this.Some? }

    function GetOr(default: T): (r: T)
      ensures this.Some? ==> r == this.value
      ensures this.None? ==> r == default
    {
      match this
      case None => default
      case Some(v) => v
    }
  }
}
