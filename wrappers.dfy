/** Optional values, standing for Python's `None` and for lookups that may fail. */
module Wrappers {

  datatype Option<+T> = None | Some(value: T)

  /** The list holding the value of `o`, or the empty list. */
  function AsSeq<T>(o: Option<T>): (s: seq<T>)
    ensures |s| <= 1
    ensures o.Some? <==> |s| == 1
    ensures o.Some? ==> s[0] == o.value
  {
    match o
    case None => []
    case Some(v) => [v]
  }
}
