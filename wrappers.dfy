/** The optional value used for the source's `null` (no selection, no error, no client). */
module Wrappers {

  datatype Option<+T> = None | Some(value: T)

  /** The set holding the value of `o`, empty for `None`. */
  function OptionSet<T>(o: Option<T>): (r: set<T>)
    ensures o.None? <==> r == {}
    ensures o.Some? ==> o.value in r && |r| == 1
  {
    match o
    case None => {}
    case Some(v) => {v}
  }
}
