/** Small datatypes shared by every module of the model. */
module Prelude {

  /** A value that may be absent: Python's `None` or a missing mapping key. */
  datatype Option<+T> = None | Some(value: T)
  {
    function GetOr(default: T): T {
      match this
      case Some(v) => v
      case None => default
    }
  }

  /** The last present element of a sequence of optional observations. */
  function LastKnown<T>(xs: seq<Option<T>>): Option<T> {
    if xs == [] then None
    else if xs[|xs| - 1].Some? then xs[|xs| - 1]
    else LastKnown(xs[..|xs| - 1])
  }

  /** The first present element of a sequence of optional observations. */
  function FirstKnown<T>(xs: seq<Option<T>>): Option<T> {
    if xs == [] then None
    else if FirstKnown(xs[..|xs| - 1]).Some? then FirstKnown(xs[..|xs| - 1])
    else xs[|xs| - 1]
  }
}
