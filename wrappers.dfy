/** The optional value used wherever the dashboard has `T | null` or `T | undefined`. */
module Wrappers {

  datatype Option<+T> = None | Some(value: T) {

    /** The value, or `default` when there is none (the `??` and `||` fallbacks). */
    function GetOr(default: T): T {
      match this
      case Some(v) => v
      case None => default
    }
  }

  /** `data?.items || []` for a fetched list: the list once it has arrived, and the empty list
      while there is no data. */
  function ListOrEmpty<T>(fetched: Option<seq<T>>): (r: seq<T>)
    ensures fetched.None? ==> r == []
    ensures fetched.Some? ==> r == fetched.value
  {
    fetched.GetOr([])
  }
}
