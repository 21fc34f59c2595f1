/** The optional value used wherever the analyzer reads an attribute or a
    child element that may be absent. */
module Wrappers {

  datatype Option<+T> = None | Some(value: T) {

    /** The wrapped value, or `default` when there is none. */
    function GetOr(default: T): T {
      match this
      case Some(v) => v
      case None => default
    }
  }

  /** How a Python f-string renders an optional text value: an absent
      value prints as "None". */
  function Display(o: Option<string>): (s: string)
    ensures o.Some? ==> s == o.value
    ensures o.None? ==> s == "None"
  {
    o.GetOr("None")
  }
}
