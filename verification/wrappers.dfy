/** Optional values: the model's stand-in for JavaScript `null`/`undefined`
    and Python `None`. */
module Wrappers {

  datatype Option<+T> = None | Some(value: T) {

    /** Returns the value held in Some, or `default` for None. */
    function GetOr(default: T): T {
      match this
      case Some(v) => v
      case None => default
    }
  }

  /** A click on item `x` of a single-selection control: selecting the item
      already selected clears the selection, any other click selects `x`. */
  function ToggleChoice<T(==)>(current: Option<T>, x: T): (r: Option<T>)
    ensures current == Some(x) ==> r == None
    ensures current != Some(x) ==> r == Some(x)
  {
    if current == Some(x) then None else Some(x)
  }
}
