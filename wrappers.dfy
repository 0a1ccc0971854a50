/** The optional value used wherever the source has a value or `None`. */
module Wrappers {
  datatype Option<+T> = None | Some(value: T)
  {
    function GetOr(default: T): T
    {
      if Some? then value else default
    }
  }

  /** Python truthiness of an optional string: `None` and "" are false. */
  predicate Truthy(o: Option<string>)
  {
    o.Some? && o.value != ""
  }
}
