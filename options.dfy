/** An optional value: a JavaScript property or storage key that may be missing. */
module Options {

  datatype Option<+T> = None | Some(value: T) {

    /** The value, or `default` when it is missing (`x || default` on a present, truthy value). */
    function GetOr(default: T): T {
      match this
      case Some(v) => v
      case None => default
    }
  }

  /** JavaScript's `s || ''` for an optional string: a missing value and "" both give "". */
  function OrEmpty(s: Option<string>): (r: string)
    ensures s.None? ==> r == ""
    ensures s.Some? ==> r == s.value
  {
    s.GetOr("")
  }
}
