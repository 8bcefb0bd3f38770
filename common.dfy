/** Values shared by every part of the model: Python's `None`, and the way
    Python's `if x:` reads a string that may be `None`. */
module Common {

  /** A value that may be Python's `None`. */
  datatype Option<+T> = None | Some(value: T) {

    function GetOr(default: T): T {
      match this
      case Some(v) => v
      case None => default
    }
  }

  /** `if s:` on a `str | None`: false for `None` and for the empty string. */
  predicate Truthy(s: Option<string>) {
    s.Some? && s.value != ""
  }

  /** What an f-string prints for a `str | None`: the text itself, or `None`. */
  function Shown(s: Option<string>): (r: string)
    ensures s.Some? ==> r == s.value
    ensures s.None? ==> r == "None"
  {
    s.GetOr("None")
  }

  /** A sequence with no element twice. */
  predicate Distinct<T(==)>(s: seq<T>) {
    forall i, j | 0 <= i < j < |s| :: s[i] != s[j]
  }
}
