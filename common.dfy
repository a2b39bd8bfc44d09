/** Values shared by every module of the model. */
module Common {

  /** A JavaScript value that may be `null`/`undefined` (None) or present (Some). */
  datatype Option<+T> = None | Some(value: T) {
    /** `x ?? d`: the value, or the default when absent. */
    function GetOr(default: T): T {
      match this
      case Some(v) => v
      case None => default
    }
  }

  /** The outcome of a step that can be refused. */
  datatype Result<+T, +E> = Success(value: T) | Failure(error: E)

  /** JavaScript truthiness of an optional string: absent and "" are falsy. */
  predicate TruthyString(s: Option<string>) {
    s.Some? && s.value != ""
  }

  /** `s || ""`: an optional string with falsy values replaced by "". */
  function OrEmpty(s: Option<string>): (r: string)
    ensures TruthyString(s) ==> r == s.value
    ensures !TruthyString(s) ==> r == ""
  {
    if TruthyString(s) then s.value else ""
  }

  /**
   * A JavaScript number, written as an exact real: quantities may be fractional
   * (a typed 1.5 is kept as 1.5); rounding, infinities and NaN are not modelled.
   */
  type Number = real

  /** `n || 0`: an optional number with falsy values (absent, 0) replaced by 0. */
  function OrZero(n: Option<Number>): (r: Number)
    ensures n.Some? ==> r == n.value
    ensures n.None? ==> r == 0.0
  {
    n.GetOr(0.0)
  }

  /** A day, written as its eight-character `YYYYMMDD` text (what `format("YYYYMMDD")` yields). */
  type Date = string
}
