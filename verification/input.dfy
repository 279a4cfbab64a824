/** Raw text input of the calculators.

    Every calculator handler reads its text fields with `parseFloat(text) || 0`.
    Parsing text is not modelled: a field is either a number the parser
    recognised (`Some(v)`) or text it could not read (`None`, JavaScript's NaN).
    The `|| 0` then turns NaN into 0; a parsed 0 (or -0, which exact reals
    do not distinguish) is falsy too and becomes the same 0.
 */
module Input {

  datatype Option<+T> = None | Some(value: T) {

    /** The value inside Some, or the default for None */
    function GetOr(default: T): T {
      match this
      case Some(v) => v
      case None => default
    }
  }

  /** `parseFloat(text) || 0`: unreadable text becomes 0, a number stays itself. */
  function OrZero(parsed: Option<real>): (v: real)
    ensures parsed.None? ==> v == 0.0
    ensures parsed.Some? ==> v == parsed.value
  {
    parsed.GetOr(0.0)
  }
}
