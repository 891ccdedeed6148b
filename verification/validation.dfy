/** The module-level range check `br_invalid`. */
module Validation {
  import opened Results
  import opened PyValues

  /** How `br >= 0 and br <= 255` sees a value: ints as themselves, bools as
      0 and 1; for any other value the comparison raises `TypeError`. */
  function AsNumber(v: Value): Option<int> {
    match v
    case Int(i) => Some(i)
    case Bool(b) => Some(if b then 1 else 0)
    case _ => None
  }

  /** `br_invalid`: false when the comparison succeeds and holds, true when it
      fails or when the `except` branch catches the comparison error. */
  function BrInvalid(v: Value): (r: bool)
    ensures v.Str? || v.NoneValue? ==> r
    ensures v.Bool? ==> !r
  {
    match AsNumber(v)
    case None => true
    case Some(n) => !(n >= 0 && n <= 255)
  }

  /** A value passes the range check exactly when it is an integer in 0..255
      or a boolean; strings and `None` are always refused. */
  lemma BrValidExactly(v: Value)
    ensures !BrInvalid(v) <==> (v.Int? && 0 <= v.i <= 255) || v.Bool?
    ensures v.Int? ==> (BrInvalid(v) <==> v.i < 0 || v.i > 255)
  {
  }
}
