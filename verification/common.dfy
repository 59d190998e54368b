/** Small shared vocabulary: an optional value and the contract of the dice. */
module Common {

  /** A value that may be absent, as the source's `?:` fields and `??` defaults are. */
  datatype Option<T> = None | Some(value: T) {

    /** The carried value, or `default` when absent (the source's `x ?? default`). */
    function GetOr(default: T): T {
      match this
      case Some(v) => v
      case None => default
    }
  }

  /** The randomness source returns, for a die with `sides` faces, an integer in [1, sides]. */
  predicate IsRoll(r: int, sides: int) {
    1 <= r <= sides
  }

  function Min(a: int, b: int): int {
    if a <= b then a else b
  }

  function Max(a: int, b: int): int {
    if a >= b then a else b
  }
}
