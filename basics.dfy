/** Small shared vocabulary: Java's nullable references, the abstract clock and money in cents. */
module Basics {

  /** A Java reference that may be null. */
  datatype Option<+T> = None | Some(value: T) {
    function GetOr(default: T): (v: T) {
      match this
      case Some(v) => v
      case None => default
    }
  }

  /** An abstract instant, standing for `LocalDateTime.now()`. */
  type Tick = nat

  /** A decimal price with two fractional digits, counted in hundredths. */
  type Cents = int
}
