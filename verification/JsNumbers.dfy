/** The part of a JavaScript number the billing code can tell apart: a finite value
    (exact here, without rounding), the two infinities and NaN. */
module JsNumbers {
  datatype JsNumber = Finite(value: real) | PosInfinity | NegInfinity | NaN {

    /** `x <= 0`: every comparison with NaN is false. */
    predicate AtMostZero() {
      match this
      case Finite(v) => v <= 0.0
      case NegInfinity => true
      case PosInfinity => false
      case NaN => false
    }
  }

  /** What `Math.max(0, Math.floor(x))` can be. */
  datatype Whole = Count(n: nat) | Unbounded | NotANumber

  function FloorAtZero(x: JsNumber): Whole {
    match x
    case Finite(v) => Count(AtLeastZero(v.Floor))
    case NegInfinity => Count(0)
    case PosInfinity => Unbounded
    case NaN => NotANumber
  }

  function AtLeastZero(x: int): nat {
    if x < 0 then 0 else x
  }
}
