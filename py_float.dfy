/**
 * The few facts about Python floats the scripts depend on: a loss is read as
 * a number, infinity or NaN, compared with `<`, and passed to `math.exp`,
 * which raises OverflowError on a finite argument above ln of the largest
 * double.
 */
module PyFloat {

  /** A loss as a Python float: a number, infinity or NaN. */
  datatype Float = Num(v: real) | Inf | NaN

  /** Python's `<` on such floats: false whenever NaN is involved, and every number is below infinity. */
  predicate Less(a: Float, b: Float)
  {
    match a
    case Num(x) => (match b case Num(y) => x < y case Inf => true case NaN => false)
    case Inf => false
    case NaN => false
  }

  /**
   * `<` is a strict order on the non-NaN floats, NaN compares with nothing,
   * and infinity is above every number.
   */
  lemma LessIsStrictOrder(a: Float, b: Float, c: Float)
    ensures !Less(a, a)
    ensures Less(a, b) ==> !Less(b, a)
    ensures Less(a, b) && Less(b, c) ==> Less(a, c)
    ensures a.NaN? || b.NaN? ==> !Less(a, b)
    ensures a.Num? ==> Less(a, Inf)
    ensures a != NaN && b != NaN ==> Less(a, b) || Less(b, a) || a == b
  {
  }

  /**
   * ln of the largest double, as the shortest decimal that rounds to the
   * largest double whose exp is still finite; no double lies strictly
   * between that double and this decimal.
   */
  const MaxExpArgument: real := 709.782712893384

  /** math.exp(x) raises OverflowError. */
  predicate ExpOverflows(x: real)
  {
    x > MaxExpArgument
  }

  /** math.exp on a float raises: only a finite argument can overflow (exp(inf) is inf, exp(nan) is nan). */
  predicate ExpRaises(f: Float)
  {
    f.Num? && ExpOverflows(f.v)
  }
}
