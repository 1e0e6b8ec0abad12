/**
 * The JavaScript numbers a box corner holds: a finite value, or one of the two
 * infinities that the empty box uses. NaN is not modelled.
 */
module ExtendedReal {

  datatype ExtReal = NegInf | Fin(value: real) | PosInf

  /** `a < b` on numbers: -Infinity lies below, and Infinity above, every finite value. */
  predicate Lt(a: ExtReal, b: ExtReal)
  {
    match (a, b)
    case (NegInf, NegInf) => false
    case (NegInf, _) => true
    case (Fin(u), Fin(v)) => u < v
    case (Fin(_), PosInf) => true
    case _ => false
  }

  /** `a <= b` on numbers without NaN: `b` is not below `a`. */
  predicate Le(a: ExtReal, b: ExtReal)
  {
    !Lt(b, a)
  }

  /** `<` is a strict total order, so `<=` is a total order. */
  lemma LeTotalOrder(a: ExtReal, b: ExtReal, c: ExtReal)
    ensures Le(a, a)
    ensures Le(a, b) || Le(b, a)
    ensures Le(a, b) && Le(b, a) ==> a == b
    ensures Le(a, b) && Le(b, c) ==> Le(a, c)
  {
  }

  /** `Math.min(a, b)`: the greater lower bound of the two, and one of them. */
  function Min(a: ExtReal, b: ExtReal): (m: ExtReal)
    ensures Le(m, a) && Le(m, b)
    ensures m == a || m == b
  {
    if Lt(b, a) then b else a
  }

  /** `Math.max(a, b)`: the least upper bound of the two, and one of them. */
  function Max(a: ExtReal, b: ExtReal): (m: ExtReal)
    ensures Le(a, m) && Le(b, m)
    ensures m == a || m == b
  {
    if Lt(a, b) then b else a
  }
}
