/** Extended reals: the values a float array of the stage optimiser can hold
    once infeasible cells are set to +inf and objectives are negated for the
    dominance filter.  NaN is not modelled. */
module ExtReal {

  datatype XReal = NegInf | Finite(v: real) | PosInf

  /** The order numpy uses on non-NaN floats. */
  predicate Le(a: XReal, b: XReal)
  {
    match (a, b)
    case (NegInf, _) => true
    case (_, PosInf) => true
    case (Finite(x), Finite(y)) => x <= y
    case _ => false
  }

  predicate Lt(a: XReal, b: XReal)
  {
    !Le(b, a)
  }

  /** Multiplication by -1. */
  function Neg(a: XReal): XReal
  {
    match a
    case NegInf => PosInf
    case Finite(x) => Finite(-x)
    case PosInf => NegInf
  }

  /** Negation is an involution that reverses the order. */
  lemma NegReverses(a: XReal, b: XReal)
    ensures Neg(Neg(a)) == a
    ensures Le(a, b) <==> Le(Neg(b), Neg(a))
  {
  }

  lemma LeTransitive(a: XReal, b: XReal, c: XReal)
    requires Le(a, b) && Le(b, c)
    ensures Le(a, c)
  {
  }

  lemma LeAntisymmetric(a: XReal, b: XReal)
    requires Le(a, b) && Le(b, a)
    ensures a == b
  {
  }
}
