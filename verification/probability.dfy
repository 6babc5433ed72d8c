/** Validation of the two scenario probabilities of one alternative.

    The calculator accepts an entered pair only when it sums to one up to a
    fixed absolute tolerance of 1e-6; otherwise it reports an error and hands
    back a pair of absent values.
 */
module Probability {

  /** A possibly absent value; a rejected pair yields two absent probabilities. */
  datatype Option<T> = None | Some(value: T)

  /** A pair of possibly absent probabilities, as the collector passes them around. */
  type MaybePair = (Option<real>, Option<real>)

  /** Absolute tolerance on the sum of the two probabilities: 1e-6, exactly. */
  const Tolerance: real := 0.000001

  function Abs(x: real): (r: real)
    ensures r >= 0.0 && (r == x || r == -x)
  {
    if x < 0.0 then -x else x
  }

  /** The pair sums to one up to the tolerance, stated as a closed interval. */
  predicate SumsToOne(p1: real, p2: real) {
    1.0 - Tolerance <= p1 + p2 <= 1.0 + Tolerance
  }

  /** A probability the input widget lets through: a real in [0, 1]. */
  predicate InUnitRange(p: real) {
    0.0 <= p <= 1.0
  }

  /** Checks an entered pair: the pair itself when its sum is within the
      tolerance of one, otherwise the pair of absent values. */
  function Request(p1: real, p2: real): (r: MaybePair)
    ensures r.0.Some? <==> SumsToOne(p1, p2)
    ensures r.0.Some? ==> r == (Some(p1), Some(p2))
    ensures r.0.None? ==> r == (None, None)
  {
    if Abs((p1 + p2) - 1.0) > Tolerance then (None, None) else (Some(p1), Some(p2))
  }

  /** The boundary examples: exact sums pass, sums off by more than the
      tolerance fail, and a sum off by less than the tolerance still passes. */
  lemma BoundaryExamples()
    ensures Request(0.5, 0.5) == (Some(0.5), Some(0.5))
    ensures Request(1.0, 0.0) == (Some(1.0), Some(0.0))
    ensures Request(0.5, 0.49) == (None, None)
    ensures Request(0.6, 0.5) == (None, None)
    ensures Request(0.5, 0.5000005).0.Some?
    ensures Request(0.5, 0.500002).0.None?
  {
  }
}
