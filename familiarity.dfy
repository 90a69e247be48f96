/** The familiarity a newborn inherits from its parent.
    Familiarity is a `float` in the source; it is modelled here over the reals. */
module Familiarity {

  /** Parents at or above this familiarity pass on a scaled value, those
      below it pass on half of theirs. */
  const THRESHOLD: real := 0.9

  /** The scaling factor applied to parents at or above `THRESHOLD`. */
  const SCALE: real := 0.9

  /** Familiarity is meant to lie between 0 and 1. */
  predicate InRange(f: real) {
    0.0 <= f <= 1.0
  }

  /** Familiarity of a newborn whose parent has familiarity `f`.
      A newborn is never more familiar than a non-negative parent, strictly
      less familiar than a positive one, and never above 0.9 when the parent
      is in range; it reaches 0.9 only for a parent of familiarity exactly 1. */
  function Inherit(f: real): (r: real)
    ensures 0.0 <= f ==> 0.0 <= r <= f
    ensures 0.0 < f ==> 0.0 < r < f
    ensures InRange(f) ==> InRange(r) && r <= SCALE
    ensures r == SCALE <==> f == 1.0
  {
    if f < THRESHOLD then f / 2.0 else f * SCALE
  }

  /** The inheritance formula applied `n` times to `f`. This is a property of
      the formula alone: in a running game familiarity also decays and grows
      between births, so it is not the familiarity of an actual line of
      descent. */
  function Descendant(f: real, n: nat): (r: real)
    ensures InRange(f) ==> InRange(r) && r <= f
    ensures InRange(f) && 1 <= n ==> r <= SCALE
    ensures 0.0 < f ==> 0.0 < r
  {
    if n == 0 then f else Inherit(Descendant(f, n - 1))
  }

  /** Repeating the formula never raises familiarity: more applications give
      at most as much as fewer. */
  lemma {:induction false} DescendantNonIncreasing(f: real, m: nat, n: nat)
    requires InRange(f) && m <= n
    ensures Descendant(f, n) <= Descendant(f, m)
  {
    if m < n {
      DescendantNonIncreasing(f, m, n - 1);
    }
  }

  /** From a positive start, each further application of the formula gives
      strictly less. */
  lemma {:induction false} DescendantDecreasing(f: real, m: nat, n: nat)
    requires 0.0 < f <= 1.0 && m < n
    ensures Descendant(f, n) < Descendant(f, m)
  {
    if m < n - 1 {
      DescendantDecreasing(f, m, n - 1);
    }
  }
}
