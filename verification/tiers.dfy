/**
 * The subscription tier switcher of the application shell: each press
 * moves to the next tier, wrapping from the highest back to the lowest.
 */
module Tiers {
  import opened Types

  /** The position of a tier in the order Basic < Pro < Intelligence. */
  function Rank(t: Tier): (n: nat)
    ensures n < 3
  {
    match t
    case Basic => 0
    case Pro => 1
    case Intelligence => 2
  }

  /** The tier after `t`: one rank up, and Basic after Intelligence. */
  function NextTier(t: Tier): (r: Tier)
    ensures r != t
    ensures Rank(r) == (Rank(t) + 1) % 3
  {
    if t == Basic then Pro else if t == Pro then Intelligence else Basic
  }

  /** Three presses bring every tier back to itself. */
  lemma CycleOfThree(t: Tier)
    ensures NextTier(NextTier(NextTier(t))) == t
    ensures NextTier(t) != t && NextTier(NextTier(t)) != t
  {
  }

  /** Every tier is reached from exactly one tier. */
  lemma NextTierBijective(a: Tier, b: Tier)
    ensures NextTier(a) == NextTier(b) ==> a == b
    ensures NextTier(NextTier(NextTier(b))) == b
    ensures exists t :: NextTier(t) == b
  {
    assert NextTier(NextTier(NextTier(b))) == b;
  }
}
