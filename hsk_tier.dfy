/**
 * The HSK-level tiers that both the hero panel and the decomposition grid
 * colour by: no level, levels up to 3, levels up to 6, and higher levels.
 * This module is the one reference description; each component has its own
 * copy of the if-chain, and each is proved to agree with this one.
 */
module HskTier {
  import opened JsValues

  datatype Tier = Unclassified | Foundation | Intermediate | Advanced

  /** The tiers in order of difficulty. */
  function Rank(t: Tier): nat
  {
    match t
    case Unclassified => 0
    case Foundation => 1
    case Intermediate => 2
    case Advanced => 3
  }

  /**
   * A level belongs to a tier by range: a falsy level (null, undefined, 0)
   * to no tier, any other level of at most 3 (negative ones included) to the
   * first, 4 to 6 to the second, and anything above 6 to the third.
   */
  ghost predicate InTier(level: Option<int>, t: Tier)
  {
    match t
    case Unclassified => !TruthyInt(level)
    case Foundation => TruthyInt(level) && level.value <= 3
    case Intermediate => TruthyInt(level) && 3 < level.value <= 6
    case Advanced => TruthyInt(level) && 6 < level.value
  }

  /** The tier of a level. */
  function Classify(level: Option<int>): (t: Tier)
    ensures InTier(level, t)
    ensures forall u: Tier :: InTier(level, u) ==> u == t
  {
    if !TruthyInt(level) then Unclassified
    else if level.value <= 3 then Foundation
    else if level.value <= 6 then Intermediate
    else Advanced
  }

  /** A higher (non-zero) level never falls into a lower tier. */
  lemma ClassifyMonotone(a: int, b: int)
    requires a != 0 && b != 0 && a <= b
    ensures Rank(Classify(Some(a))) <= Rank(Classify(Some(b)))
  {
  }
}
