/**
 * The pure display rules of the character hero panel: its glow style by
 * HSK level, its two labels, and its four corner borders.
 */
module CharacterHero {
  import opened JsValues
  import opened HskTier
  import DecompositionGrid

  const GlowNone := "border-cyan-500/30 shadow-none text-cyan-200/60 drop-shadow-[0_0_15px_rgba(6,182,212,0.2)]"
  const GlowCyan := "border-cyan-400/50 shadow-[0_0_30px_rgba(34,211,238,0.25)] text-cyan-300"
  const GlowEmerald := "border-emerald-400/50 shadow-[0_0_30px_rgba(52,211,153,0.25)] text-emerald-300"
  const GlowOrange := "border-orange-500/60 shadow-[0_0_40px_rgba(249,115,22,0.4)] text-orange-300"

  /** The glow classes the panel uses for each tier. */
  function TierGlow(t: Tier): string
  {
    match t
    case Unclassified => GlowNone
    case Foundation => GlowCyan
    case Intermediate => GlowEmerald
    case Advanced => GlowOrange
  }

  /** Reads the tier back from one of the panel's glow styles. */
  function GlowTier(cls: string): (t: Option<Tier>)
    ensures t.Some? ==> TierGlow(t.value) == cls
  {
    if cls == GlowNone then Some(Unclassified)
    else if cls == GlowCyan then Some(Foundation)
    else if cls == GlowEmerald then Some(Intermediate)
    else if cls == GlowOrange then Some(Advanced)
    else None
  }

  /** Every tier has its own glow. */
  lemma TierGlowInjective(t: Tier)
    ensures GlowTier(TierGlow(t)) == Some(t)
  {
  }

  /** `getGlowStyles`: the panel's glow classes for the character's HSK level. */
  function GlowStyles(hskLevel: Option<int>): (cls: string)
    ensures cls == TierGlow(Classify(hskLevel))
  {
    if !TruthyInt(hskLevel) then GlowNone
    else if hskLevel.value <= 3 then GlowCyan
    else if hskLevel.value <= 6 then GlowEmerald
    else GlowOrange
  }

  /** The panel and the grid put every level in the same tier. */
  lemma GlowAgreesWithGrid(hskLevel: Option<int>)
    ensures GlowTier(GlowStyles(hskLevel)) == DecompositionGrid.RgbTier(DecompositionGrid.ComponentColor(hskLevel))
    ensures GlowTier(GlowStyles(hskLevel)) == Some(Classify(hskLevel))
  {
  }

  /** The result label: a match exactly when the character has a level. */
  function ResultLabel(hskLevel: Option<int>): (caption: string)
    ensures caption == "Index_Match" || caption == "Unclassified_Entry"
    ensures caption == "Index_Match" <==> TruthyInt(hskLevel)
  {
    if TruthyInt(hskLevel) then "Index_Match" else "Unclassified_Entry"
  }

  /** The footer label: radical sync exactly for a radical. */
  function FooterLabel(isRadical: Option<bool>): (caption: string)
    ensures caption == "Radical_Sync: 100%" || caption == "Structure: Verified"
    ensures caption == "Radical_Sync: 100%" <==> TruthyBool(isRadical)
  {
    if TruthyBool(isRadical) then "Radical_Sync: 100%" else "Structure: Verified"
  }

  /** One corner of the panel: its position classes and its border colour. */
  datatype Corner = Corner(position: string, border: string)

  const CornerPositions := [
    "absolute top-0 left-0 w-6 h-6 border-t-2 border-l-2 transition-colors duration-1000",
    "absolute top-0 right-0 w-6 h-6 border-t-2 border-r-2 transition-colors duration-1000",
    "absolute bottom-0 left-0 w-6 h-6 border-b-2 border-l-2 transition-colors duration-1000",
    "absolute bottom-0 right-0 w-6 h-6 border-b-2 border-r-2 transition-colors duration-1000"]

  /** The class string a corner renders as. */
  function CornerClass(c: Corner): string
  {
    c.position + " " + c.border
  }

  /** The four corners: each in the current text colour exactly when the character has a level. */
  function Corners(hskLevel: Option<int>): (corners: seq<Corner>)
    ensures |corners| == 4
    ensures forall i :: 0 <= i < 4 ==> corners[i].position == CornerPositions[i]
    ensures forall i :: 0 <= i < 4 ==>
      (corners[i].border == "border-current" <==> TruthyInt(hskLevel)) &&
      (corners[i].border == "border-current" || corners[i].border == "border-cyan-400/30")
    ensures forall i :: 0 <= i < 4 ==> corners[i].border == corners[0].border
    ensures forall i :: 0 <= i < 4 ==> CornerClass(corners[i]) == CornerPositions[i] + " " + corners[0].border
  {
    var border := if TruthyInt(hskLevel) then "border-current" else "border-cyan-400/30";
    seq(4, i requires 0 <= i < 4 => Corner(CornerPositions[i], border))
  }
}
