/**
 * The pure display rules of the decomposition grid: the colour of a
 * component card by HSK level, whether the card flickers, the pinyin it
 * shows, its hover text, and when the grid fetches and renders anything.
 */
module DecompositionGrid {
  import opened JsValues
  import opened Text
  import opened HskTier

  const Cyan500 := "6, 182, 212"
  const Cyan400 := "34, 211, 238"
  const Emerald400 := "52, 211, 153"
  const Orange500 := "249, 115, 22"

  /** The RGB triple the grid uses for each tier. */
  function TierRgb(t: Tier): string
  {
    match t
    case Unclassified => Cyan500
    case Foundation => Cyan400
    case Intermediate => Emerald400
    case Advanced => Orange500
  }

  /** Reads the tier back from one of the grid's RGB triples. */
  function RgbTier(rgb: string): (t: Option<Tier>)
    ensures t.Some? ==> TierRgb(t.value) == rgb
  {
    if rgb == Cyan500 then Some(Unclassified)
    else if rgb == Cyan400 then Some(Foundation)
    else if rgb == Emerald400 then Some(Intermediate)
    else if rgb == Orange500 then Some(Advanced)
    else None
  }

  /** Every tier has its own colour. */
  lemma TierRgbInjective(t: Tier)
    ensures RgbTier(TierRgb(t)) == Some(t)
  {
  }

  /** `getComponentColor`: the card colour of a component's HSK level. */
  function ComponentColor(hskLevel: Option<int>): (rgb: string)
    ensures rgb == TierRgb(Classify(hskLevel))
  {
    if !TruthyInt(hskLevel) then Cyan500
    else if hskLevel.value <= 3 then Cyan400
    else if hskLevel.value <= 6 then Emerald400
    else Orange500
  }

  /** `hasHsk`: the card has a level exactly when it is not drawn in the default Cyan-500. */
  function HasHsk(hskLevel: Option<int>): (b: bool)
    ensures b <==> ComponentColor(hskLevel) != Cyan500
  {
    TruthyInt(hskLevel)
  }

  /** The extra class of a card: the flicker animation exactly for cards with a level. */
  function FlickerClass(hskLevel: Option<int>): (cls: string)
    ensures cls == "animate-flicker" || cls == ""
    ensures cls == "animate-flicker" <==> HasHsk(hskLevel)
  {
    if HasHsk(hskLevel) then "animate-flicker" else ""
  }

  /** The pinyin line of a card: the stored pinyin, or "??" when there is none. */
  function DisplayPinyin(pinyin: string): (shown: string)
    ensures shown != ""
    ensures pinyin != "" ==> shown == pinyin
    ensures pinyin == "" ==> shown == "??"
  {
    if pinyin != "" then pinyin else "??"
  }

  /** The hover text of a card: the first `;`-separated sense of the definition. */
  function HoverText(definition: string): string
  {
    Split(definition, ";")[0]
  }

  /**
   * The hover text is a prefix of the definition with no `;` in it: the
   * whole definition when it has no `;`, and otherwise the part before the
   * first one.
   */
  lemma HoverTextFirstSense(definition: string)
    ensures HoverText(definition) <= definition
    ensures ';' !in HoverText(definition)
    ensures ';' !in definition ==> HoverText(definition) == definition
    ensures ';' in definition ==>
      |HoverText(definition)| < |definition| && definition[|HoverText(definition)|] == ';'
  {
    var h := HoverText(definition);
    SplitHead(definition, ";");
    forall i | 0 <= i < |h| ensures h[i] != ';' {
      assert !(";" <= definition[i..]);
      assert definition[i..][0] == definition[i];
    }
    if h != definition {
      assert ";" <= definition[|h|..];
      assert definition[|h|] == ';';
    } else {
      assert ';' !in definition;
    }
  }

  /** What the effect does when the decomposition changes. */
  datatype FetchPlan = ClearComponents | InvokeResolver(decomp: string)

  /** A null or empty decomposition clears the list without calling the backend. */
  function PlanFetch(decomposition: Option<string>): (plan: FetchPlan)
    ensures plan.ClearComponents? <==> !TruthyStr(decomposition)
    ensures plan.InvokeResolver? ==> decomposition == Some(plan.decomp) && plan.decomp != ""
  {
    if !TruthyStr(decomposition) then ClearComponents else InvokeResolver(decomposition.value)
  }

  /**
   * Whether the grid renders at all: only with a decomposition, and then
   * only while loading or once there are components.
   */
  function RendersGrid(decomposition: Option<string>, componentCount: nat, loading: bool): (shown: bool)
    ensures shown ==> TruthyStr(decomposition)
    ensures shown <==> TruthyStr(decomposition) && (componentCount > 0 || loading)
  {
    !(!TruthyStr(decomposition) || (componentCount == 0 && !loading))
  }

  /** A missing decomposition makes no backend call and shows nothing, whatever the other state. */
  lemma EmptyDecompositionShowsNothing(decomposition: Option<string>, componentCount: nat, loading: bool)
    requires decomposition == None || decomposition == Some("")
    ensures PlanFetch(decomposition) == ClearComponents
    ensures !RendersGrid(decomposition, componentCount, loading)
  {
  }
}
