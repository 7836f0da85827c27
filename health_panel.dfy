/** The health-factor panel: a stateless view over the page's health factor,
    collateral and debt. Every figure here is a conditional expression over
    those three values. */
module HealthPanel {
  import opened Common

  /** The panel's own copy of the tier thresholds: above 2, above 1.5, above 1.1. */
  function Status(hf: real): (t: Tier)
    ensures InBand(t, hf)
  {
    if hf > 2.0 then Healthy
    else if hf > 1.5 then Moderate
    else if hf > 1.1 then Risky
    else LiquidationRisk
  }

  datatype Colour = Green | Yellow | Orange | Red

  /** The badge colour that goes with each tier. */
  function ColourOf(t: Tier): Colour
  {
    match t
    case Healthy => Green
    case Moderate => Yellow
    case Risky => Orange
    case LiquidationRisk => Red
  }

  /** The progress bar's colour, chosen by its own chain of comparisons; its
      thresholds coincide with the tier thresholds, so it is always the
      colour of the tier's badge. */
  function BarColour(hf: real): (c: Colour)
    ensures c == ColourOf(Status(hf))
  {
    if hf > 2.0 then Green
    else if hf > 1.5 then Yellow
    else if hf > 1.1 then Orange
    else Red
  }

  /** The bar's fill: the health factor on a scale where 3 is full. */
  function ProgressValue(hf: real): (p: real)
    ensures 0.0 <= p <= 100.0
    ensures hf >= 3.0 ==> p == 100.0
    ensures hf <= 0.0 ==> p == 0.0
    ensures 0.0 <= hf <= 3.0 ==> p * 3.0 == hf * 100.0
  {
    Min(100.0, Max(0.0, hf / 3.0 * 100.0))
  }

  /** A higher health factor never shows a shorter bar. */
  lemma ProgressMonotone(h1: real, h2: real)
    requires h1 <= h2
    ensures ProgressValue(h1) <= ProgressValue(h2)
  {
  }

  /** The collateral value at which the health factor would fall to 1: debt
      over 0.8, or zero without debt. */
  function LiquidationPrice(borrowed: real): (p: real)
    ensures borrowed > 0.0 ==> p * 0.8 == borrowed
    ensures borrowed <= 0.0 ==> p == 0.0
    ensures borrowed >= 0.0 ==> borrowed <= p
  {
    if borrowed > 0.0 then borrowed / 0.8 else 0.0
  }

  /** Collateral left above the liquidation price: all of it without debt,
      and with debt what remains once the debt grossed up by 0.8 is taken off. */
  function SafetyBuffer(collateral: real, borrowed: real): (r: real)
    ensures borrowed <= 0.0 ==> r == collateral
    ensures borrowed >= 0.0 ==> r <= collateral
    ensures borrowed > 0.0 ==> r * 0.8 == collateral * 0.8 - borrowed
  {
    collateral - LiquidationPrice(borrowed)
  }

  /** The buffer is shown in green exactly when it is positive: without debt
      whenever there is collateral, with debt exactly when 80% of the
      collateral exceeds the debt. */
  function BufferLooksSafe(collateral: real, borrowed: real): (safe: bool)
    ensures borrowed <= 0.0 ==> (safe <==> collateral > 0.0)
    ensures borrowed > 0.0 ==> (safe <==> collateral * 0.8 > borrowed)
  {
    SafetyBuffer(collateral, borrowed) > 0.0
  }

  /** The risk alert: below 1.5, and not the no-debt sentinel. It appears only
      in the two lowest tiers, and always in the lowest. */
  function ShowsRiskAlert(hf: real): (shown: bool)
    ensures shown <==> Rank(Status(hf)) <= Rank(Risky) && hf != 1.5
    ensures shown ==> Status(hf) == Risky || Status(hf) == LiquidationRisk
    ensures Status(hf) == LiquidationRisk ==> shown
  {
    hf < 1.5 && hf != NoDebtSentinel
  }

  /** Inside the alert, the critical wording is used below 1.1, which lies
      within the lowest tier. */
  function CriticalWording(hf: real): (critical: bool)
    ensures critical <==> Status(hf) == LiquidationRisk && hf != 1.1
  {
    hf < 1.1
  }

  /** Any health factor equal to the sentinel is displayed as infinity; such a
      value is Healthy and fills the bar. */
  function ShowsInfinity(hf: real): (shown: bool)
    ensures shown <==> hf == NoDebtSentinel
    ensures shown ==> Status(hf) == Healthy && ProgressValue(hf) == 100.0
  {
    hf == NoDebtSentinel
  }

  /** The alert's edges do not line up with the tiers': at exactly 1.1 the
      tier is already the lowest while the wording is still the plain
      warning, and at exactly 1.5 the tier is Risky while no alert shows. */
  lemma AlertEdges()
    ensures Status(1.1) == LiquidationRisk && ShowsRiskAlert(1.1) && !CriticalWording(1.1)
    ensures Status(1.5) == Risky && !ShowsRiskAlert(1.5)
  {
  }
}
