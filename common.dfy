/** Vocabulary shared by the dashboard page and its dialogs: the no-debt
    sentinel, the four risk tiers, and the amount-entry arithmetic that the
    collateral, borrow and repay dialogs each repeat (slider, typed entry,
    slider resynchronisation). */
module Common {

  /** The health factor shown when nothing is borrowed; displayed as infinity. */
  const NoDebtSentinel: real := 999.0

  function Max(x: real, y: real): (r: real)
    ensures r >= x && r >= y
    ensures r == x || r == y
  {
    if x >= y then x else y
  }

  function Min(x: real, y: real): (r: real)
    ensures r <= x && r <= y
    ensures r == x || r == y
  {
    if x <= y then x else y
  }

  /** The risk tiers, from safest to most dangerous. */
  datatype Tier = Healthy | Moderate | Risky | LiquidationRisk

  /** Orders the tiers: a larger rank is a safer position. */
  function Rank(t: Tier): nat
  {
    match t
    case LiquidationRisk => 0
    case Risky => 1
    case Moderate => 2
    case Healthy => 3
  }

  /** The band of health factors each tier covers: above 2, above 1.5 up to
      2, above 1.1 up to 1.5, and 1.1 or less. The bands are disjoint and
      cover every value, so a tier is determined by its band. */
  predicate InBand(t: Tier, hf: real)
  {
    match t
    case Healthy => 2.0 < hf
    case Moderate => 1.5 < hf <= 2.0
    case Risky => 1.1 < hf <= 1.5
    case LiquidationRisk => hf <= 1.1
  }

  /** What `parseFloat` makes of the text typed into an amount box. */
  datatype Parsed = Number(value: real) | NotANumber

  /** `parseFloat(text) || 0`: text that is not a number reads as zero. */
  function OrZero(p: Parsed): (r: real)
    ensures p.Number? ==> r == p.value
    ensures r == 0.0 <==> p == NotANumber || p == Number(0.0)
  {
    match p
    case Number(v) => v
    case NotANumber => 0.0
  }

  /** A dialog's slider position: a percentage, or the non-finite value that
      dividing by a zero cap produces. */
  datatype Slider = At(percent: real) | NonFinite

  /** The slider, when it has a position, shows the amount's share of the cap. */
  predicate Shows(s: Slider, amount: real, cap: real)
  {
    s.At? ==> amount == s.percent / 100.0 * cap
  }

  /** The amount a slider at `p` percent selects out of `cap`. */
  function SliderAmount(p: real, cap: real): (r: real)
    ensures Shows(At(p), r, cap)
    ensures 0.0 <= p <= 100.0 && 0.0 <= cap ==> 0.0 <= r <= cap
    ensures p == 100.0 ==> r == cap
  {
    p / 100.0 * cap
  }

  /** The amount kept from a typed entry: the parsed number (zero when it is
      not a number), lowered to `cap` when above it, but never raised. */
  function TypedAmount(input: Parsed, cap: real): (r: real)
    ensures r <= cap
    ensures OrZero(input) <= cap ==> r == OrZero(input)
    ensures cap < OrZero(input) ==> r == cap
  {
    Min(OrZero(input), cap)
  }

  /** The slider position recomputed after a typed entry, `amount / cap * 100`;
      it has no finite value when the cap is zero. */
  function Resync(amount: real, cap: real): (s: Slider)
    ensures Shows(s, amount, cap)
    ensures s.NonFinite? <==> cap == 0.0
  {
    if cap == 0.0 then NonFinite else At(amount / cap * 100.0)
  }
}
