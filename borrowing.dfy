/** The borrow dialog: an asset with its variable APY, a rate type, and an
    amount entered by slider, typing or preset against the cap the page hands
    it. Interest and the estimated health factor are derived from those. */
module Borrowing {
  import opened Common

  datatype Asset = USDC | DAI | USDT
  datatype RateType = Variable | Fixed

  /** Each asset's variable APY, in percent. */
  function Apy(a: Asset): (r: real)
    ensures r > 0.0
  {
    match a
    case USDC => 5.2
    case DAI => 4.8
    case USDT => 5.5
  }

  /** The APY the dialog displays for the chosen rate type: the fixed rate is
      always half a point above the variable one. */
  function ShownApy(a: Asset, t: RateType): (r: real)
    ensures t == Variable ==> r == Apy(a)
    ensures t == Fixed ==> r - Apy(a) == 0.5
  {
    match t
    case Variable => Apy(a)
    case Fixed => Apy(a) + 0.5
  }

  /** Daily interest on `amount`, computed at the asset's variable APY whatever
      the rate type. */
  function DailyInterest(amount: real, a: Asset): (d: real)
    ensures d * 36500.0 == amount * Apy(a)
    ensures amount >= 0.0 ==> d >= 0.0
  {
    amount * (Apy(a) / 100.0) / 365.0
  }

  /** Monthly interest on `amount`, a twelfth of a year at the variable APY. */
  function MonthlyInterest(amount: real, a: Asset): (m: real)
    ensures m * 1200.0 == amount * Apy(a)
    ensures amount >= 0.0 ==> m >= 0.0
  {
    amount * (Apy(a) / 100.0) / 12.0
  }

  /** A month's figure is the same as 365/12 days' figures. */
  lemma MonthlyIsDailyTimesDaysPerMonth(amount: real, a: Asset)
    ensures MonthlyInterest(amount, a) * 12.0 == DailyInterest(amount, a) * 365.0
  {
  }

  /** Daily interest at the rate the dialog displays for the chosen rate type. */
  function DailyInterestAtShownRate(amount: real, a: Asset, t: RateType): (d: real)
    ensures d * 36500.0 == amount * ShownApy(a, t)
    ensures t == Variable ==> d == DailyInterest(amount, a)
  {
    amount * (ShownApy(a, t) / 100.0) / 365.0
  }

  /** Monthly interest at the rate the dialog displays for the chosen rate type. */
  function MonthlyInterestAtShownRate(amount: real, a: Asset, t: RateType): (m: real)
    ensures m * 1200.0 == amount * ShownApy(a, t)
    ensures t == Variable ==> m == MonthlyInterest(amount, a)
  {
    amount * (ShownApy(a, t) / 100.0) / 12.0
  }

  /** With the fixed rate selected, the interest shown is the variable rate's:
      on 3650 USDC the dialog displays 5.7% and 0.52 a day, where 5.7% makes
      0.57; on 1200 USDC it displays 5.2 a month, where 5.7% makes 5.7. */
  lemma FixedRateNotCharged()
    ensures ShownApy(USDC, Fixed) == 5.7
    ensures DailyInterest(3650.0, USDC) == 0.52
    ensures DailyInterestAtShownRate(3650.0, USDC, Fixed) == 0.57
    ensures MonthlyInterest(1200.0, USDC) == 5.2
    ensures MonthlyInterestAtShownRate(1200.0, USDC, Fixed) == 5.7
  {
  }

  /** A figure that may be displayed as infinity. */
  datatype Estimate = Finite(value: real) | Infinite

  /** The dialog's estimated health factor: the cap times 1.33 over the amount,
      or infinity while the amount is not positive. */
  function EstimatedHealthFactor(maxBorrow: real, amount: real): (e: Estimate)
    ensures e.Finite? <==> amount > 0.0
    ensures e.Finite? ==> e.value * amount == maxBorrow * 1.33
  {
    if amount > 0.0 then Finite(maxBorrow * 1.33 / amount) else Infinite
  }

  /** For a positive cap, borrowing more always lowers the estimate. */
  lemma EstimateDecreasing(maxBorrow: real, a1: real, a2: real)
    requires maxBorrow > 0.0 && 0.0 < a1 < a2
    ensures EstimatedHealthFactor(maxBorrow, a1).value > EstimatedHealthFactor(maxBorrow, a2).value
  {
  }

  /** The preset buttons. */
  datatype Preset = Quarter | Half | ThreeQuarters

  /** The slider position each preset sets. */
  function PresetPercent(p: Preset): real
  {
    match p
    case Quarter => 25.0
    case Half => 50.0
    case ThreeQuarters => 75.0
  }

  /** The state of the borrow dialog, opened with a cap `maxBorrow`. */
  class BorrowForm {
    const maxBorrow: real
    var asset: Asset
    var rateType: RateType
    var amount: real
    var slider: Slider

    constructor (maxBorrow: real)
      ensures this.maxBorrow == maxBorrow
      ensures asset == USDC && rateType == Variable
      ensures amount == 0.0 && slider == At(0.0)
      ensures Synced()
    {
      this.maxBorrow := maxBorrow;
      asset := USDC;
      rateType := Variable;
      amount := 0.0;
      slider := At(0.0);
    }

    /** The slider, when finite, shows the amount's share of the cap. */
    ghost predicate Synced()
      reads this
    {
      Shows(slider, amount, maxBorrow)
    }

    method SelectAsset(a: Asset)
      modifies this
      ensures asset == a
      ensures rateType == old(rateType) && amount == old(amount) && slider == old(slider)
    {
      asset := a;
    }

    method SelectRateType(t: RateType)
      modifies this
      ensures rateType == t
      ensures asset == old(asset) && amount == old(amount) && slider == old(slider)
    {
      rateType := t;
    }

    /** Moving the slider to `p` percent selects that share of the cap. */
    method Slide(p: real)
      modifies this
      ensures slider == At(p) && amount == SliderAmount(p, maxBorrow)
      ensures asset == old(asset) && rateType == old(rateType)
      ensures Synced()
      ensures 0.0 <= p <= 100.0 && maxBorrow >= 0.0 ==> 0.0 <= amount <= maxBorrow
    {
      slider := At(p);
      amount := p / 100.0 * maxBorrow;
    }

    /** A typed amount, capped at the cap; the slider follows it, and has no
        finite position when the cap is zero. */
    method Enter(input: Parsed)
      modifies this
      ensures amount == TypedAmount(input, maxBorrow)
      ensures slider == Resync(amount, maxBorrow)
      ensures asset == old(asset) && rateType == old(rateType)
      ensures Synced() && amount <= maxBorrow
    {
      var cap := maxBorrow;
      amount := TypedAmount(input, cap);
      slider := Resync(amount, cap);
    }

    /** The 25%, 50% and 75% buttons. */
    method Pick(p: Preset)
      modifies this
      ensures slider == At(PresetPercent(p))
      ensures amount == PresetPercent(p) / 100.0 * maxBorrow
      ensures asset == old(asset) && rateType == old(rateType)
      ensures Synced()
      ensures maxBorrow >= 0.0 ==> 0.0 <= amount <= maxBorrow
    {
      match p
      case Quarter =>
        amount := maxBorrow * 0.25;
        slider := At(25.0);
      case Half =>
        amount := maxBorrow * 0.5;
        slider := At(50.0);
      case ThreeQuarters =>
        amount := maxBorrow * 0.75;
        slider := At(75.0);
    }

    /** The borrow button is enabled unless the amount is zero or above the
        cap: exactly for the non-zero amounts a typed entry would keep as
        they are. */
    function Enabled(): (enabled: bool)
      reads this
      ensures enabled <==> amount != 0.0 && TypedAmount(Number(amount), maxBorrow) == amount
    {
      !(amount == 0.0 || amount > maxBorrow)
    }

    /** The borrow button's handler: it hands the amount on only when it is
        positive. */
    method Submit() returns (fired: bool, borrowed: real)
      ensures fired <==> amount > 0.0
      ensures borrowed == amount
      ensures fired && Enabled() ==> 0.0 < borrowed <= maxBorrow
    {
      fired := amount > 0.0;
      borrowed := amount;
    }
  }
}
