/** The collateral dialog: a token amount, entered against a simulated wallet
    balance of 10, priced in USD by the chosen asset. The page receives the
    USD value, not the token count. */
module Collateral {
  import opened Common

  datatype Asset = ETH | BTC | USDC

  /** Each asset's mock USD price. */
  function Price(a: Asset): (p: real)
    ensures p >= 1.0
  {
    match a
    case ETH => 2400.0
    case BTC => 65000.0
    case USDC => 1.0
  }

  /** Each asset's liquidation LTV, in percent: shown on a badge and in the
      summary, and used by no computed figure. */
  function LtvPercent(a: Asset): nat
  {
    match a
    case ETH => 80
    case BTC => 75
    case USDC => 85
  }

  /** The simulated wallet balance, in tokens: the cap of every entry. */
  const Balance: real := 10.0

  /** The ratio of the "Max Borrow" preview. */
  const PreviewLtv: real := 0.75

  /** The USD value of `amount` tokens of `a`. */
  function UsdValue(amount: real, a: Asset): (v: real)
    ensures amount > 0.0 <==> v > 0.0
    ensures amount == 0.0 <==> v == 0.0
    ensures amount > 0.0 ==> v >= amount
    ensures v / Price(a) == amount
  {
    amount * Price(a)
  }

  /** The "Max Borrow (75%)" preview of a deposit worth `usd`. */
  function MaxBorrowPreview(usd: real): (r: real)
    ensures usd >= 0.0 ==> 0.0 <= r <= usd
    ensures r * 4.0 == usd * 3.0
  {
    usd * PreviewLtv
  }

  /** The preset buttons. */
  datatype Preset = Quarter | Half | All

  /** The slider position each preset sets. */
  function PresetPercent(p: Preset): real
  {
    match p
    case Quarter => 25.0
    case Half => 50.0
    case All => 100.0
  }

  /** The state of the collateral dialog. */
  class DepositForm {
    var asset: Asset
    var amount: real
    var slider: Slider

    constructor ()
      ensures asset == ETH && amount == 0.0 && slider == At(0.0)
      ensures Synced()
    {
      asset := ETH;
      amount := 0.0;
      slider := At(0.0);
    }

    /** The slider, when finite, shows the amount's share of the balance. */
    ghost predicate Synced()
      reads this
    {
      Shows(slider, amount, Balance)
    }

    /** Choosing another asset keeps the token amount, so the USD value follows
        the new price: it changes whenever the amount is not zero and the
        asset is a different one. */
    method SelectAsset(a: Asset)
      modifies this
      ensures asset == a && amount == old(amount) && slider == old(slider)
      ensures old(amount) != 0.0 && a != old(asset) ==> UsdValue(amount, asset) != UsdValue(old(amount), old(asset))
    {
      asset := a;
    }

    /** Moving the slider to `p` percent selects that share of the balance. */
    method Slide(p: real)
      modifies this
      ensures slider == At(p) && amount == SliderAmount(p, Balance)
      ensures asset == old(asset)
      ensures Synced()
      ensures 0.0 <= p <= 100.0 ==> 0.0 <= amount <= Balance
    {
      slider := At(p);
      amount := p / 100.0 * Balance;
    }

    /** A typed amount, capped at the balance (a negative entry is kept). */
    method Enter(input: Parsed)
      modifies this
      ensures amount == TypedAmount(input, Balance)
      ensures slider == Resync(amount, Balance) && slider.At?
      ensures asset == old(asset)
      ensures Synced() && amount <= Balance
    {
      var cap := Balance;
      amount := TypedAmount(input, cap);
      slider := Resync(amount, cap);
    }

    /** The 25%, 50% and MAX buttons: 2.5, 5 and 10 tokens. */
    method Pick(p: Preset)
      modifies this
      ensures slider == At(PresetPercent(p))
      ensures amount == PresetPercent(p) / 100.0 * Balance
      ensures amount == (match p case Quarter => 2.5 case Half => 5.0 case All => 10.0)
      ensures asset == old(asset)
      ensures Synced()
    {
      match p
      case Quarter =>
        amount := Balance * 0.25;
        slider := At(25.0);
      case Half =>
        amount := Balance * 0.5;
        slider := At(50.0);
      case All =>
        amount := Balance;
        slider := At(100.0);
    }

    /** The deposit button is disabled at exactly zero, where the deposit
        would be worth nothing; a negative amount leaves it enabled. */
    function SubmitDisabled(): (disabled: bool)
      reads this
      ensures disabled <==> UsdValue(amount, asset) == 0.0
      ensures amount < 0.0 ==> !disabled
    {
      amount == 0.0
    }

    /** The deposit button's handler: it hands on the USD value, and only when
        the token amount is positive. */
    method Submit() returns (fired: bool, usd: real)
      ensures fired <==> amount > 0.0
      ensures usd == UsdValue(amount, asset)
      ensures fired ==> usd > 0.0 && !SubmitDisabled()
    {
      fired := amount > 0.0;
      usd := amount * Price(asset);
    }
  }
}
