/** The repayment tracker: interest on the outstanding debt at a flat 5.2%
    a year, the two mock borrow positions the debt is split into, the
    estimate of the health factor after a repayment, and the repay dialog's
    amount entry. */
module Repayment {
  import opened Common

  /** The annual rate applied to the whole debt. */
  const BorrowApy: real := 0.052

  /** Interest for one day on `borrowed`. */
  function DailyInterest(borrowed: real): (d: real)
    ensures d * 365.0 == borrowed * BorrowApy
    ensures borrowed >= 0.0 ==> d >= 0.0
  {
    borrowed * BorrowApy / 365.0
  }

  /** Interest shown as accrued: seven days' worth. */
  function AccruedInterest(borrowed: real): (a: real)
    ensures a == 7.0 * DailyInterest(borrowed)
    ensures borrowed >= 0.0 ==> 0.0 <= a <= borrowed / 1000.0
  {
    DailyInterest(borrowed) * 7.0
  }

  /** Principal plus accrued interest: never below the debt, and less than
      0.1% above it. */
  function TotalOwed(borrowed: real): (t: real)
    ensures t == borrowed + AccruedInterest(borrowed)
    ensures borrowed >= 0.0 ==> borrowed <= t <= borrowed * 1.001
    ensures t == 0.0 <==> borrowed == 0.0
  {
    borrowed + AccruedInterest(borrowed)
  }

  datatype Stablecoin = USDC | DAI
  datatype RateKind = Variable | Fixed

  /** One row of the "Active Borrow Positions" list. */
  datatype OpenPosition = OpenPosition(asset: Stablecoin, amount: real, apy: real, daysActive: nat, kind: RateKind)

  /** The list filter: keeps the positions with a positive amount, in order. */
  function KeepOpen(ps: seq<OpenPosition>): (r: seq<OpenPosition>)
    ensures |r| <= |ps|
    ensures forall p :: p in r <==> p in ps && p.amount > 0.0
    ensures (forall i :: 0 <= i < |ps| ==> ps[i].amount > 0.0) ==> r == ps
    ensures |ps| == 1 ==> r == (if ps[0].amount > 0.0 then ps else [])
  {
    if ps == [] then []
    else if ps[0].amount > 0.0 then [ps[0]] + KeepOpen(ps[1..])
    else KeepOpen(ps[1..])
  }

  /** Filtering a concatenation filters each part and keeps them in order;
      with the single-entry case of `KeepOpen`'s contract this fixes the
      result entry by entry, order and repetitions included. */
  lemma {:induction false} KeepOpenAppend(a: seq<OpenPosition>, b: seq<OpenPosition>)
    ensures KeepOpen(a + b) == KeepOpen(a) + KeepOpen(b)
    decreases |a|
  {
    if a == [] {
      assert a + b == b;
    } else {
      assert (a + b)[0] == a[0];
      assert (a + b)[1..] == a[1..] + b;
      KeepOpenAppend(a[1..], b);
    }
  }

  /** The debt split 60% USDC at 5.2% variable for 7 days and 40% DAI at 4.8%
      fixed for 3 days, with empty entries dropped. */
  function Positions(borrowed: real): (r: seq<OpenPosition>)
    ensures borrowed <= 0.0 ==> r == []
    ensures borrowed > 0.0 ==> |r| == 2 && r[0].asset == USDC && r[1].asset == DAI
    ensures borrowed > 0.0 ==> r[0].amount + r[1].amount == borrowed && r[0].amount == 1.5 * r[1].amount
  {
    KeepOpen([OpenPosition(USDC, borrowed * 0.6, 5.2, 7, Variable),
              OpenPosition(DAI, borrowed * 0.4, 4.8, 3, Fixed)])
  }

  /** Interest a position has accrued over its days active. */
  function PositionInterest(p: OpenPosition): (i: real)
    ensures p.amount >= 0.0 && p.apy >= 0.0 ==> i >= 0.0
    ensures i * 36500.0 == p.amount * p.apy * (p.daysActive as real)
  {
    p.amount * p.apy / 100.0 / 365.0 * (p.daysActive as real)
  }

  /** The per-position interest rows add up to less than the "Accrued
      Interest" figure shown above them. */
  lemma PositionInterestBelowAccrued(borrowed: real)
    requires borrowed > 0.0
    ensures PositionInterest(Positions(borrowed)[0]) + PositionInterest(Positions(borrowed)[1])
            < AccruedInterest(borrowed)
  {
  }

  /** The repay dialog's estimate of the health factor once `repay` is paid
      back: debt times 1.33 over the remaining debt, the divisor kept at 1 or
      more; the sentinel when there is no debt. */
  function NewHealthFactor(borrowed: real, repay: real): (hf: real)
    ensures borrowed <= 0.0 ==> hf == NoDebtSentinel
    ensures borrowed > 0.0 ==> hf * Max(1.0, borrowed - repay) == borrowed * 1.33
    ensures borrowed > 0.0 ==> 0.0 < hf <= borrowed * 1.33
  {
    if borrowed > 0.0 then borrowed * 1.33 / Max(1.0, borrowed - repay) else NoDebtSentinel
  }

  /** Repaying more never lowers the estimate. */
  lemma NewHealthFactorMonotone(borrowed: real, r1: real, r2: real)
    requires r1 <= r2
    ensures NewHealthFactor(borrowed, r1) <= NewHealthFactor(borrowed, r2)
  {
    if borrowed > 0.0 {
      var k := borrowed * 1.33;
      var d1, d2 := Max(1.0, borrowed - r1), Max(1.0, borrowed - r2);
      assert 1.0 <= d2 <= d1;
      var h1, h2 := k / d1, k / d2;
      assert h1 * d1 == k && h2 * d2 == k;
      if h1 > h2 {
        calc {
          k;
        ==
          h1 * d1;
        >
          h2 * d1;
        >=
          h2 * d2;
        ==
          k;
        }
      }
    }
  }

  /** The interest forecast card. */
  datatype Forecast = Forecast(week: real, month: real, quarter: real, year: real)

  /** Seven, thirty and ninety days of daily interest, and a year at 5.2%. */
  function InterestForecast(borrowed: real): (f: Forecast)
    ensures f.week == AccruedInterest(borrowed)
    ensures f.month == 30.0 * DailyInterest(borrowed) && f.quarter == 90.0 * DailyInterest(borrowed)
    ensures f.year == 365.0 * DailyInterest(borrowed)
    ensures borrowed >= 0.0 ==> 0.0 <= f.week <= f.month <= f.quarter <= f.year
  {
    var daily := DailyInterest(borrowed);
    Forecast(daily * 7.0, daily * 30.0, daily * 90.0, borrowed * BorrowApy)
  }

  /** The repay dialog's preset buttons. */
  datatype Preset = Quarter | Half | All

  /** The slider position each preset sets. */
  function PresetPercent(p: Preset): real
  {
    match p
    case Quarter => 25.0
    case Half => 50.0
    case All => 100.0
  }

  /** The amount-entry state of the repay dialog, for a given debt. */
  class RepayForm {
    const totalBorrowed: real
    var repayAmount: real
    var slider: Slider

    constructor (totalBorrowed: real)
      ensures this.totalBorrowed == totalBorrowed
      ensures repayAmount == 0.0 && slider == At(0.0)
      ensures Synced()
    {
      this.totalBorrowed := totalBorrowed;
      repayAmount := 0.0;
      slider := At(0.0);
    }

    /** The cap of every entry: the debt plus accrued interest. */
    function Owed(): real
    {
      TotalOwed(totalBorrowed)
    }

    /** The slider, when finite, shows the repay amount's share of what is owed. */
    ghost predicate Synced()
      reads this
    {
      Shows(slider, repayAmount, Owed())
    }

    /** Moving the slider to `p` percent repays that share of what is owed. */
    method Slide(p: real)
      modifies this
      ensures slider == At(p) && repayAmount == SliderAmount(p, Owed())
      ensures Synced()
      ensures 0.0 <= p <= 100.0 && totalBorrowed >= 0.0 ==> 0.0 <= repayAmount <= Owed()
    {
      slider := At(p);
      repayAmount := p / 100.0 * Owed();
    }

    /** A typed amount, capped at what is owed (a negative entry is kept). */
    method Enter(input: Parsed)
      modifies this
      ensures repayAmount == TypedAmount(input, Owed())
      ensures slider == Resync(repayAmount, Owed())
      ensures Synced() && repayAmount <= Owed()
    {
      var cap := Owed();
      repayAmount := TypedAmount(input, cap);
      slider := Resync(repayAmount, cap);
    }

    /** The 25%, 50% and MAX buttons. */
    method Pick(p: Preset)
      modifies this
      ensures slider == At(PresetPercent(p))
      ensures repayAmount == PresetPercent(p) / 100.0 * Owed()
      ensures p == All ==> repayAmount == Owed()
      ensures Synced()
    {
      match p
      case Quarter =>
        repayAmount := Owed() * 0.25;
        slider := At(25.0);
      case Half =>
        repayAmount := Owed() * 0.5;
        slider := At(50.0);
      case All =>
        repayAmount := Owed();
        slider := At(100.0);
    }

    /** The repay button is disabled at exactly zero, the amount the slider
        selects at its lowest position; a negative amount leaves it enabled. */
    function SubmitDisabled(): (disabled: bool)
      reads this
      ensures disabled <==> repayAmount == SliderAmount(0.0, Owed())
      ensures repayAmount < 0.0 ==> !disabled
    {
      repayAmount == 0.0
    }

    /** The repay button's handler: it hands the amount on only when it is positive. */
    method Submit() returns (fired: bool, amount: real)
      ensures fired <==> repayAmount > 0.0
      ensures amount == repayAmount
      ensures fired ==> !SubmitDisabled()
    {
      fired := repayAmount > 0.0;
      amount := repayAmount;
    }
  }
}
