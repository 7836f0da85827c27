/** The dashboard page: the position (total collateral and total debt, both
    in USD), the figures derived from it, and the handlers through which the
    three dialogs change it. Also states how the page's figures relate to the
    ones its panels and dialogs compute independently. */
module Dashboard {
  import opened Common
  import HealthPanel
  import Repayment
  import Borrowing
  import Collateral

  /** Share of the collateral counted against the debt in the health factor. */
  const LiquidationThreshold: real := 0.8

  /** Share of the collateral that may be borrowed. */
  const MaxLtv: real := 0.75

  /** Risk-adjusted collateral over debt, or the sentinel when there is no debt. */
  function HealthFactor(collateral: real, borrowed: real): (hf: real)
    ensures borrowed == 0.0 ==> hf == NoDebtSentinel
    ensures borrowed != 0.0 ==> hf * borrowed == collateral * LiquidationThreshold
  {
    if borrowed == 0.0 then NoDebtSentinel else collateral * LiquidationThreshold / borrowed
  }

  /** The page's tier thresholds: above 2, above 1.5, above 1.1. */
  function Status(hf: real): (t: Tier)
    ensures InBand(t, hf)
  {
    if hf > 2.0 then Healthy
    else if hf > 1.5 then Moderate
    else if hf > 1.1 then Risky
    else LiquidationRisk
  }

  /** Each threshold value belongs to the tier below it; the sentinel is Healthy. */
  lemma StatusBoundaries()
    ensures Status(2.0) == Moderate && Status(2.01) == Healthy
    ensures Status(1.5) == Risky && Status(1.51) == Moderate
    ensures Status(1.1) == LiquidationRisk && Status(1.11) == Risky
    ensures Status(NoDebtSentinel) == Healthy
  {
  }

  /** A higher health factor never falls in a riskier tier. */
  lemma StatusMonotone(h1: real, h2: real)
    requires h1 <= h2
    ensures Rank(Status(h1)) <= Rank(Status(h2))
  {
  }

  /** The page and the health panel classify every health factor alike. */
  lemma StatusAgreesWithPanel(hf: real)
    ensures Status(hf) == HealthPanel.Status(hf)
  {
  }

  /** The "Available to Borrow" card: 75% of the collateral less the debt,
      never below zero. */
  function AvailableToBorrow(collateral: real, borrowed: real): (r: real)
    ensures r >= 0.0 && r >= collateral * MaxLtv - borrowed
    ensures r == 0.0 || r == collateral * MaxLtv - borrowed
    ensures borrowed >= collateral * MaxLtv ==> r == 0.0
  {
    Max(0.0, collateral * MaxLtv - borrowed)
  }

  /** The cap handed to the borrow dialog: the same difference, unclamped. It
      is what still fits under 75% of the collateral, and for non-negative
      figures it is non-negative exactly in a reachable position. */
  function BorrowCapacity(collateral: real, borrowed: real): (r: real)
    ensures borrowed + r == collateral * MaxLtv
    ensures 0.0 <= collateral && 0.0 <= borrowed ==> (r >= 0.0 <==> WithinLtv(collateral, borrowed))
  {
    collateral * MaxLtv - borrowed
  }

  /** The cap and the card agree exactly when the cap is not negative. */
  lemma CapacityMatchesAvailable(collateral: real, borrowed: real)
    ensures BorrowCapacity(collateral, borrowed) >= 0.0
            <==> AvailableToBorrow(collateral, borrowed) == BorrowCapacity(collateral, borrowed)
  {
  }

  /** The deposit dialog's 75% preview is what the card would show for that
      deposit on a debt-free position. */
  lemma PreviewMatchesAvailable(usd: real)
    requires usd >= 0.0
    ensures Collateral.MaxBorrowPreview(usd) == AvailableToBorrow(usd, 0.0)
  {
  }

  /** The page's warning banner: health factor below 1.5. It appears only in
      the two lowest tiers, and always in the lowest. */
  function ShowsWarning(hf: real): (shown: bool)
    ensures shown <==> Rank(Status(hf)) <= Rank(Risky) && hf != 1.5
    ensures shown ==> Status(hf) == Risky || Status(hf) == LiquidationRisk
    ensures Status(hf) == LiquidationRisk ==> shown
  {
    hf < 1.5
  }

  /** The panel's extra "not the sentinel" test changes nothing: the banner and
      the panel's alert appear together. */
  lemma WarningMatchesPanelAlert(hf: real)
    ensures ShowsWarning(hf) <==> HealthPanel.ShowsRiskAlert(hf)
  {
  }

  /** A position the dashboard's own controls can reach: nothing negative, and
      the debt within 75% of the collateral. */
  predicate WithinLtv(collateral: real, borrowed: real)
  {
    0.0 <= collateral && 0.0 <= borrowed <= collateral * MaxLtv
  }

  /** Within the 75% limit the health factor is at least 0.8 / 0.75. */
  lemma HealthFloorWithinLtv(collateral: real, borrowed: real)
    requires WithinLtv(collateral, borrowed)
    ensures HealthFactor(collateral, borrowed) >= LiquidationThreshold / MaxLtv
  {
    if borrowed != 0.0 {
      var hf := HealthFactor(collateral, borrowed);
      assert hf * borrowed == collateral * LiquidationThreshold;
      if hf < LiquidationThreshold / MaxLtv {
        calc {
          collateral * LiquidationThreshold;
        ==
          hf * borrowed;
        <
          LiquidationThreshold / MaxLtv * borrowed;
        <=
          LiquidationThreshold / MaxLtv * (collateral * MaxLtv);
        ==
          collateral * LiquidationThreshold;
        }
      }
    }
  }

  /** For a fixed positive collateral, more debt means a lower health factor. */
  lemma HealthDecreasesWithDebt(collateral: real, b1: real, b2: real)
    requires collateral > 0.0 && 0.0 < b1 < b2
    ensures HealthFactor(collateral, b1) > HealthFactor(collateral, b2)
  {
  }

  /** For a fixed debt, more collateral means a higher health factor. */
  lemma HealthIncreasesWithCollateral(c1: real, c2: real, borrowed: real)
    requires c1 < c2 && borrowed > 0.0
    ensures HealthFactor(c1, borrowed) < HealthFactor(c2, borrowed)
  {
  }

  /** The sentinel breaks the decrease at zero debt: a small debt on ample
      collateral shows a higher figure than no debt at all. */
  lemma SentinelBelowSmallDebt()
    ensures HealthFactor(1000.0, 0.0) < HealthFactor(1000.0, 0.1)
  {
  }

  /** A health factor of exactly 999 is displayed as infinity even when there
      is debt. */
  lemma SentinelReachedWithDebt()
    ensures HealthFactor(1248.75, 1.0) == NoDebtSentinel
    ensures HealthPanel.ShowsInfinity(HealthFactor(1248.75, 1.0))
  {
  }

  /** With debt, the panel's safety buffer is positive exactly when the health
      factor is above 1, the panel's stated safety line. */
  lemma BufferPositiveIffHealthAboveOne(collateral: real, borrowed: real)
    requires borrowed > 0.0
    ensures HealthPanel.BufferLooksSafe(collateral, borrowed) <==> HealthFactor(collateral, borrowed) > 1.0
  {
  }

  /** The health factor once `amount` more is borrowed: the page's formula,
      with the 0.8 threshold, over the whole new debt. Any positive borrow on
      top of an existing debt lowers it. */
  function HealthAfterBorrow(collateral: real, borrowed: real, amount: real): (hf: real)
    ensures borrowed + amount != 0.0 ==> hf * (borrowed + amount) == collateral * LiquidationThreshold
    ensures collateral > 0.0 && borrowed > 0.0 && amount > 0.0 ==> hf < HealthFactor(collateral, borrowed)
  {
    var after := HealthFactor(collateral, borrowed + amount);
    if collateral > 0.0 && borrowed > 0.0 && amount > 0.0 then
      HealthDecreasesWithDebt(collateral, borrowed, borrowed + amount);
      after
    else
      after
  }

  /** A borrow the dialog lets through (positive, within the cap the page
      hands it) keeps the position within 75% and its health factor at least
      0.8 / 0.75. */
  lemma BorrowWithinCapacityKeepsHealth(collateral: real, borrowed: real, amount: real)
    requires WithinLtv(collateral, borrowed)
    requires 0.0 < amount <= BorrowCapacity(collateral, borrowed)
    ensures WithinLtv(collateral, borrowed + amount)
    ensures HealthAfterBorrow(collateral, borrowed, amount) >= LiquidationThreshold / MaxLtv
  {
    HealthFloorWithinLtv(collateral, borrowed + amount);
  }

  /** The borrow dialog's estimate against the page's figure: borrowing the
      full 750 cap on 1000 of collateral, the estimate reads 1.33 (Risky) while
      the page will show 800 / 750 (Liquidation Risk). */
  lemma EstimateOverstatesHealth()
    ensures BorrowCapacity(1000.0, 0.0) == 750.0
    ensures Borrowing.EstimatedHealthFactor(750.0, 750.0) == Borrowing.Finite(1.33)
    ensures Status(1.33) == Risky
    ensures HealthAfterBorrow(1000.0, 0.0, 750.0) < 1.1
    ensures Status(HealthAfterBorrow(1000.0, 0.0, 750.0)) == LiquidationRisk
  {
  }

  /** The health factor once `repay` is paid back, with the page's clamp at
      zero: the sentinel once nothing remains, otherwise the page's formula
      over the remaining debt. */
  function HealthAfterRepay(collateral: real, borrowed: real, repay: real): (hf: real)
    ensures borrowed - repay <= 0.0 ==> hf == NoDebtSentinel
    ensures borrowed - repay > 0.0 ==> hf * (borrowed - repay) == collateral * LiquidationThreshold
  {
    HealthFactor(collateral, Max(0.0, borrowed - repay))
  }

  /** Repaying never moves the position into a riskier tier. */
  lemma RepayNeverLowersTier(collateral: real, borrowed: real, repay: real)
    requires collateral >= 0.0 && borrowed >= 0.0 && repay >= 0.0
    ensures Rank(Status(HealthAfterRepay(collateral, borrowed, repay)))
            >= Rank(Status(HealthFactor(collateral, borrowed)))
  {
    var left := Max(0.0, borrowed - repay);
    if left != 0.0 && left < borrowed {
      if collateral > 0.0 {
        HealthDecreasesWithDebt(collateral, left, borrowed);
      }
      StatusMonotone(HealthFactor(collateral, borrowed), HealthFactor(collateral, left));
    }
  }

  /** The repay dialog's estimate against the page's figure: paying back 1 of
      750 on 1000 of collateral, the estimate reads about 1.33 (Risky) while
      the page will show 800 / 749 (Liquidation Risk). */
  lemma RepayEstimateUnderstatesRisk()
    ensures Status(Repayment.NewHealthFactor(750.0, 1.0)) == Risky
    ensures Status(HealthAfterRepay(1000.0, 750.0, 1.0)) == LiquidationRisk
  {
  }

  /** The page's position. */
  class Position {
    var collateral: real
    var borrowed: real

    constructor ()
      ensures collateral == 0.0 && borrowed == 0.0
      ensures Valid()
    {
      collateral := 0.0;
      borrowed := 0.0;
    }

    ghost predicate Valid()
      reads this
    {
      WithinLtv(collateral, borrowed)
    }

    function Health(): real
      reads this
    {
      HealthFactor(collateral, borrowed)
    }

    function Capacity(): real
      reads this
    {
      BorrowCapacity(collateral, borrowed)
    }

    /** The "Borrow Assets" button, disabled while there is no collateral.
        In a reachable position that hides nothing: there is then no debt and
        the cap is zero, so no positive amount would fit under it. */
    function CanOpenBorrow(): (enabled: bool)
      reads this
      ensures collateral == 0.0 ==> !enabled
      ensures Valid() ==> (enabled <==> Capacity() > 0.0 || borrowed > 0.0)
      ensures Valid() && !enabled ==> borrowed == 0.0 && Capacity() == 0.0
    {
      collateral != 0.0
    }

    /** The "Repay Loan" button, disabled while there is no debt. That hides
        nothing either: with no debt, no repayment would change the health
        factor. */
    function CanOpenRepay(): (enabled: bool)
      reads this
      ensures borrowed == 0.0 ==> !enabled
      ensures Valid() ==> (enabled <==> borrowed > 0.0)
      ensures !enabled ==> forall r :: r >= 0.0 ==> HealthAfterRepay(collateral, borrowed, r) == Health()
    {
      borrowed != 0.0
    }

    /** The deposit handler: adds the USD amount to the collateral. */
    method Deposit(amount: real)
      modifies this
      ensures collateral == old(collateral) + amount && borrowed == old(borrowed)
      ensures old(Valid()) && amount >= 0.0 ==> Valid()
    {
      collateral := collateral + amount;
    }

    /** The borrow handler: adds the amount to the debt. */
    method Borrow(amount: real)
      modifies this
      ensures borrowed == old(borrowed) + amount && collateral == old(collateral)
      ensures old(Valid()) && 0.0 <= amount <= old(Capacity()) ==> Valid()
    {
      borrowed := borrowed + amount;
    }

    /** The repay handler: takes the amount off the debt, stopping at zero. */
    method Repay(amount: real)
      modifies this
      ensures borrowed == Max(0.0, old(borrowed) - amount) && collateral == old(collateral)
      ensures borrowed >= 0.0
      ensures amount >= 0.0 && old(borrowed) >= 0.0 ==> borrowed <= old(borrowed)
      ensures old(Valid()) && amount >= 0.0 ==> Valid()
    {
      borrowed := Max(0.0, borrowed - amount);
    }

    /** The deposit dialog's button, wired to the deposit handler. */
    method DepositFrom(form: Collateral.DepositForm)
      modifies this
      ensures borrowed == old(borrowed)
      ensures collateral == old(collateral)
              + (if form.amount > 0.0 then Collateral.UsdValue(form.amount, form.asset) else 0.0)
      ensures form.amount > 0.0 ==> collateral > old(collateral)
      ensures old(Valid()) ==> Valid()
    {
      var fired, usd := form.Submit();
      if fired {
        Deposit(usd);
      }
    }

    /** The borrow dialog's button, wired to the borrow handler. When the
        dialog was opened with this position's cap and its button is enabled,
        the position stays within 75% and the health factor at least 0.8 / 0.75. */
    method BorrowFrom(form: Borrowing.BorrowForm)
      modifies this
      ensures collateral == old(collateral)
      ensures borrowed == old(borrowed) + (if form.amount > 0.0 then form.amount else 0.0)
      ensures form.amount > 0.0 ==> Health() == HealthAfterBorrow(old(collateral), old(borrowed), form.amount)
      ensures old(Valid()) && form.maxBorrow == old(Capacity()) && form.Enabled()
              ==> Valid() && Health() >= LiquidationThreshold / MaxLtv
    {
      var fired, amount := form.Submit();
      if fired {
        Borrow(amount);
      }
      if WithinLtv(collateral, borrowed) {
        HealthFloorWithinLtv(collateral, borrowed);
      }
    }

    /** The repay dialog's button, wired to the repay handler. Repaying never
        moves the position into a riskier tier. */
    method RepayFrom(form: Repayment.RepayForm)
      modifies this
      ensures collateral == old(collateral)
      ensures borrowed == (if form.repayAmount > 0.0 then Max(0.0, old(borrowed) - form.repayAmount) else old(borrowed))
      ensures form.repayAmount > 0.0 ==> Health() == HealthAfterRepay(old(collateral), old(borrowed), form.repayAmount)
      ensures old(Valid()) ==> Valid() && Rank(Status(Health())) >= Rank(Status(old(Health())))
    {
      var fired, amount := form.Submit();
      if fired {
        if WithinLtv(collateral, borrowed) {
          RepayNeverLowersTier(collateral, borrowed, amount);
        }
        Repay(amount);
      }
    }
  }
}
