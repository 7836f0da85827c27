# BorrowX lending dashboard: position arithmetic and dialog state

BorrowX is a client-side mock-up of a collateralised lending dashboard. This
project models the part that computes: the position a user holds (total
collateral and total debt, in USD), the figures derived from it (health
factor, risk tier, amount available to borrow, liquidation price, safety
buffer, interest), and the amount-entry state of the three dialogs
(deposit collateral, borrow, repay) through which the position changes.

Layout, one module per source file:

- `common.dfy` (`Common`): the no-debt sentinel 999, the four risk tiers, and
  the slider / typed-entry / slider-resync arithmetic the three dialogs repeat.
- `health_panel.dfy` (`HealthPanel`): `src/components/HealthFactor.tsx`, a
  stateless panel; all of it is functions and lemmas.
- `repayment.dfy` (`Repayment`): `src/components/RepaymentTracker.tsx`;
  interest, the position list, the estimate after a repayment as functions;
  the repay dialog's `repayAmount`/`slider` state as class `RepayForm`.
- `borrowing.dfy` (`Borrowing`): `src/components/BorrowInterface.tsx`; rates,
  interest and the estimate as functions; the dialog as class `BorrowForm`.
- `collateral.dfy` (`Collateral`): `src/components/CollateralDeposit.tsx`;
  prices and USD value as functions; the dialog as class `DepositForm`.
- `dashboard.dfy` (`Dashboard`): `src/pages/Index.tsx`; the health factor,
  tiers and available-to-borrow as functions, the position as class
  `Position` whose `Deposit`/`Borrow`/`Repay` methods are the page's three
  handlers, and `DepositFrom`/`BorrowFrom`/`RepayFrom`, which wire each
  dialog's button to its handler. The lemmas that relate one file's figures
  to another's live here.

Modelling choices:

- Amounts are Dafny `real`. JavaScript numbers are doubles; rounding is not modelled.
- `parseFloat(text) || 0` is `OrZero` over `Parsed = Number(v) | NotANumber`.
- A slider position is `At(percent)`, or `NonFinite` where the source divides
  by a zero cap when resynchronising the slider after typed input.
- `Position.Valid()` is the invariant of states the page's own controls
  reach: nothing negative and debt at most 75% of collateral. Every handler
  keeps it when called as its dialog calls it.
- The health factor without debt is the finite sentinel 999, so a small
  debt on ample collateral scores above no debt at all
  (`Dashboard.SentinelBelowSmallDebt`). The health factor decreases with the
  debt only over positive debts, and only on positive collateral: with no
  collateral it is 0 for every positive debt
  (`Dashboard.HealthDecreasesWithDebt`).
- No handler checks its input. A negative typed amount is kept by every
  dialog, and only the `amount > 0` guards of the submit handlers stop it.
- The interest on the whole debt is a flat 5.2% a year, shown as 7 days'
  worth (`Repayment.AccruedInterest`). Each position row computes its own
  interest as amount x APY / 100 / 365 x days active
  (`Repayment.PositionInterest`).

## Model

| member | source | states |
|---|---|---|
| `Dashboard.HealthFactor` | src/pages/Index.tsx:32-35 | exactly 999 when nothing is borrowed; otherwise the value whose product with the debt is 80% of the collateral |
| `Dashboard.Status` | src/pages/Index.tsx:41-46 | the tier returned is the one whose band holds the health factor: above 2 Healthy, above 1.5 Moderate, above 1.1 Risky, otherwise Liquidation Risk |
| `Dashboard.StatusBoundaries` | src/pages/Index.tsx:41-46 | 2, 1.5 and 1.1 each fall in the tier below (Moderate, Risky, Liquidation Risk); 2.01 is Healthy, 1.51 Moderate, 1.11 Risky; the sentinel 999 is Healthy |
| `Dashboard.StatusMonotone` | src/pages/Index.tsx:41-46 | a higher health factor never falls in a riskier tier |
| `Dashboard.StatusAgreesWithPanel` | src/components/HealthFactor.tsx:15-44 | the panel's own tier chain agrees with the page's on every health factor |
| `Dashboard.AvailableToBorrow` | src/pages/Index.tsx:116 | never negative, at least 75% of collateral less debt, equal to one of the two, and 0 whenever debt is at least 75% of collateral |
| `Dashboard.BorrowCapacity` | src/pages/Index.tsx:210 | the cap plus the debt is 75% of the collateral; for non-negative figures the cap is non-negative exactly when the debt is within 75% of the collateral |
| `Dashboard.CapacityMatchesAvailable` | src/pages/Index.tsx:210 | the unclamped cap handed to the borrow dialog equals the displayed available figure exactly when the cap is not negative |
| `Dashboard.PreviewMatchesAvailable` | src/components/CollateralDeposit.tsx:190 | the deposit dialog's 75% preview equals the page's available-to-borrow for that deposit on a debt-free position |
| `Dashboard.ShowsWarning` | src/pages/Index.tsx:74 | the banner appears exactly in the Risky and Liquidation Risk tiers except at 1.5 itself, so always in Liquidation Risk |
| `Dashboard.WarningMatchesPanelAlert` | src/pages/Index.tsx:74 | the page's banner (below 1.5) and the panel's alert (below 1.5 and not 999) appear for exactly the same health factors |
| `Dashboard.HealthFloorWithinLtv` | src/pages/Index.tsx:32-35 | with debt at most 75% of collateral the health factor is at least 0.8 / 0.75 |
| `Dashboard.HealthDecreasesWithDebt` | src/pages/Index.tsx:34 | for positive collateral and positive debts, more debt gives a strictly lower health factor |
| `Dashboard.HealthIncreasesWithCollateral` | src/pages/Index.tsx:34 | for positive debt, more collateral gives a strictly higher health factor |
| `Dashboard.SentinelBelowSmallDebt` | src/pages/Index.tsx:33-34 | the sentinel breaks monotonicity at zero debt: 1000 of collateral with 0.1 of debt scores above 999 |
| `Dashboard.SentinelReachedWithDebt` | src/components/HealthFactor.tsx:67 | a position with debt (1248.75 collateral, 1 debt) has health factor exactly 999 and is shown as infinity |
| `Dashboard.BufferPositiveIffHealthAboveOne` | src/components/HealthFactor.tsx:52-53 | with debt, the safety buffer is positive exactly when the page's health factor exceeds 1, the panel's stated safety line (lines 135-137) |
| `Dashboard.HealthAfterBorrow` | src/pages/Index.tsx:32-35 | the page's health factor after the borrow: with debt, its product with the new total debt is 80% of the collateral; on an existing debt any positive borrow lowers it |
| `Dashboard.BorrowWithinCapacityKeepsHealth` | src/components/BorrowInterface.tsx:252 | a borrow of 0 < amount <= the cap the page passes (Index.tsx:210) keeps debt within 75% of collateral and the resulting health factor at least 0.8 / 0.75 |
| `Dashboard.EstimateOverstatesHealth` | src/components/BorrowInterface.tsx:219 | borrowing the full 750 cap on 1000 of collateral, the dialog estimates 1.33 (Risky) while the page then shows 800/750 (Liquidation Risk) |
| `Dashboard.HealthAfterRepay` | src/pages/Index.tsx:224-226 | the page's health factor after the repayment: the sentinel once nothing remains, otherwise the value whose product with the remaining debt is 80% of the collateral |
| `Dashboard.RepayNeverLowersTier` | src/pages/Index.tsx:224-226 | for non-negative collateral, debt and repayment, the tier after repaying (with the clamp at 0) is never riskier than before |
| `Dashboard.RepayEstimateUnderstatesRisk` | src/components/RepaymentTracker.tsx:63-65 | repaying 1 of 750 on 1000 of collateral, the dialog's estimate is Risky while the page then shows Liquidation Risk |
| `Dashboard.Position.constructor` | src/pages/Index.tsx:25-26 | the position starts at zero collateral and zero debt, which is a reachable state |
| `Dashboard.Position.CanOpenBorrow` | src/pages/Index.tsx:160 | disabled at zero collateral; in a reachable position, enabled exactly when there is a positive cap or a debt, and when disabled there is no debt and a zero cap, so it hides no borrow the dialog could make |
| `Dashboard.Position.CanOpenRepay` | src/pages/Index.tsx:168 | disabled at zero debt; in a reachable position, enabled exactly when there is debt; when disabled, no non-negative repayment would change the health factor |
| `Dashboard.Position.Deposit` | src/pages/Index.tsx:199-202 | collateral grows by exactly the amount, debt unchanged; a non-negative amount keeps the invariant |
| `Dashboard.Position.Borrow` | src/pages/Index.tsx:211-214 | debt grows by exactly the amount, collateral unchanged; an amount between 0 and the cap keeps the invariant |
| `Dashboard.Position.Repay` | src/pages/Index.tsx:224-227 | debt becomes max(0, debt - amount): never negative, never above the previous debt for a non-negative amount, collateral unchanged, invariant kept |
| `Dashboard.Position.DepositFrom` | src/components/CollateralDeposit.tsx:60-64 | the page receives the USD value, not the token count, and only for a positive amount; collateral then strictly grows; invariant kept |
| `Dashboard.Position.BorrowFrom` | src/components/BorrowInterface.tsx:60-64 | only a positive amount reaches the debt; opened with the page's cap and with the button enabled, the position stays within 75% and the health factor at least 0.8 / 0.75 |
| `Dashboard.Position.RepayFrom` | src/components/RepaymentTracker.tsx:57-61 | only a positive amount reaches the debt; the new health factor is the page's for the clamped remaining debt; invariant kept and the tier never gets riskier |
| `HealthPanel.Status` | src/components/HealthFactor.tsx:15-44 | the panel's tier is the one whose band holds the health factor, the same bands as the page's |
| `HealthPanel.BarColour` | src/components/HealthFactor.tsx:84-87 | the progress bar's own comparison chain always picks the colour of the tier's badge |
| `HealthPanel.ProgressValue` | src/components/HealthFactor.tsx:50 | always within [0, 100]; 100 from 3 upwards (so at the sentinel); 0 at or below 0; in between, proportional with 3 mapping to 100 |
| `HealthPanel.ProgressMonotone` | src/components/HealthFactor.tsx:50 | the bar's fill never decreases as the health factor rises |
| `HealthPanel.LiquidationPrice` | src/components/HealthFactor.tsx:52 | debt / 0.8 for positive debt, 0 otherwise; never negative and never below a non-negative debt |
| `HealthPanel.SafetyBuffer` | src/components/HealthFactor.tsx:53 | all of the collateral without debt; never more than the collateral; with debt, 0.8 times it is 80% of the collateral less the debt |
| `HealthPanel.BufferLooksSafe` | src/components/HealthFactor.tsx:112 | the buffer is shown in green without debt exactly when there is collateral, and with debt exactly when 80% of the collateral exceeds the debt |
| `HealthPanel.ShowsRiskAlert` | src/components/HealthFactor.tsx:119 | the alert appears exactly in the Risky and Liquidation Risk tiers except at 1.5 itself, so always in Liquidation Risk |
| `HealthPanel.CriticalWording` | src/components/HealthFactor.tsx:123-125 | the critical wording is used exactly in the Liquidation Risk tier except at 1.1 itself |
| `HealthPanel.ShowsInfinity` | src/components/HealthFactor.tsx:67 | exactly the value 999 is shown as infinity, and such a value is Healthy and fills the bar |
| `HealthPanel.AlertEdges` | src/components/HealthFactor.tsx:119-125 | at exactly 1.1 the tier is Liquidation Risk but the wording is the plain warning; at exactly 1.5 the tier is Risky but no alert shows |
| `Repayment.DailyInterest` | src/components/RepaymentTracker.tsx:31 | 365 days of it are 5.2% of the debt; not negative for a non-negative debt |
| `Repayment.AccruedInterest` | src/components/RepaymentTracker.tsx:32 | seven days of daily interest, between 0 and 0.1% of a non-negative debt |
| `Repayment.TotalOwed` | src/components/RepaymentTracker.tsx:33 | the debt plus the seven days of accrued interest: at least the debt and at most 0.1% above it for a non-negative debt; zero exactly when the debt is zero |
| `Repayment.KeepOpen` | src/components/RepaymentTracker.tsx:50 | keeps exactly the entries with a positive amount, never lengthens the list, keeps a list of all-positive entries unchanged, and maps a single entry to itself or to nothing |
| `Repayment.KeepOpenAppend` | src/components/RepaymentTracker.tsx:50 | filtering a concatenation is the concatenation of the filtered parts, so entries keep their order and their repetitions |
| `Repayment.Positions` | src/components/RepaymentTracker.tsx:35-50 | empty for a debt of 0 or less; otherwise a USDC entry then a DAI entry whose amounts add up to the debt in a 60:40 ratio |
| `Repayment.PositionInterest` | src/components/RepaymentTracker.tsx:139 | amount x APY% x days / 365; not negative for non-negative amount and APY |
| `Repayment.PositionInterestBelowAccrued` | src/components/RepaymentTracker.tsx:139 | for a positive debt, the two rows' interest adds up to less than the "Accrued Interest" card (line 32) |
| `Repayment.NewHealthFactor` | src/components/RepaymentTracker.tsx:63-65 | 999 without debt; otherwise the value whose product with max(1, debt - repay) is debt x 1.33, so positive and at most debt x 1.33 |
| `Repayment.NewHealthFactorMonotone` | src/components/RepaymentTracker.tsx:63-65 | repaying more never lowers the estimate |
| `Repayment.InterestForecast` | src/components/RepaymentTracker.tsx:284-303 | the 7-, 30- and 90-day figures are 7, 30 and 90 daily figures (the 7-day one is the accrued interest), the one-year figure (5.2% of the debt) is 365 daily figures, and the four rise in order for a non-negative debt |
| `Repayment.RepayForm.constructor` | src/components/RepaymentTracker.tsx:28-29 | repay amount 0 and slider 0 for the given debt |
| `Repayment.RepayForm.Slide` | src/components/RepaymentTracker.tsx:52-55 | the slider at p sets the amount to p% of the total owed; for p in [0, 100] and non-negative debt, 0 <= amount <= total owed |
| `Repayment.RepayForm.Enter` | src/components/RepaymentTracker.tsx:174-178 | typed amount is min(parsed-or-0, total owed): never above it, a negative entry kept; the slider follows unless the total is 0 |
| `Repayment.RepayForm.Pick` | src/components/RepaymentTracker.tsx:187-214 | 25%, 50% and all of the total owed, with the slider at 25, 50 and 100 |
| `Repayment.RepayForm.SubmitDisabled` | src/components/RepaymentTracker.tsx:261 | the button is disabled exactly at the amount the slider selects at 0; a negative amount leaves it enabled |
| `Repayment.RepayForm.Submit` | src/components/RepaymentTracker.tsx:57-61 | the amount is handed on exactly when it is positive, and then the button (disabled at 0, line 261) is enabled |
| `Borrowing.Apy` | src/components/BorrowInterface.tsx:12-40 | every asset's variable APY (5.2, 4.8, 5.5) is positive |
| `Borrowing.ShownApy` | src/components/BorrowInterface.tsx:205 | the variable APY for the variable type, the variable APY + 0.5 for the fixed type (also line 116) |
| `Borrowing.DailyInterest` | src/components/BorrowInterface.tsx:66 | 365 days of it are the variable APY on the amount, whichever rate type is chosen |
| `Borrowing.MonthlyInterest` | src/components/BorrowInterface.tsx:67 | 12 months of it are the variable APY on the amount |
| `Borrowing.MonthlyIsDailyTimesDaysPerMonth` | src/components/BorrowInterface.tsx:66-67 | twelve monthly figures equal 365 daily ones |
| `Borrowing.FixedRateNotCharged` | src/components/BorrowInterface.tsx:66-67 | with the fixed rate on 3650 USDC the dialog shows 5.7% but 0.52 a day, where 5.7% gives 0.57; on 1200 USDC it shows 5.2 a month, where 5.7% gives 5.7 |
| `Borrowing.DailyInterestAtShownRate` | src/components/BorrowInterface.tsx:205 | 365 days of it are the displayed APY on the amount; equal to the written figure under the variable type |
| `Borrowing.MonthlyInterestAtShownRate` | src/components/BorrowInterface.tsx:205 | 12 months of it are the displayed APY on the amount; equal to the written monthly figure under the variable type |
| `Borrowing.EstimatedHealthFactor` | src/components/BorrowInterface.tsx:219 | finite exactly for a positive amount, and then the value whose product with the amount is cap x 1.33 |
| `Borrowing.EstimateDecreasing` | src/components/BorrowInterface.tsx:219 | for a positive cap, a larger positive amount gives a strictly lower estimate |
| `Borrowing.BorrowForm.constructor` | src/components/BorrowInterface.tsx:50-53 | USDC, variable rate, amount 0 and slider 0, for the given cap |
| `Borrowing.BorrowForm.SelectAsset` | src/components/BorrowInterface.tsx:91 | changes only the asset |
| `Borrowing.BorrowForm.SelectRateType` | src/components/BorrowInterface.tsx:110 | changes only the rate type |
| `Borrowing.BorrowForm.Slide` | src/components/BorrowInterface.tsx:55-58 | the slider at p sets the amount to p% of the cap; for p in [0, 100] and a non-negative cap, 0 <= amount <= cap |
| `Borrowing.BorrowForm.Enter` | src/components/BorrowInterface.tsx:136-140 | typed amount is min(parsed-or-0, cap), never above the cap; the slider is resynced to amount / cap x 100, which has no finite value when the cap is 0 |
| `Borrowing.BorrowForm.Pick` | src/components/BorrowInterface.tsx:146-181 | 25%, 50% and 75% of the cap, slider at 25, 50 and 75; within [0, cap] for a non-negative cap |
| `Borrowing.BorrowForm.Enabled` | src/components/BorrowInterface.tsx:252 | the button is enabled exactly for a non-zero amount that a typed entry against the cap would keep unchanged |
| `Borrowing.BorrowForm.Submit` | src/components/BorrowInterface.tsx:60-64 | the amount is handed on exactly when positive; with the button enabled (line 252) it is then within (0, cap] |
| `Collateral.Price` | src/components/CollateralDeposit.tsx:11-39 | every asset's price (2400, 65000, 1) is at least 1 |
| `Collateral.UsdValue` | src/components/CollateralDeposit.tsx:53 | the amount's value at the asset's price: positive or zero exactly when the amount is |
| `Collateral.MaxBorrowPreview` | src/components/CollateralDeposit.tsx:190 | three quarters of the USD value; within [0, value] for a non-negative value |
| `Collateral.DepositForm.constructor` | src/components/CollateralDeposit.tsx:48-50 | ETH, amount 0, slider 0 |
| `Collateral.DepositForm.SelectAsset` | src/components/CollateralDeposit.tsx:88 | changes the asset only; the token amount is kept, so the USD value follows the new price and differs whenever the amount is not 0 and the asset is a different one |
| `Collateral.DepositForm.Slide` | src/components/CollateralDeposit.tsx:55-58 | the slider at p sets p% of the balance of 10; for p in [0, 100] the amount is in [0, 10] |
| `Collateral.DepositForm.Enter` | src/components/CollateralDeposit.tsx:119-123 | typed amount is min(parsed-or-0, 10), never above the balance, a negative entry kept; the slider always has a finite position |
| `Collateral.DepositForm.Pick` | src/components/CollateralDeposit.tsx:132-162 | 2.5, 5 and 10 tokens with the slider at 25, 50 and 100 |
| `Collateral.DepositForm.SubmitDisabled` | src/components/CollateralDeposit.tsx:208 | the button is disabled exactly when the deposit is worth nothing in USD; a negative amount leaves it enabled |
| `Collateral.DepositForm.Submit` | src/components/CollateralDeposit.tsx:60-64 | fires exactly for a positive amount (the button is disabled at 0, line 208), handing on a positive USD value |
| `Common.SliderAmount` | src/components/RepaymentTracker.tsx:54 | the amount the slider shows; in [0, cap] for p in [0, 100] and a non-negative cap; the cap itself at 100 (shared by BorrowInterface.tsx:57 and CollateralDeposit.tsx:57) |
| `Common.OrZero` | src/components/BorrowInterface.tsx:137 | a parsed number is kept as it is; the result is 0 exactly when the text is not a number or parses to 0 (shared by RepaymentTracker.tsx:175 and CollateralDeposit.tsx:120) |
| `Common.TypedAmount` | src/components/BorrowInterface.tsx:137 | never above the cap; the parsed number itself when not above the cap, the cap otherwise (shared by RepaymentTracker.tsx:175 and CollateralDeposit.tsx:120) |
| `Common.Resync` | src/components/BorrowInterface.tsx:139 | the slider shows the amount's share of the cap; it has no finite position exactly when the cap is 0 (shared by RepaymentTracker.tsx:177 and CollateralDeposit.tsx:122) |

## Findings

| source | as written | input that shows it | evidently intended | confidence | as-written member | corrected member |
|---|---|---|---|---|---|---|
| src/components/BorrowInterface.tsx:219 | estimated health factor is cap x 1.33 / amount, which leaves out the 0.8 liquidation threshold and the existing debt | collateral 1000, no debt, cap 750, amount 750: estimate 1.33 (Risky); the page then computes 800 / 750, about 1.07 (Liquidation Risk) | the health factor the page will compute after the borrow, collateral x 0.8 / (debt + amount) | medium, not executed | `Borrowing.EstimatedHealthFactor`, `Dashboard.EstimateOverstatesHealth` | `Dashboard.HealthAfterBorrow`, proved in `Dashboard.BorrowWithinCapacityKeepsHealth` and used by `Dashboard.Position.BorrowFrom` |
| src/components/RepaymentTracker.tsx:63-65 | new health factor is debt x 1.33 / max(1, debt - repay), which leaves out the collateral; a full repayment shows debt x 1.33 instead of infinity | collateral 1000, debt 750, repay 1: estimate about 1.33 (Risky); the page then computes 800 / 749, about 1.07 (Liquidation Risk) | the page's health factor for the remaining debt, collateral x 0.8 / max(0, debt - repay), the sentinel when nothing remains | medium, not executed | `Repayment.NewHealthFactor`, `Dashboard.RepayEstimateUnderstatesRisk` | `Dashboard.HealthAfterRepay`, proved in `Dashboard.RepayNeverLowersTier` and used by `Dashboard.Position.RepayFrom` |
| src/components/BorrowInterface.tsx:66-67 | daily and monthly interest use the variable APY even when the fixed rate, displayed half a point higher (line 205), is selected | 3650 USDC at the fixed rate: displayed rate 5.7%, daily interest 0.52 where 5.7% gives 0.57; 1200 USDC: monthly interest 5.2 where 5.7% gives 5.7 | interest at the displayed rate | medium, not executed | `Borrowing.DailyInterest`, `Borrowing.MonthlyInterest`, `Borrowing.FixedRateNotCharged` | `Borrowing.DailyInterestAtShownRate`, `Borrowing.MonthlyInterestAtShownRate` |

## Left out

- Presentation: JSX, class strings, icons, and the imported dialog, card, slider, select, badge, progress and alert components.
- Number formatting (`toFixed`, `toLocaleString`) and the infinity glyph, including the mis-encoded ones at src/pages/Index.tsx:130 and src/components/RepaymentTracker.tsx:247. Only the test `hf == 999` that selects the glyph is modelled (`HealthPanel.ShowsInfinity`).
- IEEE-754 arithmetic: amounts are exact reals, so no rounding, no `-0`, no overflow to infinity.
- `parseFloat` text handling (partial parses such as "12abc", "Infinity"): typed input is a number or not a number.
- React scheduling: the effect that copies the health factor into state (src/pages/Index.tsx:37-39) and its initial placeholder 2.5 (line 27). The health factor is a function of the current position.
- Modal open/close flags, the cancel buttons and the "Connect Wallet" button, which has no handler.
- The repay dialog's `healthFactor` prop, which no figure uses, and the `isModal` switch between the dialog and the forecast card.
- Display-only figures: the borrow assets' "available" amounts, the repay dialog's "Remaining Debt" (src/components/RepaymentTracker.tsx:242, total owed less the repay amount, which counts the accrued interest while the page's repay handler subtracts from the bare debt), each position row's days-active bar (daysActive / 30 x 100), and the collateral assets' LTV badges (`Collateral.LtvPercent` is defined but feeds no figure, as in the source).
- The slider's own range and step (0 to 100 in steps of 1) belong to the slider component. The `Slide` methods accept any percentage and state their bounds for p in [0, 100].
- A dialog's cap is fixed for as long as the dialog is open. Props changing while a dialog is open are not modelled.
- src/components/MarketOverviewDashboard.tsx and src/components/ValuePropositionCards.tsx: static mock data and copy.
