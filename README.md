# Bond yield calculators

`analize.py` compares two ways of holding a coupon bond to redemption. Both
buy `count` units at the clean price plus accrued interest (ACI), with a
broker commission on top, and pay a flat tax on coupons and on any
redemption gain.

- **Fixed calculation** (`fixed_calculation`). Every coupon is kept as cash.
- **Progressive calculation** (`progressive_calculation`). Every coupon but
  the last buys whole extra units at the clean price plus commission. Cash
  that cannot buy a unit is carried forward. The original lot and the extra
  lot are redeemed and taxed separately, and the last coupon and the
  leftover cash are added.

Each calculator reports a `CalculationResult`:
- the outlay;
- the total income;
- the profitability, annualised over the whole days left until the last
  coupon.

The model has four modules:

- `Bonds` (`bonds.dfy`) holds what both calculators share:
  - the records `Coupon`, `Bond`, `Terms` and `CalculationResult`;
  - the purchase cost with commission (`PurchaseWithCommission`), the
    flat tax (`AfterTax`) and the capital-gains tax on one lot (`GainTax`,
    `NetRedemption`);
  - the common tail, `Yield`: the profitability and its annualisation,
    together with the exceptions the code raises there;
  - `AddCommission`, `DeductTax` and `Redeem`, the groups of statements
    both functions repeat. Each is proved equal to its function and states
    the closed form and bounds of what it computes.
- `FixedYield` (`fixed.dfy`) has:
  - the specification function `Fixed`;
  - the method `FixedCalculation`, whose `while` loop accumulates the coupon
    income and which is proved to return `Fixed`.
- `ProgressiveYield` (`progressive.dfy`) has:
  - the reinvestment loop as a fold, built from `Reinvest` and
    `ReinvestStep`;
  - the income after the loop, `Redemption`;
  - the specification function `Progressive`;
  - the method `ProgressiveCalculation`, proved to return `Progressive`. It
    runs the reinvestment loop `ReinvestCoupons` (a `while` loop over
    `extraBonds`, `leftover` and `extraBondsCost`, whose body is
    `ReinvestCoupon`) and then `FinalIncome`, the statements after the loop
    (lines 74-94). What those statements promise is stated about
    `Redemption` by `LotsTaxedApart`.
- `Comparison` (`compare.dfy`) relates the two calculators. It also states
  and proves both calculators' results on the bond the program is
  configured with.

## Modelling choices

- **Money.** Money is an exact `real`. The floor division at line 65 is
  `.Floor` of the real quotient.
- **Globals.** The module globals (lines 8-20) become parameters: a `Bond`,
  `Terms` (commission and tax rate, in percent) and `count`.
- **Time.** The clock read `datetime.today()` becomes a parameter `now`.
  Coupon dates are day numbers (a coupon is paid at midnight), and `now` is
  a real number of days on the same scale. `DaysTillRepayment` is the floor
  of the difference, which is what `.days` of a `timedelta` gives.
- **Errors.** Errors follow the code. A `ZeroDivisionError` becomes
  `DivisionByZero`. This happens:
  - for a zero outlay (lines 42 and 95);
  - for zero whole days left (lines 44 and 97);
  - for a zero clean price as soon as the reinvestment loop runs (line 65).

  Reading the last coupon of an empty schedule (lines 43 and 74) becomes
  `NoCoupons`. The order of these checks is the order of the source lines.
  A negative number of days is not an error in the code, and it is not one
  here: the annualised profitability just changes sign. The code does not
  check the unit count either, so a zero or negative count gives a result
  as it does in the code.
- **Sample data.** On the configured sample bond, the exact outlay is
  75158.802, the fixed income 84108.9 and the progressive income
  84698.0389614, with 592 days left from 2022-01-01.

## Observations

These follow from the code as written and are proved in the model.

- **The leftover can be negative.** The units bought are the floor of the
  cash over the clean price, and the commission is added afterwards, so the
  leftover can drop below zero (`LeftoverCanBeNegative`).
- **The leftover bound is guaranteed only for non-negative cash.** After a
  step from investable cash that is not negative, the leftover is below one
  clean price. From negative cash the floor is negative, so the step
  "sells" units back. The leftover can then exceed the price, even when
  every coupon is positive: coupons of 100 and then 0.4 at a price of 100
  and 1% commission leave 100.8 (`LeftoverCanExceedPrice`).
- **Reinvesting can lose.** Reinvesting is not always at least as good as
  keeping the coupons: a unit bought above its face value returns less than
  the coupon it cost (`ReinvestmentCanLose`).

## Model

| member | source | states |
|---|---|---|
| Bonds.PurchaseFormula | analize.py:26-28 | the outlay is (price + ACI) × count × (1 + commission/100), and a non-negative commission never lowers a positive purchase sum |
| Bonds.AddCommission | analize.py:26-28 | the total is cost × (1 + commission/100), and a non-negative commission never makes a non-negative cost cheaper |
| Bonds.AfterTaxBounds | analize.py:32-40 | coupon income after tax is income × (100 − tax)/100, between 0 and the income for a tax rate in [0, 100] |
| Bonds.DeductTax | analize.py:61-63 | what remains is income × (100 − tax)/100, between nothing and the whole income at a rate in [0, 100] |
| Bonds.GainTaxBounds | analize.py:33-37 | the redemption tax is 0 without a gain, tax/100 of the gain otherwise, never negative at a non-negative rate, at most the gain at a rate up to 100 |
| Bonds.NetRedemptionBounds | analize.py:33-39 | the net redemption is at most the face value and at least the smaller of the face value and the cost |
| Bonds.Redeem | analize.py:78-82 | without a gain the whole repayment is kept; at a non-negative rate the net is at most the repayment, and at a rate up to 100 at least the smaller of the repayment and the cost |
| Bonds.SeparateLotsNeverTaxLess | analize.py:78-92 | taxing two lots apart never costs less tax than one netted lot, and costs more when one gains and the other loses at a positive rate |
| Bonds.SeparateLotsNeverRedeemMore | analize.py:78-92 | redeeming two lots apart never brings in more than redeeming them as one lot, and brings in less when one gains and the other loses at a positive rate |
| Bonds.DaysTillRepayment | analize.py:43 | the whole days left are the floor of the time until the last coupon |
| Bonds.ProfitabilityMeaning | analize.py:42 | purchase × (100 + profitability) recovers income × 100; the profitability is positive exactly when the income exceeds a positive outlay |
| Bonds.AnnualisedMeaning | analize.py:44 | multiplying the annualised rate by the days gives back rate × 365; over positive days it keeps its sign |
| Bonds.Yield | analize.py:42-50 | it fails exactly on a zero outlay, an empty schedule or zero days left; the error is NoCoupons only when the outlay is non-zero and the schedule is empty; a success reports the outlay and the income |
| Bonds.YieldMeaning | analize.py:42-44 | a success satisfies purchase × (36500 + annual rate × days) = income × 36500, and its rate is positive exactly when the income exceeds a positive outlay |
| FixedYield.FixedCalculation | analize.py:25-50 | the method, with its coupon-accumulating loop, returns the fixed specification `Fixed` |
| FixedYield.CouponIncomeIsCountTimesSum | analize.py:29-31 | the accumulated coupon income is count × the sum of the per-unit coupon amounts |
| FixedYield.FixedIncomeClosedForm | analize.py:29-41 | the fixed income is the net redemption plus count × coupon sum less tax/100 of that |
| FixedYield.GainTaxScales | analize.py:33-37 | the gain tax scales linearly with the size of the lot |
| FixedYield.ProfitabilityScaleFree | analize.py:42 | scaling income and outlay by the same positive factor leaves the profitability unchanged |
| FixedYield.PurchaseDoubles | analize.py:26-28 | doubling the count doubles the outlay |
| FixedYield.CouponIncomeDoubles | analize.py:29-31 | doubling the count doubles the coupon income before tax |
| FixedYield.FixedIncomeDoubles | analize.py:26-41 | doubling the count doubles the total income |
| FixedYield.YieldDoubles | analize.py:42-44 | doubling the outlay and the income changes neither success nor the annualised profitability |
| FixedYield.FixedDoubles | analize.py:25-50 | doubling the count changes neither whether the fixed calculation succeeds nor its annualised profitability |
| ProgressiveYield.ProgressiveCalculation | analize.py:52-103 | the method returns the progressive specification `Progressive`, with its error cases |
| ProgressiveYield.ReinvestCoupons | analize.py:57-72 | the loop fails with a division by zero exactly when there is a coupon to reinvest at a zero clean price, and otherwise ends in the fold `Reinvest` |
| ProgressiveYield.ReinvestCoupon | analize.py:61-72 | one pass conserves cash (new leftover plus the cost of the new units equals the taxed coupon plus the old leftover, the cost being n × price × (1 + commission/100)); at a positive price the units bought are the largest number whose clean cost fits the cash; from non-negative cash at a non-negative commission no unit is sold and the leftover is below the price |
| ProgressiveYield.NewBondsIsFloor | analize.py:65 | at a positive price, n units fit the cash and n + 1 do not |
| ProgressiveYield.NewBondsGreatest | analize.py:65 | no larger number of units fits the cash |
| ProgressiveYield.NewBondsNonNegative | analize.py:65 | non-negative cash buys a non-negative number of units |
| ProgressiveYield.NewBondsExact | analize.py:65 | cash that is exactly k clean prices buys exactly k units |
| ProgressiveYield.NewBondsOfDebt | analize.py:65 | a negative cash of at most one price buys minus one unit |
| ProgressiveYield.StepConservesCash | analize.py:65-72 | in one step the new leftover plus the cost of the new units equals the taxed coupon plus the old leftover; the cost is n × price × (1 + commission/100) and is added to the extra cost |
| ProgressiveYield.StepLeftoverBounds | analize.py:65-70 | with non-negative investable cash, a positive price and a non-negative commission, the step buys no negative units and the leftover is below the price and not below minus the commission on the cash |
| ProgressiveYield.ReinvestConservesCash | analize.py:57-72 | over the whole loop, the extra cost plus the leftover equals all the reinvested coupons paid after tax |
| ProgressiveYield.LotsTaxedApart | analize.py:78-94 | the original and extra lots are taxed apart: never more income than one netted lot, and strictly less when one gains, the other loses and the rate is positive |
| ProgressiveYield.LeftoverCanBeNegative | analize.py:65-70 | a coupon of 100 at a price of 100 and 1% commission leaves a leftover of -1 |
| ProgressiveYield.LeftoverCanExceedPrice | analize.py:61-72 | from that state, a coupon of 0.4 on the two units leaves cash of −0.2, which sells the unit back and leaves 100.8, above the price |
| Comparison.SamePurchase | analize.py:26-28 | both calculators charge the same outlay; they succeed on the same inputs except that the progressive one also fails at a zero price with a coupon to reinvest |
| Comparison.SingleCouponMatchesFixed | analize.py:60-94 | with one coupon nothing is reinvested and the progressive result equals the fixed one |
| Comparison.DearFixed | analize.py:29-41 | kept as cash, its income is 300 |
| Comparison.ReinvestmentCanLose | analize.py:57-94 | a bond bought at twice its face value whose first coupon buys exactly one unit: reinvested, its income (200) is below the fixed income (300) |
| Comparison.SampleFixed | analize.py:9-20 | the configured bond, fixed: outlay 75158.802, income 84108.9, between 7.34% and 7.35% a year |
| Comparison.SampleReinvestment | analize.py:57-72 | on the configured bond, the loop buys 2, 2 and 3 extra units and ends with a leftover of 237.32422 and an extra cost of 6776.52878 |
| Comparison.SampleProgressive | analize.py:52-103 | the configured bond, progressive: outlay 75158.802, income 84698.0389614, between 7.82% and 7.83% a year |

## Left out

- `report` and `strfloat` (analize.py:22-23, 105-128) are not modelled. They print and format with the locale.
- The command-line and locale setup are not modelled. This is the argument parsing and the main block.
- The clock read is not modelled: `datetime.today()` becomes the parameter `now`, a real day number.
- Calendar dates are not modelled: coupon dates are their day numbers.
- Floating-point rounding is not modelled: money is an exact real, so Python's float drift and float floor division are not reproduced.
- Module-global configuration is not modelled: the globals are parameters, and the sample values appear only in the `Comparison` examples.
- Integer width is not modelled: Python integers are unbounded, as Dafny's `int` is, so nothing wraps.
- StepLeftoverBounds: the "leftover below the price" bound is stated only for non-negative investable cash. With negative cash it does not hold, as `LeftoverCanExceedPrice` shows.
