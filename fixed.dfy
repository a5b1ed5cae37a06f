/** The "fixed" calculator: every coupon is kept as cash until redemption. */
module FixedYield {
  import opened Bonds

  /** Per-unit coupon amounts of the schedule, summed. */
  function AmountSum(coupons: seq<Coupon>): real
  {
    if coupons == [] then 0.0 else coupons[0].amount + AmountSum(coupons[1..])
  }

  /** Coupon income of `count` units, accumulated coupon by coupon in payment
      order (the running total of the accumulation loop). */
  function CouponIncome(coupons: seq<Coupon>, count: int): real
  {
    if coupons == [] then 0.0
    else CouponIncome(coupons[..|coupons| - 1], count) + Last(coupons).amount * count as real
  }

  lemma {:induction false} AmountSumAppend(coupons: seq<Coupon>, c: Coupon)
    ensures AmountSum(coupons + [c]) == AmountSum(coupons) + c.amount
  {
    if coupons == [] {
      assert (coupons + [c])[1..] == [];
    } else {
      assert (coupons + [c])[1..] == coupons[1..] + [c];
      AmountSumAppend(coupons[1..], c);
    }
  }

  /** The accumulated coupon income is the unit count times the sum of the
      per-unit coupon amounts. */
  lemma {:induction false} CouponIncomeIsCountTimesSum(coupons: seq<Coupon>, count: int)
    ensures CouponIncome(coupons, count) == count as real * AmountSum(coupons)
  {
    if coupons != [] {
      var init := coupons[..|coupons| - 1];
      CouponIncomeIsCountTimesSum(init, count);
      assert coupons == init + [Last(coupons)];
      AmountSumAppend(init, Last(coupons));
    }
  }

  /** Total cash received by redemption: the redeemed face value less the tax
      on any gain over the purchase cost, plus the coupon income after tax. */
  function FixedIncome(bond: Bond, terms: Terms, count: int): real
  {
    Settlement(bond.denomination * count as real, PurchaseWithCommission(bond, terms, count),
               CouponIncome(bond.coupons, count), terms.tax)
  }

  /** A lot redeemed for `repayment` after costing `purchase`, together with
      `couponIncome` of coupons, all taxed. */
  function Settlement(repayment: real, purchase: real, couponIncome: real, rate: real): real
  {
    NetRedemption(repayment, purchase, rate) + AfterTax(couponIncome, rate)
  }

  /** The result of the fixed calculation at the moment `now`. */
  function Fixed(bond: Bond, terms: Terms, count: int, now: real): Result<CalculationResult>
  {
    Yield(PurchaseWithCommission(bond, terms, count), FixedIncome(bond, terms, count), bond.coupons, now)
  }

  /** The fixed calculation step by step: the coupon income is accumulated by
      a loop over the schedule, the rest is straight-line arithmetic, ending
      in the profitability computation both calculators share. */
  method FixedCalculation(bond: Bond, terms: Terms, count: int, now: real)
    returns (r: Result<CalculationResult>)
    ensures r == Fixed(bond, terms, count, now)
  {
    var purchaseSum := (bond.price + bond.aci) * count as real;
    var purchaseWithCommission := AddCommission(purchaseSum, terms.commission);
    var couponIncome := 0.0;
    var i := 0;
    while i < |bond.coupons|
      invariant 0 <= i <= |bond.coupons|
      invariant couponIncome == CouponIncome(bond.coupons[..i], count)
    {
      assert bond.coupons[..i + 1][..i] == bond.coupons[..i];
      couponIncome := couponIncome + bond.coupons[i].amount * count as real;
      i := i + 1;
    }
    assert bond.coupons[..i] == bond.coupons;
    var netCoupons := DeductTax(couponIncome, terms.tax);
    var repayment := Redeem(bond.denomination * count as real, purchaseWithCommission, terms.tax);
    var finalIncome := repayment + netCoupons;
    assert purchaseWithCommission == PurchaseWithCommission(bond, terms, count);
    assert finalIncome == FixedIncome(bond, terms, count);
    r := Yield(purchaseWithCommission, finalIncome, bond.coupons, now);
  }

  /** The fixed income in closed form: the coupon tax is `tax` percent of the
      unit count times the summed coupon amounts. */
  lemma {:induction false} FixedIncomeClosedForm(bond: Bond, terms: Terms, count: int)
    ensures var n := count as real;
            var coupons := n * AmountSum(bond.coupons);
            FixedIncome(bond, terms, count) ==
              NetRedemption(bond.denomination * n, PurchaseWithCommission(bond, terms, count), terms.tax)
              + coupons - coupons * terms.tax / 100.0
  {
    CouponIncomeIsCountTimesSum(bond.coupons, count);
  }

  /** The capital-gains tax scales with the size of the lot. */
  lemma GainTaxScales(proceeds: real, cost: real, rate: real, k: real)
    requires k > 0.0
    ensures GainTax(k * proceeds, k * cost, rate) == k * GainTax(proceeds, cost, rate)
  {
    assert k * proceeds - k * cost == k * (proceeds - cost);
    if proceeds - cost > 0.0 {
      assert k * (proceeds - cost) > 0.0;
    } else {
      assert k * (proceeds - cost) <= 0.0;
    }
  }

  /** Scaling the income and the outlay by the same factor leaves the
      profitability unchanged. */
  lemma ProfitabilityScaleFree(income: real, purchase: real, k: real)
    requires k > 0.0 && purchase != 0.0
    ensures Profitability(k * income, k * purchase) == Profitability(income, purchase)
  {
    var q := income * 100.0 / purchase;
    assert q * purchase == income * 100.0;
    assert q * (k * purchase) == k * income * 100.0;
    assert k * income * 100.0 / (k * purchase) == q;
  }

  lemma SettlementDoubles(repayment: real, purchase: real, couponIncome: real, rate: real)
    ensures Settlement(2.0 * repayment, 2.0 * purchase, 2.0 * couponIncome, rate)
         == 2.0 * Settlement(repayment, purchase, couponIncome, rate)
  {
    GainTaxScales(repayment, purchase, rate, 2.0);
  }

  lemma PurchaseDoubles(bond: Bond, terms: Terms, count: int)
    ensures PurchaseWithCommission(bond, terms, 2 * count) == 2.0 * PurchaseWithCommission(bond, terms, count)
  {
    var unit, n := bond.price + bond.aci, count as real;
    assert unit * (2 * count) as real == 2.0 * (unit * n);
  }

  lemma {:induction false} CouponIncomeDoubles(coupons: seq<Coupon>, count: int)
    ensures CouponIncome(coupons, 2 * count) == 2.0 * CouponIncome(coupons, count)
  {
    CouponIncomeIsCountTimesSum(coupons, count);
    CouponIncomeIsCountTimesSum(coupons, 2 * count);
    var s := AmountSum(coupons);
    assert (2 * count) as real * s == 2.0 * (count as real * s);
  }

  /** The fixed income as the settlement of the lot. */
  lemma FixedIncomeParts(bond: Bond, terms: Terms, count: int)
    ensures FixedIncome(bond, terms, count)
         == Settlement(bond.denomination * count as real, PurchaseWithCommission(bond, terms, count),
                       CouponIncome(bond.coupons, count), terms.tax)
  {
  }

  lemma FaceValueDoubles(denomination: real, count: int)
    ensures denomination * (2 * count) as real == 2.0 * (denomination * count as real)
  {
  }

  /** Two settlements whose amounts are in the ratio two to one are in that
      ratio too. */
  lemma SettlementsDouble(f1: real, d1: real, p1: real, c1: real, f2: real, d2: real, p2: real, c2: real, rate: real)
    requires f1 == Settlement(d1, p1, c1, rate) && f2 == Settlement(d2, p2, c2, rate)
    requires d2 == 2.0 * d1 && p2 == 2.0 * p1 && c2 == 2.0 * c1
    ensures f2 == 2.0 * f1
  {
    SettlementDoubles(d1, p1, c1, rate);
  }

  /** Doubling the unit count doubles the total income, since it doubles the
      purchase cost, the coupon income before tax and the redeemed face
      value. */
  lemma FixedIncomeDoubles(bond: Bond, terms: Terms, count: int)
    ensures FixedIncome(bond, terms, 2 * count) == 2.0 * FixedIncome(bond, terms, count)
  {
    PurchaseDoubles(bond, terms, count);
    CouponIncomeDoubles(bond.coupons, count);
    FaceValueDoubles(bond.denomination, count);
    FixedIncomeParts(bond, terms, count);
    FixedIncomeParts(bond, terms, 2 * count);
    SettlementsDouble(FixedIncome(bond, terms, count), bond.denomination * count as real,
                      PurchaseWithCommission(bond, terms, count), CouponIncome(bond.coupons, count),
                      FixedIncome(bond, terms, 2 * count), bond.denomination * (2 * count) as real,
                      PurchaseWithCommission(bond, terms, 2 * count), CouponIncome(bond.coupons, 2 * count),
                      terms.tax);
  }

  /** Doubling the outlay and the income changes neither whether the yield
      computation succeeds nor the annualised profitability. */
  lemma YieldDoubles(p1: real, i1: real, p2: real, i2: real, coupons: seq<Coupon>, now: real)
    requires p2 == 2.0 * p1 && i2 == 2.0 * i1
    ensures Yield(p2, i2, coupons, now).Success? == Yield(p1, i1, coupons, now).Success?
    ensures Yield(p1, i1, coupons, now).Success? ==>
              Yield(p2, i2, coupons, now).value.profitability == Yield(p1, i1, coupons, now).value.profitability
  {
    if p1 != 0.0 {
      ProfitabilityScaleFree(i1, p1, 2.0);
    }
  }

  /** Doubling the unit count leaves the success of the fixed calculation and
      its annualised profitability unchanged. */
  lemma FixedDoubles(bond: Bond, terms: Terms, count: int, now: real)
    ensures Fixed(bond, terms, 2 * count, now).Success? == Fixed(bond, terms, count, now).Success?
    ensures Fixed(bond, terms, count, now).Success? ==>
              Fixed(bond, terms, 2 * count, now).value.profitability == Fixed(bond, terms, count, now).value.profitability
  {
    PurchaseDoubles(bond, terms, count);
    FixedIncomeDoubles(bond, terms, count);
    YieldDoubles(PurchaseWithCommission(bond, terms, count), FixedIncome(bond, terms, count),
                 PurchaseWithCommission(bond, terms, 2 * count), FixedIncome(bond, terms, 2 * count),
                 bond.coupons, now);
  }
}
