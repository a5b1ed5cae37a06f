/** The two calculators side by side, and the sample bond the program is
    configured with. */
module Comparison {
  import opened Bonds
  import opened FixedYield
  import opened ProgressiveYield

  /** Both calculators charge the same purchase cost, and they fail on the
      same inputs, except that only the progressive one divides by a zero
      clean price (when it has a coupon to reinvest). */
  lemma SamePurchase(bond: Bond, terms: Terms, count: int, now: real)
    ensures Progressive(bond, terms, count, now).Success? <==>
              Fixed(bond, terms, count, now).Success? && !(|bond.coupons| > 1 && bond.price == 0.0)
    ensures Progressive(bond, terms, count, now).Success? ==>
              Progressive(bond, terms, count, now).value.purchase == Fixed(bond, terms, count, now).value.purchase
                == PurchaseWithCommission(bond, terms, count)
  {
  }

  /** With a single coupon nothing is reinvested: no extra units are bought,
      no cash is left over, and the progressive result is the fixed one. */
  lemma SingleCouponMatchesFixed(bond: Bond, terms: Terms, count: int, now: real)
    requires |bond.coupons| == 1
    ensures Reinvest(AllButLast(bond.coupons), bond.price, terms, count) == Start
    ensures Progressive(bond, terms, count, now) == Fixed(bond, terms, count, now)
  {
    var c := bond.coupons[0];
    assert AllButLast(bond.coupons) == [];
    assert bond.coupons[..0] == [];
    assert CouponIncome(bond.coupons, count) == c.amount * count as real;
    assert NetRedemption(0.0, 0.0, terms.tax) == 0.0;
    assert ProgressiveIncome(bond, terms, count) == FixedIncome(bond, terms, count);
  }

  /** A bond bought at twice its face value whose first coupon pays exactly
      one clean price and whose last coupon pays nothing. */
  const DearBond := Bond(100.0, 200.0, 0.0, [Coupon(1, 200.0), Coupon(2, 0.0)])

  /** The first coupon of the dear bond buys exactly one more unit, with
      nothing left over. */
  lemma DearReinvestment()
    ensures Reinvest(AllButLast(DearBond.coupons), DearBond.price, Terms(0.0, 0.0), 1)
         == Reinvestment(1, 0.0, 200.0)
  {
    assert AllButLast(DearBond.coupons) == [Coupon(1, 200.0)];
    ReinvestOne(Coupon(1, 200.0), 200.0, Terms(0.0, 0.0), 1);
    NewBondsExact(1, 200.0);
    StepFrom(Start, Coupon(1, 200.0), 200.0, Terms(0.0, 0.0), 1, 200.0, 1, 200.0);
  }

  lemma DearPurchase()
    ensures PurchaseWithCommission(DearBond, Terms(0.0, 0.0), 1) == 200.0
  {
    assert Share(200.0, 0.0) == 0.0;
  }

  lemma DearLastCoupon()
    ensures CouponCash(Reinvestment(1, 0.0, 200.0), Last(DearBond.coupons), Terms(0.0, 0.0), 1) == 0.0
  {
    assert Last(DearBond.coupons) == Coupon(2, 0.0);
    assert Share(0.0, 0.0) == 0.0;
  }

  /** Both units of the dear bond are redeemed at face value, 100 each. */
  lemma DearRedemption()
    ensures Redemption(DearBond, Terms(0.0, 0.0), 1, PurchaseWithCommission(DearBond, Terms(0.0, 0.0), 1),
                       Reinvestment(1, 0.0, 200.0)) == 200.0
  {
    DearPurchase();
    DearLastCoupon();
  }

  /** Reinvesting can lose: a coupon spent on a unit bought above its face
      value is worth less at redemption than the coupon kept as cash (no
      commission, no tax, one unit). */
  lemma ReinvestmentCanLose()
    ensures FixedIncome(DearBond, Terms(0.0, 0.0), 1) == 300.0
    ensures ProgressiveIncome(DearBond, Terms(0.0, 0.0), 1) == 200.0
  {
    DearFixed();
    DearProgressive();
  }

  /** Kept as cash, the dear bond's coupons and its redemption bring in 300. */
  lemma DearFixed()
    ensures FixedIncome(DearBond, Terms(0.0, 0.0), 1) == 300.0
  {
    CouponIncomeIsCountTimesSum(DearBond.coupons, 1);
    assert AmountSum(DearBond.coupons) == 200.0;
  }

  /** Reinvested, they bring in only the face value of two units. */
  lemma DearProgressive()
    ensures ProgressiveIncome(DearBond, Terms(0.0, 0.0), 1) == 200.0
  {
    DearReinvestment();
    DearRedemption();
  }

  /** The bond the program is configured with: face value 1000, clean price
      965.18, ACI 33.94, four coupons of 34.9 paid on 2022-02-16, 2022-08-17,
      2023-02-16 and 2023-08-16 (as proleptic Gregorian day numbers). */
  const SampleBond := Bond(1000.0, 965.18, 33.94,
                           [Coupon(738202, 34.9), Coupon(738384, 34.9), Coupon(738567, 34.9), Coupon(738748, 34.9)])

  /** A commission of 0.3% and a tax of 13%. */
  const SampleTerms := Terms(0.3, 13.0)

  /** Midnight at the start of 2022-01-01, as a day number. */
  const SampleNow := 738156.0

  /** The sample, 75 units, held to redemption with the coupons as cash: an
      outlay of 75158.802, an income of 84108.9, and about 7.34% a year over
      the 592 days left. */
  lemma SampleFixed()
    ensures var r := Fixed(SampleBond, SampleTerms, 75, SampleNow);
            && r.Success?
            && r.value.purchase == 75158.802
            && r.value.income == 84108.9
            && 7.34 < r.value.profitability < 7.35
  {
    assert DaysTillRepayment(Last(SampleBond.coupons), SampleNow) == 592;
    CouponIncomeIsCountTimesSum(SampleBond.coupons, 75);
    assert AmountSum(SampleBond.coupons) == 139.6;
  }

  /** The reinvestment loop on the sample buys 2, 2 and 3 extra units. */
  lemma SampleReinvestment()
    ensures Reinvest(AllButLast(SampleBond.coupons), 965.18, SampleTerms, 75)
         == Reinvestment(7, 237.32422, 6776.52878)
  {
    var coupons := SampleBond.coupons;
    var s1 := Reinvestment(2, 341.07392, 1936.15108);
    var s2 := Reinvestment(4, 742.87384, 3872.30216);
    var s3 := Reinvestment(7, 237.32422, 6776.52878);
    assert Reinvest(coupons[..1], 965.18, SampleTerms, 75) == s1 by {
      assert coupons[..1][..0] == [];
      assert ReinvestStep(Start, coupons[0], 965.18, SampleTerms, 75) == s1;
    }
    assert Reinvest(coupons[..2], 965.18, SampleTerms, 75) == s2 by {
      assert coupons[..2][..1] == coupons[..1];
      assert ReinvestStep(s1, coupons[1], 965.18, SampleTerms, 75) == s2;
    }
    assert Reinvest(coupons[..3], 965.18, SampleTerms, 75) == s3 by {
      assert coupons[..3][..2] == coupons[..2];
      assert ReinvestStep(s2, coupons[2], 965.18, SampleTerms, 75) == s3;
    }
    assert AllButLast(coupons) == coupons[..3];
  }

  /** The sample with the coupons reinvested: the same outlay, an income of
      84698.0389614, about 7.83% a year, more than the fixed calculation. */
  lemma SampleProgressive()
    ensures var r := Progressive(SampleBond, SampleTerms, 75, SampleNow);
            && r.Success?
            && r.value.purchase == 75158.802
            && r.value.income == 84698.0389614
            && 7.82 < r.value.profitability < 7.83
  {
    SampleReinvestment();
    assert DaysTillRepayment(Last(SampleBond.coupons), SampleNow) == 592;
  }
}
