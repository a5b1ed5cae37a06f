/** Records and the arithmetic shared by both yield calculators: the purchase
    cost with broker commission, the flat tax, the capital-gains tax on a lot,
    and the conversion of a final income into an annualised profitability.

    Money is modelled by exact `real` values. Dates are day numbers (a coupon is
    paid at midnight of its day); the moment the calculation runs is a `real`
    number of days on the same scale, so its fractional part is the time of day. */
module Bonds {

  /** One coupon payment: the day it is paid and the amount paid per unit. */
  datatype Coupon = Coupon(date: int, amount: real)

  /** A bond: face value, clean price, accrued interest (ACI) per unit, and the
      coupon schedule in payment order; the last coupon is paid at redemption. */
  datatype Bond = Bond(denomination: real, price: real, aci: real, coupons: seq<Coupon>)

  /** Broker commission and tax, both in percent (0.3 means 0.3%). */
  datatype Terms = Terms(commission: real, tax: real)

  /** What a calculator reports: the initial outlay, the total cash received
      by redemption, and the annualised profitability in percent. */
  datatype CalculationResult = CalculationResult(purchase: real, income: real, profitability: real)

  /** The exceptions the calculation can raise: a division by zero
      (ZeroDivisionError) and the last coupon of an empty schedule (IndexError). */
  datatype CalcError = DivisionByZero | NoCoupons

  datatype Result<T> = Success(value: T) | Failure(error: CalcError)

  /** `rate` percent of `amount`. */
  function Share(amount: real, rate: real): real
  {
    amount * (rate / 100.0)
  }

  function Last(coupons: seq<Coupon>): Coupon
    requires coupons != []
  {
    coupons[|coupons| - 1]
  }

  /** Cost of buying `count` units at the clean price plus ACI, with the broker
      commission added on top. */
  function PurchaseWithCommission(bond: Bond, terms: Terms, count: int): real
  {
    var purchaseSum := (bond.price + bond.aci) * count as real;
    purchaseSum + Share(purchaseSum, terms.commission)
  }

  /** The purchase cost is the dirty price times the count times one plus the
      commission rate; a non-negative commission never makes it cheaper. */
  lemma {:induction false} PurchaseFormula(bond: Bond, terms: Terms, count: int)
    ensures PurchaseWithCommission(bond, terms, count) ==
              (bond.price + bond.aci) * count as real * (1.0 + terms.commission / 100.0)
    ensures (bond.price + bond.aci) * count as real > 0.0 && terms.commission >= 0.0 ==>
              PurchaseWithCommission(bond, terms, count) >= (bond.price + bond.aci) * count as real
  {
    var purchaseSum := (bond.price + bond.aci) * count as real;
    var k := terms.commission / 100.0;
    assert purchaseSum + purchaseSum * k == purchaseSum * (1.0 + k);
    if purchaseSum > 0.0 && k >= 0.0 {
      assert purchaseSum * k >= 0.0;
    }
  }

  /** Coupon income left after the flat tax. */
  function AfterTax(income: real, rate: real): real
  {
    income - Share(income, rate)
  }

  /** Capital-gains tax on a lot redeemed for `proceeds` that cost `cost`:
      charged only when there is a gain, and then on the gain alone. */
  function GainTax(proceeds: real, cost: real, rate: real): real
  {
    var income := proceeds - cost;
    if income > 0.0 then Share(income, rate) else 0.0
  }

  /** What redeeming a lot brings in once its capital-gains tax is paid. */
  function NetRedemption(proceeds: real, cost: real, rate: real): real
  {
    proceeds - GainTax(proceeds, cost, rate)
  }

  /** The flat tax takes `rate` percent of the coupon income; at a rate
      between 0 and 100 the remainder is between nothing and all of it. */
  lemma AfterTaxBounds(income: real, rate: real)
    ensures AfterTax(income, rate) == income * (100.0 - rate) / 100.0
    ensures income >= 0.0 && 0.0 <= rate <= 100.0 ==> 0.0 <= AfterTax(income, rate) <= income
  {
    var k := rate / 100.0;
    assert income - income * k == income * (1.0 - k);
    if income >= 0.0 && 0.0 <= rate <= 100.0 {
      assert 0.0 <= 1.0 - k <= 1.0;
      assert income * (1.0 - k) <= income * 1.0;
    }
  }

  /** The capital-gains tax is nothing without a gain, never negative at a
      non-negative rate, and at most the gain at a rate up to 100. */
  lemma GainTaxBounds(proceeds: real, cost: real, rate: real)
    ensures proceeds <= cost ==> GainTax(proceeds, cost, rate) == 0.0
    ensures proceeds > cost ==> GainTax(proceeds, cost, rate) == (proceeds - cost) * rate / 100.0
    ensures rate >= 0.0 ==> GainTax(proceeds, cost, rate) >= 0.0
    ensures 0.0 <= rate <= 100.0 && proceeds > cost ==> GainTax(proceeds, cost, rate) <= proceeds - cost
  {
    var g, k := proceeds - cost, rate / 100.0;
    assert g > 0.0 ==> GainTax(proceeds, cost, rate) == g * k;
    if g > 0.0 && k >= 0.0 {
      assert g * k >= 0.0;
      if k <= 1.0 {
        assert g * k <= g * 1.0;
      }
    }
  }

  /** Redeeming a lot never brings in more than its face value at a
      non-negative tax rate, and, at a rate up to 100, never less than the
      smaller of its face value and its cost. */
  lemma NetRedemptionBounds(proceeds: real, cost: real, rate: real)
    ensures rate >= 0.0 ==> NetRedemption(proceeds, cost, rate) <= proceeds
    ensures 0.0 <= rate <= 100.0 ==>
              NetRedemption(proceeds, cost, rate) >= (if proceeds < cost then proceeds else cost)
  {
    GainTaxBounds(proceeds, cost, rate);
  }

  /** Taxing two lots separately never costs less tax than taxing them as one
      lot: a loss on one lot is not set against a gain on the other. */
  lemma {:induction false} SeparateLotsNeverTaxLess(p1: real, c1: real, p2: real, c2: real, rate: real)
    requires rate >= 0.0
    ensures GainTax(p1, c1, rate) + GainTax(p2, c2, rate) >= GainTax(p1 + p2, c1 + c2, rate)
    ensures p1 > c1 && p2 < c2 && rate > 0.0 ==>
              GainTax(p1, c1, rate) + GainTax(p2, c2, rate) > GainTax(p1 + p2, c1 + c2, rate)
  {
    var g1, g2 := p1 - c1, p2 - c2;
    var t1 := if g1 > 0.0 then g1 else 0.0;
    var t2 := if g2 > 0.0 then g2 else 0.0;
    var t := if g1 + g2 > 0.0 then g1 + g2 else 0.0;
    var k := rate / 100.0;
    assert GainTax(p1, c1, rate) + GainTax(p2, c2, rate) - GainTax(p1 + p2, c1 + c2, rate)
        == (t1 + t2 - t) * k;
    assert t1 + t2 - t >= 0.0 && k >= 0.0;
    assert (t1 + t2 - t) * k >= 0.0;
    if p1 > c1 && p2 < c2 && rate > 0.0 {
      assert t1 + t2 - t > 0.0 && k > 0.0;
      assert (t1 + t2 - t) * k > 0.0;
    }
  }

  /** The same for what the lots bring in: redeeming two lots apart never
      brings in more than redeeming them as one lot. */
  lemma SeparateLotsNeverRedeemMore(p1: real, c1: real, p2: real, c2: real, rate: real)
    requires rate >= 0.0
    ensures NetRedemption(p1, c1, rate) + NetRedemption(p2, c2, rate) <= NetRedemption(p1 + p2, c1 + c2, rate)
    ensures p1 > c1 && p2 < c2 && rate > 0.0 ==>
              NetRedemption(p1, c1, rate) + NetRedemption(p2, c2, rate) < NetRedemption(p1 + p2, c1 + c2, rate)
  {
    SeparateLotsNeverTaxLess(p1, c1, p2, c2, rate);
  }

  /** The statements that add the broker commission to a cost: the total is
      the cost times one plus the commission rate, and a non-negative
      commission never makes a non-negative cost cheaper. */
  method AddCommission(cost: real, commission: real) returns (total: real)
    ensures total == cost + Share(cost, commission)
    ensures total == cost * (1.0 + commission / 100.0)
    ensures cost >= 0.0 && commission >= 0.0 ==> total >= cost
  {
    var fee := cost * (commission / 100.0);
    total := cost + fee;
    assert total == cost * (1.0 + commission / 100.0);
    if cost >= 0.0 && commission >= 0.0 {
      assert fee >= 0.0;
    }
  }

  /** The statements that take the flat tax off a coupon income: what is left
      is the income times (100 - tax) / 100, between nothing and the whole
      income at a rate between 0 and 100. */
  method DeductTax(income: real, tax: real) returns (net: real)
    ensures net == AfterTax(income, tax)
    ensures net == income * (100.0 - tax) / 100.0
    ensures income >= 0.0 && 0.0 <= tax <= 100.0 ==> 0.0 <= net <= income
  {
    var incomeTax := income * (tax / 100.0);
    net := income - incomeTax;
    AfterTaxBounds(income, tax);
  }

  /** The statements that redeem a lot and pay the tax on its gain, if any:
      at a non-negative rate the lot never brings in more than its face value,
      and at a rate up to 100 never less than the smaller of its face value
      and its cost. */
  method Redeem(repayment: real, cost: real, tax: real) returns (net: real)
    ensures net == NetRedemption(repayment, cost, tax)
    ensures repayment <= cost ==> net == repayment
    ensures tax >= 0.0 ==> net <= repayment
    ensures 0.0 <= tax <= 100.0 ==> net >= (if repayment < cost then repayment else cost)
  {
    var repaymentIncome := repayment - cost;
    var repaymentTax := 0.0;
    if repaymentIncome > 0.0 {
      repaymentTax := repaymentIncome * (tax / 100.0);
    }
    net := repayment - repaymentTax;
    NetRedemptionBounds(repayment, cost, tax);
  }

  /** Whole days from `now` until the last coupon: the day count of the time
      difference, rounded down. */
  function DaysTillRepayment(last: Coupon, now: real): (d: int)
    ensures d as real <= last.date as real - now < d as real + 1.0
  {
    (last.date as real - now).Floor
  }

  /** Profitability over the holding period, in percent. */
  function Profitability(income: real, purchase: real): real
    requires purchase != 0.0
  {
    income * 100.0 / purchase - 100.0
  }

  /** A profitability scaled to a 365-day year. */
  function Annualised(p: real, days: int): real
    requires days != 0
  {
    p * 365.0 / days as real
  }

  /** The profitability recovers the income from the outlay, and it is
      positive exactly when the income exceeds a positive outlay. */
  lemma ProfitabilityMeaning(income: real, purchase: real)
    requires purchase != 0.0
    ensures purchase * (100.0 + Profitability(income, purchase)) == income * 100.0
    ensures purchase > 0.0 ==> (Profitability(income, purchase) > 0.0 <==> income > purchase)
  {
    var q := income * 100.0 / purchase;
    assert q * purchase == income * 100.0;
    if purchase > 0.0 {
      assert q > 100.0 <==> q * purchase > 100.0 * purchase;
    }
  }

  /** Annualising over `days` days is undone by multiplying by the days, and
      keeps the sign over a positive number of days. */
  lemma AnnualisedMeaning(p: real, days: int)
    requires days != 0
    ensures Annualised(p, days) * days as real == p * 365.0
    ensures days > 0 ==> (Annualised(p, days) > 0.0 <==> p > 0.0)
  {
    var y := p * 365.0 / days as real;
    assert y * days as real == p * 365.0;
    if days > 0 {
      assert y > 0.0 <==> y * days as real > 0.0;
    }
  }

  /** The common tail of both calculators: the profitability of `income`
      against `purchase`, annualised over the days left until the last coupon.
      It fails where the source divides by zero, or reads the last coupon of an
      empty schedule (the division by the purchase comes first). */
  function Yield(purchase: real, income: real, coupons: seq<Coupon>, now: real): (r: Result<CalculationResult>)
    ensures r.Failure? <==>
              purchase == 0.0 || coupons == [] || DaysTillRepayment(Last(coupons), now) == 0
    ensures r.Failure? ==>
              r.error == if purchase != 0.0 && coupons == [] then NoCoupons else DivisionByZero
    ensures r.Success? ==> r.value.purchase == purchase && r.value.income == income
  {
    if purchase == 0.0 then Failure(DivisionByZero)
    else
      var profitability := Profitability(income, purchase);
      if coupons == [] then Failure(NoCoupons)
      else
        var days := DaysTillRepayment(Last(coupons), now);
        if days == 0 then Failure(DivisionByZero)
        else Success(CalculationResult(purchase, income, Annualised(profitability, days)))
  }

  /** A successful result's annualised profitability, spread over the days
      until the last coupon, recovers the income from the outlay; it is
      positive, over a positive number of days, exactly when a positive outlay
      is exceeded by the income. */
  lemma YieldMeaning(purchase: real, income: real, coupons: seq<Coupon>, now: real)
    requires Yield(purchase, income, coupons, now).Success?
    ensures var r := Yield(purchase, income, coupons, now).value;
            var days := DaysTillRepayment(Last(coupons), now);
            purchase * (36500.0 + r.profitability * days as real) == income * 36500.0
    ensures var r := Yield(purchase, income, coupons, now).value;
            purchase > 0.0 && DaysTillRepayment(Last(coupons), now) > 0 ==>
              (r.profitability > 0.0 <==> income > purchase)
  {
    var days := DaysTillRepayment(Last(coupons), now);
    var p := Profitability(income, purchase);
    ProfitabilityMeaning(income, purchase);
    AnnualisedMeaning(p, days);
    var y := Annualised(p, days);
    assert 36500.0 + y * days as real == (100.0 + p) * 365.0;
    assert purchase * ((100.0 + p) * 365.0) == (purchase * (100.0 + p)) * 365.0;
  }
}
