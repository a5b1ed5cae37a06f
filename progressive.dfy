/** The "progressive" calculator: every coupon but the last is reinvested in
    whole units of the same bond at the clean price plus commission, the cash
    that cannot buy a unit is carried to the next coupon, and the units bought
    so far earn coupons too. */
module ProgressiveYield {
  import opened Bonds

  /** What the reinvestment loop carries from coupon to coupon: the units
      bought so far, the cash left over, and what those units cost in all. */
  datatype Reinvestment = Reinvestment(extraBonds: int, leftover: real, extraCost: real)

  const Start := Reinvestment(0, 0.0, 0.0)

  /** The coupons that are reinvested: all but the last one (an empty
      schedule reinvests nothing). */
  function AllButLast(coupons: seq<Coupon>): seq<Coupon>
  {
    if coupons == [] then [] else coupons[..|coupons| - 1]
  }

  /** Whole units that `investable` cash buys at `price`: the floor of the
      quotient (the commission is not taken into account). */
  function NewBonds(investable: real, price: real): int
    requires price != 0.0
  {
    (investable / price).Floor
  }

  /** Cost of `n` units at `price` with the broker commission added. */
  function UnitsCost(n: int, price: real, commission: real): real
  {
    var cost := n as real * price;
    cost + Share(cost, commission)
  }

  /** The coupon `c` paid on the original and the extra units, after tax. */
  function CouponCash(s: Reinvestment, c: Coupon, terms: Terms, count: int): real
  {
    AfterTax(c.amount * (count + s.extraBonds) as real, terms.tax)
  }

  /** One pass of the reinvestment loop, for coupon `c`. */
  function ReinvestStep(s: Reinvestment, c: Coupon, price: real, terms: Terms, count: int): Reinvestment
    requires price != 0.0
  {
    var investable := CouponCash(s, c, terms, count) + s.leftover;
    var n := NewBonds(investable, price);
    var cost := UnitsCost(n, price, terms.commission);
    Reinvestment(s.extraBonds + n, investable - cost, s.extraCost + cost)
  }

  /** The reinvestment loop over `coupons`, from nothing bought and no cash. */
  function Reinvest(coupons: seq<Coupon>, price: real, terms: Terms, count: int): Reinvestment
    requires coupons == [] || price != 0.0
  {
    if coupons == [] then Start
    else ReinvestStep(Reinvest(coupons[..|coupons| - 1], price, terms, count), Last(coupons), price, terms, count)
  }

  /** Total cash by redemption: the original lot and the extra lot are each
      redeemed and taxed on their own gain, the last coupon is paid on all
      units held, and the cash left over is added. */
  function ProgressiveIncome(bond: Bond, terms: Terms, count: int): real
    requires bond.coupons != []
    requires |bond.coupons| == 1 || bond.price != 0.0
  {
    Redemption(bond, terms, count, PurchaseWithCommission(bond, terms, count),
               Reinvest(AllButLast(bond.coupons), bond.price, terms, count))
  }

  /** Total cash by redemption once the original lot has cost `purchase` and
      the reinvestment loop has ended in `s`. */
  function Redemption(bond: Bond, terms: Terms, count: int, purchase: real, s: Reinvestment): real
    requires bond.coupons != []
  {
    NetRedemption(bond.denomination * count as real, purchase, terms.tax)
      + NetRedemption(bond.denomination * s.extraBonds as real, s.extraCost, terms.tax)
      + CouponCash(s, Last(bond.coupons), terms, count)
      + s.leftover
  }

  /** The result of the progressive calculation at the moment `now`: the
      reinvestment loop divides by the clean price when it runs at all, and
      the last coupon of the schedule is read before the profitability. */
  function Progressive(bond: Bond, terms: Terms, count: int, now: real): Result<CalculationResult>
  {
    if |bond.coupons| > 1 && bond.price == 0.0 then Failure(DivisionByZero)
    else if bond.coupons == [] then Failure(NoCoupons)
    else Yield(PurchaseWithCommission(bond, terms, count), ProgressiveIncome(bond, terms, count), bond.coupons, now)
  }

  /** The progressive calculation step by step: the purchase cost, the
      reinvestment loop, and the income by redemption, ending in the
      profitability computation both calculators share. */
  method ProgressiveCalculation(bond: Bond, terms: Terms, count: int, now: real)
    returns (r: Result<CalculationResult>)
    ensures r == Progressive(bond, terms, count, now)
  {
    var purchaseSum := (bond.price + bond.aci) * count as real;
    var purchaseWithCommission := AddCommission(purchaseSum, terms.commission);
    var reinvestment := ReinvestCoupons(AllButLast(bond.coupons), bond.price, terms, count);
    if reinvestment.Failure? {
      return Failure(DivisionByZero);
    }
    if bond.coupons == [] {
      return Failure(NoCoupons);
    }
    var finalIncome := FinalIncome(bond, terms, count, purchaseWithCommission, reinvestment.value);
    assert purchaseWithCommission == PurchaseWithCommission(bond, terms, count);
    assert finalIncome == ProgressiveIncome(bond, terms, count);
    r := Yield(purchaseWithCommission, finalIncome, bond.coupons, now);
  }

  /** The reinvestment loop: starting from no extra units and no cash, each
      coupon in turn is reinvested; it divides by the clean price as soon as
      there is a coupon to reinvest. */
  method ReinvestCoupons(coupons: seq<Coupon>, price: real, terms: Terms, count: int)
    returns (r: Result<Reinvestment>)
    ensures coupons != [] && price == 0.0 ==> r == Failure(DivisionByZero)
    ensures coupons == [] || price != 0.0 ==> r == Success(Reinvest(coupons, price, terms, count))
  {
    var extraBonds := 0;
    var leftover := 0.0;
    var extraBondsCost := 0.0;
    var i := 0;
    while i < |coupons|
      invariant 0 <= i <= |coupons|
      invariant i > 0 ==> price != 0.0
      invariant Reinvestment(extraBonds, leftover, extraBondsCost) == Reinvest(coupons[..i], price, terms, count)
    {
      if price == 0.0 {
        return Failure(DivisionByZero);
      }
      extraBonds, leftover, extraBondsCost :=
        ReinvestCoupon(extraBonds, leftover, extraBondsCost, coupons[i], price, terms, count);
      assert coupons[..i + 1][..i] == coupons[..i];
      i := i + 1;
    }
    assert coupons[..i] == coupons;
    return Success(Reinvestment(extraBonds, leftover, extraBondsCost));
  }

  /** One pass of the reinvestment loop: the coupon `c`, paid on the original
      and the extra units and taxed, is added to the leftover cash; as many
      whole units as that buys at the clean price are bought with the
      commission on top, and what remains is the new leftover. No cash
      appears or vanishes; at a positive price the units bought are the
      largest number whose clean cost fits the cash; and from cash that is
      not negative, at a non-negative commission, no unit is sold and the
      leftover is below the price. */
  method ReinvestCoupon(extraBonds: int, leftover: real, extraBondsCost: real,
                        c: Coupon, price: real, terms: Terms, count: int)
    returns (extraBonds': int, leftover': real, extraBondsCost': real)
    requires price != 0.0
    ensures Reinvestment(extraBonds', leftover', extraBondsCost')
         == ReinvestStep(Reinvestment(extraBonds, leftover, extraBondsCost), c, price, terms, count)
    ensures var investable := CouponCash(Reinvestment(extraBonds, leftover, extraBondsCost), c, terms, count) + leftover;
            && leftover' + (extraBondsCost' - extraBondsCost) == investable
            && extraBondsCost' - extraBondsCost
                 == (extraBonds' - extraBonds) as real * price * (1.0 + terms.commission / 100.0)
    ensures var investable := CouponCash(Reinvestment(extraBonds, leftover, extraBondsCost), c, terms, count) + leftover;
            var n := extraBonds' - extraBonds;
            price > 0.0 ==> n as real * price <= investable < (n + 1) as real * price
    ensures var investable := CouponCash(Reinvestment(extraBonds, leftover, extraBondsCost), c, terms, count) + leftover;
            price > 0.0 && terms.commission >= 0.0 && investable >= 0.0 ==>
              extraBonds' >= extraBonds && leftover' < price
  {
    var couponIncome := DeductTax(c.amount * (count + extraBonds) as real, terms.tax);
    var newBonds := ((couponIncome + leftover) / price).Floor;
    var newBondsCost := AddCommission(newBonds as real * price, terms.commission);
    ghost var s := Reinvestment(extraBonds, leftover, extraBondsCost);
    assert couponIncome == CouponCash(s, c, terms, count);
    assert newBonds == NewBonds(couponIncome + leftover, price);
    assert newBondsCost == UnitsCost(newBonds, price, terms.commission);
    leftover' := (couponIncome + leftover) - newBondsCost;
    extraBonds' := extraBonds + newBonds;
    extraBondsCost' := extraBondsCost + newBondsCost;
    StepFacts(s, c, price, terms, count);
  }

  /** The statements after the reinvestment loop: the last coupon is paid on
      all units held, the original and the extra lot are redeemed and taxed
      each on its own gain, and the leftover cash is added. */
  method FinalIncome(bond: Bond, terms: Terms, count: int, purchase: real, s: Reinvestment)
    returns (finalIncome: real)
    requires bond.coupons != []
    ensures finalIncome == Redemption(bond, terms, count, purchase, s)
  {
    var couponIncome := DeductTax(bond.coupons[|bond.coupons| - 1].amount * (count + s.extraBonds) as real, terms.tax);
    var repayment := Redeem(bond.denomination * count as real, purchase, terms.tax);
    var extraBondsRepayment := Redeem(bond.denomination * s.extraBonds as real, s.extraCost, terms.tax);
    finalIncome := repayment + extraBondsRepayment + couponIncome + s.leftover;
  }

  /** Multiplying by a positive price keeps a strict order, both ways. */
  lemma ScalePositive(a: real, b: real, price: real)
    requires price > 0.0
    ensures a < b <==> a * price < b * price
    ensures a <= b <==> a * price <= b * price
  {
    assert b * price - a * price == (b - a) * price;
  }

  /** The units bought are the floor of the quotient: at a positive price,
      the largest whole number of units whose clean cost fits the cash. */
  lemma NewBondsIsFloor(investable: real, price: real)
    requires price > 0.0
    ensures var n := NewBonds(investable, price);
            n as real * price <= investable < (n + 1) as real * price
  {
    var q := investable / price;
    assert q * price == investable;
    FloorScaled(investable, price, q, q.Floor);
  }

  /** A quotient's floor bounds, multiplied back by the positive divisor. */
  lemma FloorScaled(investable: real, price: real, q: real, n: int)
    requires price > 0.0 && q * price == investable
    requires n as real <= q < (n + 1) as real
    ensures n as real * price <= investable < (n + 1) as real * price
  {
    ScalePositive(n as real, q, price);
    ScalePositive(q, (n + 1) as real, price);
  }

  /** No larger number of units fits the cash. */
  lemma NewBondsGreatest(investable: real, price: real, m: int)
    requires price > 0.0 && m as real * price <= investable
    ensures m <= NewBonds(investable, price)
  {
    var n := NewBonds(investable, price);
    NewBondsIsFloor(investable, price);
    assert investable < (n + 1) as real * price;
    assert m as real * price < (n + 1) as real * price;
    ScalePositive(m as real, (n + 1) as real, price);
  }

  /** Cash that is not negative never buys a negative number of units. */
  lemma NewBondsNonNegative(investable: real, price: real)
    requires price > 0.0 && investable >= 0.0
    ensures NewBonds(investable, price) >= 0
  {
    NewBondsGreatest(investable, price, 0);
  }

  /** When the cash is an exact multiple of the price, exactly that many
      units are bought (no unit is lost to rounding). */
  lemma NewBondsExact(k: int, price: real)
    requires price != 0.0
    ensures NewBonds(k as real * price, price) == k
  {
    assert k as real * price / price == k as real;
  }

  /** One reinvestment step conserves cash: the new leftover plus what the new
      units cost equals the coupon after tax plus the old leftover; the cost of
      the extra units grows by exactly that cost, which is the clean price of
      the new units with the commission on top. */
  lemma StepConservesCash(s: Reinvestment, c: Coupon, price: real, terms: Terms, count: int)
    requires price != 0.0
    ensures var t := ReinvestStep(s, c, price, terms, count);
            var n := t.extraBonds - s.extraBonds;
            && n == NewBonds(CouponCash(s, c, terms, count) + s.leftover, price)
            && t.extraCost - s.extraCost == n as real * price * (1.0 + terms.commission / 100.0)
            && t.leftover + (t.extraCost - s.extraCost) == CouponCash(s, c, terms, count) + s.leftover
  {
    var t := ReinvestStep(s, c, price, terms, count);
    var n := t.extraBonds - s.extraBonds;
    var cost := n as real * price;
    assert cost + cost * (terms.commission / 100.0) == cost * (1.0 + terms.commission / 100.0);
  }

  /** After a step whose investable cash is not negative, at a positive price
      and a non-negative commission, the units bought are not negative and
      the leftover is below the clean price of one unit. The leftover may be
      negative, but by no more than the commission on the investable cash. */
  lemma StepLeftoverBounds(s: Reinvestment, c: Coupon, price: real, terms: Terms, count: int)
    requires price > 0.0 && terms.commission >= 0.0
    requires CouponCash(s, c, terms, count) + s.leftover >= 0.0
    ensures var t := ReinvestStep(s, c, price, terms, count);
            var investable := CouponCash(s, c, terms, count) + s.leftover;
            && t.extraBonds >= s.extraBonds
            && t.leftover < price
            && t.leftover >= -(investable * terms.commission / 100.0)
  {
    var investable := CouponCash(s, c, terms, count) + s.leftover;
    var n := NewBonds(investable, price);
    NewBondsIsFloor(investable, price);
    NewBondsNonNegative(investable, price);
    var k := terms.commission / 100.0;
    var cost := n as real * price;
    assert 0.0 <= cost <= investable by {
      ScalePositive(0.0, n as real, price);
    }
    assert 0.0 <= cost * k <= investable * k by {
      assert investable * k - cost * k == (investable - cost) * k;
    }
    assert ReinvestStep(s, c, price, terms, count).leftover == investable - cost - cost * k;
  }

  /** The facts about one step that the loop body promises, gathered. */
  lemma StepFacts(s: Reinvestment, c: Coupon, price: real, terms: Terms, count: int)
    requires price != 0.0
    ensures var t := ReinvestStep(s, c, price, terms, count);
            var investable := CouponCash(s, c, terms, count) + s.leftover;
            var n := t.extraBonds - s.extraBonds;
            && t.leftover + (t.extraCost - s.extraCost) == investable
            && t.extraCost - s.extraCost == n as real * price * (1.0 + terms.commission / 100.0)
            && (price > 0.0 ==> n as real * price <= investable < (n + 1) as real * price)
            && (price > 0.0 && terms.commission >= 0.0 && investable >= 0.0 ==>
                  t.extraBonds >= s.extraBonds && t.leftover < price)
  {
    StepConservesCash(s, c, price, terms, count);
    var investable := CouponCash(s, c, terms, count) + s.leftover;
    if price > 0.0 {
      NewBondsIsFloor(investable, price);
      if terms.commission >= 0.0 && investable >= 0.0 {
        StepLeftoverBounds(s, c, price, terms, count);
      }
    }
  }

  /** Everything the reinvested coupons paid after tax, each on the units held
      when it was paid. */
  function ReinvestedCash(coupons: seq<Coupon>, price: real, terms: Terms, count: int): real
    requires coupons == [] || price != 0.0
  {
    if coupons == [] then 0.0
    else
      var init := coupons[..|coupons| - 1];
      ReinvestedCash(init, price, terms, count) + CouponCash(Reinvest(init, price, terms, count), Last(coupons), terms, count)
  }

  /** Over the whole loop no cash appears or vanishes: the cost of the extra
      units plus the cash left over is everything the reinvested coupons paid
      after tax. */
  lemma {:induction false} ReinvestConservesCash(coupons: seq<Coupon>, price: real, terms: Terms, count: int)
    requires coupons == [] || price != 0.0
    ensures var s := Reinvest(coupons, price, terms, count);
            s.leftover + s.extraCost == ReinvestedCash(coupons, price, terms, count)
  {
    if coupons != [] {
      var init := coupons[..|coupons| - 1];
      ReinvestConservesCash(init, price, terms, count);
      StepConservesCash(Reinvest(init, price, terms, count), Last(coupons), price, terms, count);
    }
  }

  /** `Redemption` as the sum of the two lots' net redemptions and the rest. */
  lemma RedemptionParts(bond: Bond, terms: Terms, count: int, purchase: real, s: Reinvestment)
    requires bond.coupons != []
    ensures Redemption(bond, terms, count, purchase, s)
         == NetRedemption(bond.denomination * count as real, purchase, terms.tax)
          + NetRedemption(bond.denomination * s.extraBonds as real, s.extraCost, terms.tax)
          + (CouponCash(s, Last(bond.coupons), terms, count) + s.leftover)
  {
  }

  /** The progressive income taken apart: the two lots are redeemed and taxed
      each on its own gain; at a non-negative tax rate, taxing them apart
      never leaves more than taxing them as one lot would, and leaves less
      when one lot gains and the other loses at a positive rate. */
  lemma LotsTaxedApart(bond: Bond, terms: Terms, count: int, purchase: real, s: Reinvestment)
    requires bond.coupons != []
    requires terms.tax >= 0.0
    ensures var original := bond.denomination * count as real;
            var extra := bond.denomination * s.extraBonds as real;
            var asOneLot := NetRedemption(original + extra, purchase + s.extraCost, terms.tax)
                            + CouponCash(s, Last(bond.coupons), terms, count) + s.leftover;
            && Redemption(bond, terms, count, purchase, s) <= asOneLot
            && (original > purchase && extra < s.extraCost && terms.tax > 0.0 ==>
                  Redemption(bond, terms, count, purchase, s) < asOneLot)
  {
    var original, extra := bond.denomination * count as real, bond.denomination * s.extraBonds as real;
    RedemptionParts(bond, terms, count, purchase, s);
    SeparateLotsNeverRedeemMore(original, purchase, extra, s.extraCost, terms.tax);
  }

  /** A step whose taxed coupon is `cash`, which buys `n` units costing `cost`
      with the commission. */
  lemma StepFrom(s: Reinvestment, c: Coupon, price: real, terms: Terms, count: int, cash: real, n: int, cost: real)
    requires price != 0.0
    requires CouponCash(s, c, terms, count) == cash
    requires NewBonds(cash + s.leftover, price) == n
    requires UnitsCost(n, price, terms.commission) == cost
    ensures ReinvestStep(s, c, price, terms, count)
         == Reinvestment(s.extraBonds + n, cash + s.leftover - cost, s.extraCost + cost)
  {
  }

  /** A schedule of one coupon is reinvested in one step from the start. */
  lemma ReinvestOne(c: Coupon, price: real, terms: Terms, count: int)
    requires price != 0.0
    ensures Reinvest([c], price, terms, count) == ReinvestStep(Start, c, price, terms, count)
  {
    assert [c][..0] == [];
  }

  /** The leftover can be negative: a coupon of 100 buys one unit at a clean
      price of 100 exactly, and the 1% commission on it is paid out of cash
      that is not there. */
  lemma LeftoverCanBeNegative()
    ensures ReinvestStep(Start, Coupon(0, 100.0), 100.0, Terms(1.0, 0.0), 1) == Reinvestment(1, -1.0, 101.0)
  {
    NewBondsExact(1, 100.0);
    StepFrom(Start, Coupon(0, 100.0), 100.0, Terms(1.0, 0.0), 1, 100.0, 1, 101.0);
  }

  /** Continuing the example above with a coupon of 0.4 on the two units now
      held: the investable cash is -0.2, whose floor buys minus one unit
      (sells the unit back, commission included), and the leftover rises to
      100.8, above the clean price. So the leftover is guaranteed to stay
      below the price only while the investable cash is not negative, even
      when every coupon is positive. */
  lemma LeftoverCanExceedPrice()
    ensures ReinvestStep(Reinvestment(1, -1.0, 101.0), Coupon(1, 0.4), 100.0, Terms(1.0, 0.0), 1)
         == Reinvestment(0, 100.8, 0.0)
  {
    NewBondsOfDebt(0.2, 100.0);
    StepFrom(Reinvestment(1, -1.0, 101.0), Coupon(1, 0.4), 100.0, Terms(1.0, 0.0), 1, 0.8, -1, -101.0);
  }

  /** A debt of at most one clean price buys minus one unit. */
  lemma NewBondsOfDebt(debt: real, price: real)
    requires 0.0 < debt <= price
    ensures NewBonds(-debt, price) == -1
  {
    var n := NewBonds(-debt, price);
    NewBondsIsFloor(-debt, price);
    NewBondsGreatest(-debt, price, -1);
    ScalePositive(n as real, 0.0, price);
  }
}
