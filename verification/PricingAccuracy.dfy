/** How far the reported profit is from the reported target, when every line is rounded on its own. */
module PricingAccuracy {
  import opened Wrappers
  import opened Cents
  import opened PricingFormula
  import opened PricingPlan
  import opened PricingSolver

  function Distance(x: real, y: real): real {
    if x <= y then y - x else x - y
  }

  lemma Distribute(a: real, b: real, p: real)
    ensures (a + b) * p == a * p + b * p
  {
  }

  lemma OrderedProducts(x: real, y: real, d: real)
    requires x <= y && 0.0 <= d
    ensures x * d <= y * d
  {
  }

  /** Two bounds add up. */
  lemma DistanceAdds(x: real, x': real, y: real, y': real, h: real, k: real)
    requires Distance(x, x') <= h && Distance(y, y') <= k
    ensures Distance(x + y, x' + y') <= h + k
    ensures Distance(x - y, x' - y') <= h + k
  {
  }

  lemma Triangle(m: int, n: int, gap: real, h: real, k: real)
    requires Distance((m - n) as real, gap) <= h && Distance(gap, 0.0) <= k
    ensures Distance(m as real, n as real) <= h + k
  {
  }

  lemma RoundIsNear(x: real)
    ensures Distance(Round(x) as real, x) <= 0.5
  {
  }

  /** The fees at a price, before any rounding. */
  function ExactFees(fees: seq<Fee>, price: int): real {
    ValueAt(Affine(TotalCoefficient(fees), TotalConstant(fees)), price)
  }

  lemma ExactFeesSplit(fees: seq<Fee>, price: int)
    requires fees != []
    ensures ExactFees(fees, price) == ValueAt(fees[0].amount, price) + ExactFees(fees[1..], price)
  {
    Distribute(fees[0].amount.coefficient, TotalCoefficient(fees[1..]), price as real);
  }

  /** Each rounding moves the sum of the fees by at most half a cent. */
  lemma {:induction false} FeesAreNearlyAffine(fees: seq<Fee>, price: int)
    ensures Distance(TotalFees(fees, price) as real, ExactFees(fees, price)) <= |fees| as real / 2.0
  {
    if fees != [] {
      FeesAreNearlyAffine(fees[1..], price);
      ExactFeesSplit(fees, price);
      RoundIsNear(ValueAt(fees[0].amount, price));
      DistanceAdds(AmountAt(fees[0].amount, price) as real, ValueAt(fees[0].amount, price),
                   TotalFees(fees[1..], price) as real, ExactFees(fees[1..], price),
                   0.5, |fees[1..]| as real / 2.0);
    } else {
      assert ExactFees(fees, price) == 0.0;
    }
  }

  /** Rounding the quotient moves price * denominator by at most half the denominator. */
  lemma RoundedQuotient(numerator: real, denominator: real, price: int)
    requires denominator > 0.0 && price == Round(numerator / denominator)
    ensures Distance(price as real * denominator, numerator) <= denominator / 2.0
  {
    var p, q, half := price as real, numerator / denominator, denominator / 2.0;
    var scaled, low, high := p * denominator, (p - 0.5) * denominator, (p + 0.5) * denominator;
    assert low == scaled - half && high == scaled + half;
    assert q * denominator == numerator;
    OrderedProducts(p - 0.5, q, denominator);
    assert low <= numerator;
    OrderedProducts(q, p + 0.5, denominator);
    assert numerator <= high;
  }

  /** What would be left over after costs, fees and target if nothing were rounded. */
  function ExactGap(plan: Plan, price: int): real {
    price as real * (1.0 - ConsumedRate(plan)) - Numerator(plan)
  }

  function ExactTarget(plan: Plan, price: int): real {
    price as real * plan.tally.marginRate + plan.tally.markupTarget as real
  }

  lemma ExactGapParts(plan: Plan, price: int)
    ensures ExactGap(plan, price)
            == (price + plan.context.buyerShipping - plan.tally.previousTotal) as real
               - (ExactFees(plan.fees, price) + ExactTarget(plan, price))
  {
    var p := price as real;
    assert p * (1.0 - ConsumedRate(plan)) == p - TotalCoefficient(plan.fees) * p - p * plan.tally.marginRate;
  }

  /** At any price, profit minus target is the exact gap up to the roundings. */
  lemma ProfitAgainstTarget(plan: Plan, price: int)
    ensures Distance((ProfitAt(plan, price) - TargetProfit(plan, price)) as real, ExactGap(plan, price))
            <= (|plan.fees| + 1) as real / 2.0
  {
    var n := |plan.fees| as real;
    var before := (price + plan.context.buyerShipping - plan.tally.previousTotal) as real;
    FeesAreNearlyAffine(plan.fees, price);
    RoundIsNear(ExactTarget(plan, price));
    DistanceAdds(TotalFees(plan.fees, price) as real, ExactFees(plan.fees, price),
                 TargetProfit(plan, price) as real, ExactTarget(plan, price), n / 2.0, 0.5);
    DistanceAdds(before, before, (TotalFees(plan.fees, price) + TargetProfit(plan, price)) as real,
                 ExactFees(plan.fees, price) + ExactTarget(plan, price), 0.0, (n + 1.0) / 2.0);
    ExactGapParts(plan, price);
  }

  lemma SolvedPlanAccuracy(plan: Plan)
    requires ConsumedRate(plan) < 1.0
    ensures var price := SolvedPrice(plan);
            var slack := |plan.fees| as real;
            if Numerator(plan) >= 0.0
            then Distance(ProfitAt(plan, price) as real, TargetProfit(plan, price) as real)
                 <= (1.0 - ConsumedRate(plan) + slack + 1.0) / 2.0
            else price == 0 && ProfitAt(plan, price) as real > plan.tally.markupTarget as real - slack / 2.0
  {
    var price, d, slack := SolvedPrice(plan), 1.0 - ConsumedRate(plan), |plan.fees| as real;
    var exact := Numerator(plan) / d;
    if Numerator(plan) >= 0.0 {
      assert exact >= 0.0;
      RoundedQuotient(Numerator(plan), d, price);
      assert Distance(ExactGap(plan, price), 0.0) <= d / 2.0;
      ProfitAgainstTarget(plan, price);
      Triangle(ProfitAt(plan, price), TargetProfit(plan, price), ExactGap(plan, price), (slack + 1.0) / 2.0, d / 2.0);
    } else {
      assert exact < 0.0;
      assert price == 0;
      FeesAreNearlyAffine(plan.fees, price);
    }
  }

  /**
   * Whenever the solver answers: the net profit it reports is within (D + n + 1) / 2 cents of the target it
   * reports, D being the unconsumed rate and n the number of fees; a price clamped to zero still leaves the markup
   * target up to n / 2 cents.
   */
  lemma SolverAccuracy(cost: real, f: RawFormula, raw: RawContext)
    requires Solve(cost, f, raw).Ok?
    ensures var q := Solve(cost, f, raw).value;
            var slack := |q.plan.fees| as real;
            if Numerator(q.plan) >= 0.0
            then Distance(q.netProfit as real, q.targetProfit as real) <= (1.0 - ConsumedRate(q.plan) + slack + 1.0) / 2.0
            else q.sellingPrice == 0 && q.netProfit as real > q.plan.tally.markupTarget as real - slack / 2.0
  {
    SolveMeaning(cost, f, raw);
    SolvedPlanAccuracy(PlanOf(cost, f, raw).value);
  }
}
