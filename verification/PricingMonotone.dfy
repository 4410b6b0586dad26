/**
 * Does the price rise with the cost?  The fixed part always does.  The constants of the fees change by a fixed amount
 * per cent of cost, the cost slope, and its sign decides.
 */
module PricingMonotone {
  import opened Wrappers
  import opened Cents
  import opened PricingFormula
  import opened PricingPlan
  import opened PricingSolver
  import opened PricingValidation

  // ----- the cost slope

  function SumRates(cs: seq<Component>): real {
    if cs == [] then 0.0 else Rate(cs[0]) + SumRates(cs[1..])
  }

  /** What one fee on a base adds per cent of cost. */
  function OwnSlope(c: Component): real {
    if c.base.BaseCost? then Rate(c) else 0.0
  }

  /** What the fees charged on the base cost add per cent of cost. */
  function DirectSlope(cs: seq<Component>): real {
    if cs == [] then 0.0 else OwnSlope(cs[0]) + DirectSlope(cs[1..])
  }

  /** The part of it that eBay keeps before paying out. */
  function EbaySlope(cs: seq<Component>): real {
    if cs == [] then 0.0
    else (if IsEbaySpecific(cs[0].kind) then OwnSlope(cs[0]) else 0.0) + EbaySlope(cs[1..])
  }

  /** Fees on the base cost, less what the fees on the payout give back because the payout is smaller. */
  function CostSlope(external: seq<Component>): real {
    DirectSlope(OnPayout(external, false)) - EbaySlope(OnPayout(external, false)) * SumRates(OnPayout(external, true))
  }

  /** A slope over a difference of costs. */
  function Rise(slope: real, gap: int): real {
    slope * gap as real
  }

  function DirectAmount(c: Component, cost: int, context: Context): Result<Affine, Error> {
    var base :- ExternalBase(c.base, cost, context, None);
    FeeAmount(c, base)
  }

  lemma DirectConstantStep(c: Component, low: int, high: int, context: Context)
    requires DirectAmount(c, low, context).Ok? && DirectAmount(c, high, context).Ok?
    ensures DirectAmount(c, high, context).value.constant - DirectAmount(c, low, context).value.constant
            == Rise(OwnSlope(c), high - low)
  {
    hide Rate;
    if c.base.BaseCost? {
      assert high as real * Rate(c) - low as real * Rate(c) == Rate(c) * (high - low) as real;
    }
  }

  /** The first direct fee is on its own; the others are the fees of the rest. */
  lemma DirectFeesSplit(cs: seq<Component>, cost: int, context: Context)
    requires cs != [] && DirectFees(cs, cost, context).Ok?
    ensures DirectAmount(cs[0], cost, context).Ok? && DirectFees(cs[1..], cost, context).Ok?
    ensures var fees, rest := DirectFees(cs, cost, context).value, DirectFees(cs[1..], cost, context).value;
            var amount := DirectAmount(cs[0], cost, context).value;
            && TotalConstant(fees) == amount.constant + TotalConstant(rest)
            && Payout(fees, context).constant
               == Payout(rest, context).constant - (if IsEbaySpecific(cs[0].kind) then amount.constant else 0.0)
  {
    hide Rate, ExternalBase;
    assert DirectFees(cs, cost, context).value[1..] == DirectFees(cs[1..], cost, context).value;
  }

  lemma RiseAdds(x: real, y: real, gap: int)
    ensures Rise(x, gap) + Rise(y, gap) == Rise(x + y, gap)
  {
  }

  lemma RiseOfNothing(gap: int)
    ensures Rise(0.0, gap) == 0.0
  {
  }

  lemma {:induction false} DirectConstants(cs: seq<Component>, low: int, high: int, context: Context)
    requires DirectFees(cs, low, context).Ok? && DirectFees(cs, high, context).Ok?
    ensures var lowFees, highFees := DirectFees(cs, low, context).value, DirectFees(cs, high, context).value;
            && TotalConstant(highFees) - TotalConstant(lowFees) == Rise(DirectSlope(cs), high - low)
            && Payout(lowFees, context).constant - Payout(highFees, context).constant == Rise(EbaySlope(cs), high - low)
  {
    hide Rise, DirectAmount, OwnSlope;
    RiseOfNothing(high - low);
    if cs != [] {
      DirectFeesSplit(cs, low, context);
      DirectFeesSplit(cs, high, context);
      DirectConstants(cs[1..], low, high, context);
      DirectConstantStep(cs[0], low, high, context);
      RiseAdds(OwnSlope(cs[0]), DirectSlope(cs[1..]), high - low);
      RiseAdds(OwnSlope(cs[0]), EbaySlope(cs[1..]), high - low);
    }
  }

  lemma {:induction false} PayoutTotals(cs: seq<Component>, payout: Affine)
    requires PayoutFees(cs, payout).Ok?
    ensures TotalConstant(PayoutFees(cs, payout).value) == payout.constant * SumRates(cs)
    ensures TotalCoefficient(PayoutFees(cs, payout).value) == payout.coefficient * SumRates(cs)
  {
    hide Rate;
    if cs != [] {
      PayoutTotals(cs[1..], payout);
      Distributes(payout.constant, Rate(cs[0]), SumRates(cs[1..]));
      Distributes(payout.coefficient, Rate(cs[0]), SumRates(cs[1..]));
    }
  }

  lemma Distributes(x: real, a: real, b: real)
    ensures x * (a + b) == x * a + x * b
  {
  }

  /** Direct fees, plus the payout fees as one rate on the payout. */
  lemma FeeTotals(external: seq<Component>, cost: int, context: Context)
    requires FeesOf(external, cost, context).Ok?
    ensures var fees := DirectFees(OnPayout(external, false), cost, context).value;
            var rate := SumRates(OnPayout(external, true));
            && TotalConstant(FeesOf(external, cost, context).value)
               == TotalConstant(fees) + Payout(fees, context).constant * rate
            && TotalCoefficient(FeesOf(external, cost, context).value)
               == TotalCoefficient(fees) + Payout(fees, context).coefficient * rate
  {
    hide TotalConstant, TotalCoefficient, SumRates, Payout, DirectFees, PayoutFees, OnPayout;
    var fees := DirectFees(OnPayout(external, false), cost, context).value;
    PayoutTotals(OnPayout(external, true), Payout(fees, context));
    TotalsOfConcatenation(fees, PayoutFees(OnPayout(external, true), Payout(fees, context)).value);
  }

  /** The constants of all fees are linear in the cost. */
  lemma FeeConstants(external: seq<Component>, low: int, high: int, context: Context)
    requires FeesOf(external, low, context).Ok? && FeesOf(external, high, context).Ok?
    ensures TotalConstant(FeesOf(external, high, context).value) - TotalConstant(FeesOf(external, low, context).value)
            == Rise(CostSlope(external), high - low)
  {
    hide TotalConstant, TotalCoefficient, SumRates, Payout, DirectFees, OnPayout, DirectSlope, EbaySlope;
    var direct := OnPayout(external, false);
    DirectConstants(direct, low, high, context);
    FeeTotals(external, low, context);
    FeeTotals(external, high, context);
    SlopeAlgebra(DirectSlope(direct), EbaySlope(direct), SumRates(OnPayout(external, true)), high - low,
                 Payout(DirectFees(direct, low, context).value, context).constant,
                 Payout(DirectFees(direct, high, context).value, context).constant);
  }

  lemma SlopeAlgebra(d: real, e: real, r: real, gap: int, lowPayout: real, highPayout: real)
    requires lowPayout - highPayout == Rise(e, gap)
    ensures Rise(d, gap) + (highPayout * r - lowPayout * r) == Rise(d - e * r, gap)
  {
    var g := gap as real;
    assert highPayout * r - lowPayout * r == -(e * g) * r;
    assert (e * g) * r == (e * r) * g;
  }

  // ----- the fixed part rises

  lemma MarkupKeepsOrder(c: Component, low: Tally, high: Tally, lowCost: int, highCost: int, context: Context)
    requires WellTyped(c) && IsMarkup(c) && lowCost <= highCost
    requires low.previousTotal <= high.previousTotal && low.markupTarget <= high.markupTarget
    requires TallyStep(low, c, lowCost, context).Ok? && TallyStep(high, c, highCost, context).Ok?
    ensures TallyStep(low, c, lowCost, context).value.markupTarget <= TallyStep(high, c, highCost, context).value.markupTarget
  {
    PercentOrder(MarkupBase(c, low.previousTotal, lowCost, context).value,
                 MarkupBase(c, high.previousTotal, highCost, context).value, c.value);
  }

  lemma {:induction false} FixedPartRises(
    cs: seq<Component>, low: Tally, high: Tally, lowCost: int, highCost: int, context: Context)
    requires forall i :: 0 <= i < |cs| ==> WellTyped(cs[i])
    requires Ahead(cs, low, high) && low.markupTarget <= high.markupTarget && lowCost <= highCost
    requires TallyAll(cs, low, lowCost, context).Ok? && TallyAll(cs, high, highCost, context).Ok?
    ensures var a, b := TallyAll(cs, low, lowCost, context).value, TallyAll(cs, high, highCost, context).value;
            a.previousTotal <= b.previousTotal && a.markupTarget <= b.markupTarget
  {
    if cs != [] {
      TallyStepKeepsOrder(cs, low, high, lowCost, highCost, context);
      if IsMarkup(cs[0]) {
        MarkupKeepsOrder(cs[0], low, high, lowCost, highCost, context);
      }
      FixedPartRises(cs[1..], TallyStep(low, cs[0], lowCost, context).value,
                     TallyStep(high, cs[0], highCost, context).value, lowCost, highCost, context);
    }
  }

  // ----- the price

  lemma NumeratorRises(cs: seq<Component>, low: int, high: int, context: Context)
    requires WellFormed(cs) && low <= high && !CanOverdraw(cs)
    requires PlanFrom(cs, low, context).Ok? && PlanFrom(cs, high, context).Ok?
    requires CostSlope(PlanFrom(cs, low, context).value.tally.externalFees) >= 0.0
    ensures Numerator(PlanFrom(cs, low, context).value) <= Numerator(PlanFrom(cs, high, context).value)
  {
    hide TotalConstant, TotalCoefficient, CostSlope, FeesOf, TallyStep, CanOverdraw;
    var external := PlanFrom(cs, low, context).value.tally.externalFees;
    FixedPartRises(cs, StartTally(low, context), StartTally(high, context), low, high, context);
    TallyKeepsFees(cs, StartTally(low, context), StartTally(high, context), low, high, context);
    FeeConstants(external, low, high, context);
    Scale(0.0, CostSlope(external), (high - low) as real);
  }

  lemma PriceFollowsNumerator(low: Plan, high: Plan)
    requires ConsumedRate(low) == ConsumedRate(high) < 1.0
    requires Numerator(low) <= Numerator(high)
    ensures SolvedPrice(low) <= SolvedPrice(high)
  {
    var d := 1.0 - ConsumedRate(low);
    QuotientOrder(Numerator(low), Numerator(high), d);
    var x, y := Numerator(low) / d, Numerator(high) / d;
    RoundMonotone(if x < 0.0 then 0.0 else x, if y < 0.0 then 0.0 else y);
  }

  lemma QuotientOrder(x: real, y: real, d: real)
    requires x <= y && 0.0 < d
    ensures x / d <= y / d
  {
    Scale(x, y, 1.0 / d);
    assert x / d == x * (1.0 / d) && y / d == y * (1.0 / d);
  }

  /** With a cost slope that is not negative, the solved price never falls as the cost rises. */
  lemma PriceRisesWithCost(low: real, high: real, f: RawFormula, raw: RawContext)
    requires Solve(low, f, raw).Ok? && Solve(high, f, raw).Ok? && low <= high
    requires !CanOverdraw(Solve(low, f, raw).value.plan.components)
    requires CostSlope(Solve(low, f, raw).value.plan.tally.externalFees) >= 0.0
    ensures Solve(low, f, raw).value.sellingPrice <= Solve(high, f, raw).value.sellingPrice
  {
    hide TotalConstant, TotalCoefficient, CostSlope, FeesOf, TallyAll, CanOverdraw, Numerator, SolvedPrice;
    Outcome(low, f, raw);
    Outcome(high, f, raw);
    SolveMeaning(low, f, raw);
    SolveMeaning(high, f, raw);
    NormalizeIsWellFormed(f);
    RoundMonotone(low * 100.0, high * 100.0);
    var cs, context := Normalize(f).value, NormalizeContext(low, raw).value;
    NumeratorRises(cs, FromDollars(low), FromDollars(high), context);
    PlanAtHigherCost(cs, FromDollars(low), FromDollars(high), context);
    PriceFollowsNumerator(PlanOf(low, f, raw).value, PlanOf(high, f, raw).value);
  }

  // ----- which fees have such a slope

  predicate NoSubtractedFee(cs: seq<Component>) {
    forall i :: 0 <= i < |cs| ==> cs[i].value >= 0.0 && !cs[i].operator.Subtract?
  }

  /** The share of the price that eBay's own fees take. */
  function EbayShare(cs: seq<Component>, cost: int, context: Context): real
    requires DirectFees(cs, cost, context).Ok?
  {
    1.0 - Payout(DirectFees(cs, cost, context).value, context).coefficient
  }

  lemma {:induction false} AddedFees(cs: seq<Component>, cost: int, context: Context)
    requires NoSubtractedFee(cs) && DirectFees(cs, cost, context).Ok?
    requires forall i :: 0 <= i < |cs| ==> !cs[i].base.EbayPayout?
    ensures TotalCoefficient(DirectFees(cs, cost, context).value) >= EbayShare(cs, cost, context) >= 0.0
    ensures DirectSlope(cs) >= EbaySlope(cs) >= 0.0
  {
    if cs != [] {
      assert forall i :: 0 <= i < |cs[1..]| ==> cs[1..][i] == cs[i + 1];
      AddedFees(cs[1..], cost, context);
      var base := ExternalBase(cs[0].base, cost, context, None).value;
      assert Rate(cs[0]) >= 0.0 && (base.coefficient == 0.0 || base.coefficient == 1.0);
    }
  }

  lemma {:induction false} AddedRates(cs: seq<Component>)
    requires NoSubtractedFee(cs)
    requires forall i :: 0 <= i < |cs| ==> !IsScaling(cs[i].operator)
    ensures SumRates(cs) >= 0.0
  {
    if cs != [] {
      AddedRates(cs[1..]);
    }
  }

  lemma {:induction false} SplitKeeps(cs: seq<Component>, wanted: bool)
    requires NoSubtractedFee(cs)
    ensures NoSubtractedFee(OnPayout(cs, wanted))
    ensures forall i :: 0 <= i < |OnPayout(cs, wanted)| ==> OnPayout(cs, wanted)[i].base.EbayPayout? == wanted
  {
    if cs != [] {
      SplitKeeps(cs[1..], wanted);
    }
  }

  lemma RateBelowOne(share: real, rate: real)
    requires 0.0 <= share <= 1.0 && share + (1.0 - share) * rate < 1.0
    ensures rate < 1.0
  {
    if 1.0 <= rate {
      Scale(1.0, rate, 1.0 - share);
    }
  }

  lemma SlopeNotNegative(d: real, e: real, rate: real)
    requires d >= e >= 0.0 && rate < 1.0
    ensures d - e * rate >= 0.0
  {
    Scale(rate, 1.0, e);
  }

  /**
   * Without subtracted fees and with eBay's own fees at most the whole price, a consumed rate below 1 keeps the total
   * payout rate below 1, and the cost slope is not negative.
   */
  lemma AddedFeesHaveRisingSlope(external: seq<Component>, cost: int, context: Context)
    requires NoSubtractedFee(external) && FeesOf(external, cost, context).Ok?
    requires EbayShare(OnPayout(external, false), cost, context) <= 1.0
    requires TotalCoefficient(FeesOf(external, cost, context).value) < 1.0
    ensures SumRates(OnPayout(external, true)) < 1.0
    ensures CostSlope(external) >= 0.0
  {
    hide TotalConstant, TotalCoefficient, SumRates, Payout, DirectFees, OnPayout, DirectSlope, EbaySlope;
    var direct, rate := OnPayout(external, false), SumRates(OnPayout(external, true));
    SplitKeeps(external, false);
    AddedFees(direct, cost, context);
    FeeTotals(external, cost, context);
    RateBelowOne(EbayShare(direct, cost, context), rate);
    SlopeNotNegative(DirectSlope(direct), EbaySlope(direct), rate);
  }

  /** Only fees are ever collected, and only the formula's own. */
  lemma {:induction false} CollectedFees(cs: seq<Component>, t: Tally, cost: int, context: Context)
    requires TallyAll(cs, t, cost, context).Ok?
    requires forall i :: 0 <= i < |cs| ==> WellTyped(cs[i]) && (IsExternalFee(cs[i]) ==> !cs[i].operator.Subtract?)
    requires NoSubtractedFee(t.externalFees)
    ensures NoSubtractedFee(TallyAll(cs, t, cost, context).value.externalFees)
    ensures TallyAll(cs, t, cost, context).value.marginRate >= t.marginRate
    decreases |cs|
  {
    if cs != [] {
      FeeIsCollected(cs[0], t, cost, context);
      CollectedFees(cs[1..], TallyStep(t, cs[0], cost, context).value, cost, context);
    }
  }

  lemma FeeIsCollected(c: Component, t: Tally, cost: int, context: Context)
    requires TallyStep(t, c, cost, context).Ok?
    ensures TallyStep(t, c, cost, context).value.externalFees == t.externalFees + (if IsExternalFee(c) then [c] else [])
    ensures c.value >= 0.0 ==> TallyStep(t, c, cost, context).value.marginRate >= t.marginRate
  {
    hide NextTotal, MarkupBase;
  }

  predicate SubtractsNoFee(cs: seq<Component>) {
    forall i :: 0 <= i < |cs| && IsExternalFee(cs[i]) ==> !cs[i].operator.Subtract?
  }

  /** Do eBay's own fees take at most the whole price? */
  predicate EbayLeavesPrice(plan: Plan) {
    var direct := OnPayout(plan.tally.externalFees, false);
    DirectFees(direct, plan.cost, plan.context).Ok? && EbayShare(direct, plan.cost, plan.context) <= 1.0
  }

  lemma AddedFeesRise(cs: seq<Component>, cost: int, context: Context)
    requires WellFormed(cs) && SubtractsNoFee(cs) && PlanFrom(cs, cost, context).Ok?
    requires ConsumedRate(PlanFrom(cs, cost, context).value) < 1.0 && EbayLeavesPrice(PlanFrom(cs, cost, context).value)
    ensures CostSlope(PlanFrom(cs, cost, context).value.tally.externalFees) >= 0.0
  {
    hide TotalConstant, TotalCoefficient, CostSlope, TallyAll, OnPayout, DirectFees, FeesOf, WellTyped;
    var start := StartTally(cost, context);
    CollectedFees(cs, start, cost, context);
    AddedFeesHaveRisingSlope(PlanFrom(cs, cost, context).value.tally.externalFees, cost, context);
  }

  /**
   * In a formula that subtracts no fee and cannot overdraw, and whose eBay fees are at most the whole price, the solved
   * price never falls as the cost rises.
   */
  lemma AddedFeesKeepPriceRising(low: real, high: real, f: RawFormula, raw: RawContext)
    requires Solve(low, f, raw).Ok? && Solve(high, f, raw).Ok? && low <= high
    requires var plan := Solve(low, f, raw).value.plan;
             !CanOverdraw(plan.components) && SubtractsNoFee(plan.components) && EbayLeavesPrice(plan)
    ensures Solve(low, f, raw).value.sellingPrice <= Solve(high, f, raw).value.sellingPrice
  {
    hide CostSlope, CanOverdraw, PlanFrom, ConsumedRate, SolvedPrice, SubtractsNoFee, EbayLeavesPrice, Solve;
    SolveMeaning(low, f, raw);
    NormalizeIsWellFormed(f);
    PlanKeepsComponents(Normalize(f).value, FromDollars(low), NormalizeContext(low, raw).value);
    AddedFeesRise(Normalize(f).value, FromDollars(low), NormalizeContext(low, raw).value);
    PriceRisesWithCost(low, high, f, raw);
  }

  lemma PlanKeepsComponents(cs: seq<Component>, cost: int, context: Context)
    requires PlanFrom(cs, cost, context).Ok?
    ensures PlanFrom(cs, cost, context).value.components == cs
  {
  }

  // ----- a negative slope is exactly what can make the price fall

  lemma {:induction false} ExternalFeesOnlyCollect(cs: seq<Component>, t: Tally, cost: int, context: Context)
    requires forall i :: 0 <= i < |cs| ==> IsExternalFee(cs[i])
    ensures TallyAll(cs, t, cost, context) == Ok(t.(externalFees := t.externalFees + cs))
  {
    if cs == [] {
      assert t.externalFees + cs == t.externalFees;
    } else {
      ExternalFeesOnlyCollect(cs[1..], TallyStep(t, cs[0], cost, context).value, cost, context);
      assert t.externalFees + cs == t.externalFees + [cs[0]] + cs[1..];
    }
  }

  /** Fixed cost "multiply by zero": the running total forgets the cost. */
  const FORGET := Component("forget", MiscFixed, Multiply, 0.0, "Forget", true, FixedCost, PreviousTotal)

  lemma ForgetfulPlan(external: seq<Component>, cost: int, context: Context)
    requires forall i :: 0 <= i < |external| ==> IsExternalFee(external[i])
    requires FeesOf(external, cost, context).Ok?
    ensures PlanFrom([FORGET] + external, cost, context).Ok?
    ensures var plan := PlanFrom([FORGET] + external, cost, context).value;
            Numerator(plan) == TotalConstant(FeesOf(external, cost, context).value) - context.buyerShipping as real
  {
    var start := StartTally(cost, context);
    assert start.previousTotal as real * 0.0 == 0.0;
    assert NextTotal(FORGET, start.previousTotal) == Ok(0);
    var next := TallyStep(start, FORGET, cost, context).value;
    assert ([FORGET] + external)[1..] == external;
    ExternalFeesOnlyCollect(external, next, cost, context);
    assert next.externalFees + external == external;
  }

  ghost predicate RisesInFrontOf(external: seq<Component>, context: Context) {
    forall front: seq<Component>, low: int, high: int ::
      RisesBetween(front + external, external, low, high, context)
  }

  /** The numerator of the price does not fall between two costs, for a formula with these external fees. */
  ghost predicate RisesBetween(cs: seq<Component>, external: seq<Component>, low: int, high: int, context: Context) {
    && WellFormed(cs) && low <= high && !CanOverdraw(cs)
    && PlanFrom(cs, low, context).Ok? && PlanFrom(cs, high, context).Ok?
    && PlanFrom(cs, low, context).value.tally.externalFees == external
    ==> Numerator(PlanFrom(cs, low, context).value) <= Numerator(PlanFrom(cs, high, context).value)
  }

  /** The external fees keep every formula's price numerator rising if and only if their cost slope is not negative. */
  lemma RisingExactlyWithSlope(external: seq<Component>, context: Context)
    requires forall i :: 0 <= i < |external| ==> IsExternalFee(external[i])
    requires WellFormed([FORGET] + external)
    requires FeesOf(external, 0, context).Ok?
    ensures RisesInFrontOf(external, context) <==> CostSlope(external) >= 0.0
  {
    hide TotalConstant, TotalCoefficient, CostSlope, FeesOf, TallyAll, CanOverdraw, Numerator;
    if CostSlope(external) >= 0.0 {
      forall front: seq<Component>, low: int, high: int
        ensures RisesBetween(front + external, external, low, high, context)
      {
        var cs := front + external;
        if WellFormed(cs) && low <= high && !CanOverdraw(cs) && PlanFrom(cs, low, context).Ok?
           && PlanFrom(cs, high, context).Ok? && PlanFrom(cs, low, context).value.tally.externalFees == external {
          NumeratorRises(cs, low, high, context);
        }
      }
    } else {
      var cs := [FORGET] + external;
      FeesDoNotDependOnCost(external, 0, 1, context);
      ForgetfulPlan(external, 0, context);
      ForgetfulPlan(external, 1, context);
      FeeConstants(external, 0, 1, context);
      assert Rise(CostSlope(external), 1) < 0.0;
      ForgetfulPlanFees(external, context);
      assert !RisesBetween(cs, external, 0, 1, context);
    }
  }

  lemma ForgetfulPlanFees(external: seq<Component>, context: Context)
    requires forall i :: 0 <= i < |external| ==> IsExternalFee(external[i])
    requires FeesOf(external, 0, context).Ok?
    ensures !CanOverdraw([FORGET] + external)
    ensures PlanFrom([FORGET] + external, 0, context).Ok?
    ensures PlanFrom([FORGET] + external, 0, context).value.tally.externalFees == external
  {
    ForgetfulPlan(external, 0, context);
    var start := StartTally(0, context);
    var next := TallyStep(start, FORGET, 0, context).value;
    assert ([FORGET] + external)[1..] == external;
    ExternalFeesOnlyCollect(external, next, 0, context);
    assert next.externalFees + external == external;
  }

  // ----- added fees alone are not enough

  const FIXED_1000 := Component("fixed", MiscFixed, Add, 1000.0, "Fixed", true, FixedCost, PreviousTotal)
  const SHARE_120 := Component("share", EbayFeePercent, Add, 120.0, "Share", true, PercentageDeduction, SellingPrice)
  const COST_100 := Component("cost", EbayFeePercent, Add, 100.0, "Cost", true, PercentageDeduction, BaseCost)
  const PAYOUT_1000 := Component("payout", PayoneerFeePercent, Add, 1000.0, "Payout", true, PercentageDeduction, EbayPayout)
  const NOTHING := Context(0, 0, 0, None)

  lemma FallingSplit()
    ensures OnPayout([SHARE_120, COST_100, PAYOUT_1000], false) == [SHARE_120, COST_100]
    ensures OnPayout([SHARE_120, COST_100, PAYOUT_1000], true) == [PAYOUT_1000]
  {
    var external := [SHARE_120, COST_100, PAYOUT_1000];
    assert external[1..] == [COST_100, PAYOUT_1000];
    assert [COST_100, PAYOUT_1000][1..] == [PAYOUT_1000] && [PAYOUT_1000][1..] == [];
    var none: seq<Component> := [];
    assert OnPayout(none, true) == none && OnPayout(none, false) == none;
    assert OnPayout([PAYOUT_1000], false) == [] && OnPayout([PAYOUT_1000], true) == [PAYOUT_1000] + [];
    assert OnPayout([COST_100, PAYOUT_1000], false) == [COST_100] + [];
    assert OnPayout([COST_100, PAYOUT_1000], true) == [PAYOUT_1000];
  }

  lemma FallingDirectFees(cost: int)
    ensures DirectFees([SHARE_120, COST_100], cost, NOTHING).Ok?
    ensures var fees := DirectFees([SHARE_120, COST_100], cost, NOTHING).value;
            && TotalCoefficient(fees) == 1.2 && TotalConstant(fees) == cost as real
            && Payout(fees, NOTHING) == Affine(-0.2, -(cost as real))
  {
    var direct := [SHARE_120, COST_100];
    assert direct[1..] == [COST_100] && [COST_100][1..] == [];
    var share := Fee(SHARE_120, Affine(1.0, 0.0), Affine(1.2, 0.0));
    var own := Fee(COST_100, Affine(0.0, cost as real), Affine(0.0, cost as real));
    assert DirectFees([COST_100], cost, NOTHING) == Ok([own] + []);
    var fees := [share] + ([own] + []);
    assert DirectFees(direct, cost, NOTHING) == Ok(fees);
    assert fees[1..] == [own] && [own][1..] == [];
    assert TotalCoefficient([own]) == 0.0 && TotalConstant([own]) == cost as real;
    assert Payout([own], NOTHING) == Affine(1.0, -(cost as real));
  }

  lemma FallingFees(cost: int)
    ensures FeesOf([SHARE_120, COST_100, PAYOUT_1000], cost, NOTHING).Ok?
    ensures var fees := FeesOf([SHARE_120, COST_100, PAYOUT_1000], cost, NOTHING).value;
            TotalCoefficient(fees) == -0.8 && TotalConstant(fees) == -9.0 * cost as real
  {
    hide OnPayout, DirectFees, TotalCoefficient, TotalConstant, Payout;
    FallingSplit();
    FallingDirectFees(cost);
    assert [PAYOUT_1000][1..] == [];
    assert SumRates([PAYOUT_1000]) == 10.0;
    var payout := Affine(-0.2, -(cost as real));
    assert PayoutFees([], payout) == Ok([]) && FeeAmount(PAYOUT_1000, payout).Ok?;
    assert PayoutFees([PAYOUT_1000], payout).Ok?;
    FeeTotals([SHARE_120, COST_100, PAYOUT_1000], cost, NOTHING);
  }

  lemma FallingPlan(cost: int)
    requires cost >= 0
    ensures PlanFrom(FALLING, cost, NOTHING).Ok?
    ensures var plan := PlanFrom(FALLING, cost, NOTHING).value;
            ConsumedRate(plan) == -0.8 && Numerator(plan) == 100000.0 - 8.0 * cost as real
  {
    var external := [SHARE_120, COST_100, PAYOUT_1000];
    var cs := [FIXED_1000, SHARE_120, COST_100, PAYOUT_1000];
    var start := StartTally(cost, NOTHING);
    RoundInt(cost + 100000);
    assert NextTotal(FIXED_1000, cost) == Ok(cost + 100000);
    var next := TallyStep(start, FIXED_1000, cost, NOTHING).value;
    assert cs[1..] == external;
    ExternalFeesOnlyCollect(external, next, cost, NOTHING);
    assert next.externalFees + external == external;
    FallingFees(cost);
  }

  const FALLING := [FIXED_1000, SHARE_120, COST_100, PAYOUT_1000]

  lemma FallingQuote(cost: real, cents: int, price: int)
    requires cost >= 0.0 && FromDollars(cost) == cents
    requires 0 <= cents <= 1000 && Round((100000.0 - 8.0 * cents as real) / 1.8) == price
    ensures Solve(cost, ReinputFormula(FALLING), NO_CONTEXT).Ok?
    ensures var quote := Solve(cost, ReinputFormula(FALLING), NO_CONTEXT).value;
            quote.plan.components == FALLING && quote.sellingPrice == price
  {
    hide PlanFrom, Numerator, ConsumedRate, Solve;
    assert WellFormed(FALLING);
    WellFormedIsAccepted(FALLING);
    FallingPlan(cents);
    PlanKeepsComponents(FALLING, cents, NOTHING);
    SolveMeaning(cost, ReinputFormula(FALLING), NO_CONTEXT);
  }

  /**
   * No fee is subtracted, nothing can overdraw and the consumed rate is far below 1, but eBay's own fees exceed the price:
   * the payout rate is 10, the cost slope is negative, and the accepted price falls from 555.56 to 511.11 when the cost
   * rises by 10.
   */
  lemma AddedFeesCanFall()
    ensures SubtractsNoFee(FALLING) && !CanOverdraw(FALLING)
    ensures var before, after := Solve(0.0, ReinputFormula(FALLING), NO_CONTEXT), Solve(10.0, ReinputFormula(FALLING), NO_CONTEXT);
            && before.Ok? && before.value.plan.components == FALLING && before.value.sellingPrice == 55556
            && after.Ok? && after.value.sellingPrice == 51111
  {
    hide *;
    FallingOnlyAdds();
    FallsBetween();
  }

  lemma FallingOnlyAdds()
    ensures SubtractsNoFee(FALLING) && !CanOverdraw(FALLING)
  {
    SmallPercentagesNeverOverdraw(FALLING);
  }

  lemma FallsBetween()
    ensures var before, after := Solve(0.0, ReinputFormula(FALLING), NO_CONTEXT), Solve(10.0, ReinputFormula(FALLING), NO_CONTEXT);
            && before.Ok? && before.value.plan.components == FALLING && before.value.sellingPrice == 55556
            && after.Ok? && after.value.sellingPrice == 51111
  {
    hide PlanFrom, Solve, ReinputFormula;
    RoundIs(100000.0 / 1.8, 55556);
    RoundIs(92000.0 / 1.8, 51111);
    RoundIs(0.0, 0);
    RoundIs(1000.0, 1000);
    FallingQuote(0.0, 0, 55556);
    FallingQuote(10.0, 1000, 51111);
  }

  lemma RoundIs(x: real, n: int)
    requires n as real - 0.5 <= x < n as real + 0.5
    ensures Round(x) == n
  {
  }
}
