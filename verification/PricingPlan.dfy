/** The calculation plan: one pass over the components, then the affine fee expressions (bulk-pricing-formula.ts). */
module PricingPlan {
  import opened Wrappers
  import opened Cents
  import opened PricingFormula

  /** Optional amounts in dollars, as the caller gives them. */
  datatype RawContext = RawContext(
    buyerShippingCharge: Option<real>, actualShippingCost: Option<real>, salesTax: Option<real>, customBase: Option<real>)

  /** The same amounts in cents; only the custom base stays optional. */
  datatype Context = Context(buyerShipping: int, actualShipping: int, salesTax: int, customBase: Option<int>)

  datatype Role = FixedRole | FeeRole | TargetRole | MarkupRole

  datatype Line = Line(component: Component, role: Role, baseAmount: int, amount: int)

  /** What the pass over the components accumulates. */
  datatype Tally = Tally(
    previousTotal: int, markupTarget: int, marginRate: real,
    fixedLines: seq<Line>, markupLines: seq<Line>, externalFees: seq<Component>)

  /** coefficient * price + constant, in cents. */
  datatype Affine = Affine(coefficient: real, constant: real)

  datatype Fee = Fee(component: Component, base: Affine, amount: Affine)

  datatype Plan = Plan(components: seq<Component>, cost: int, context: Context, tally: Tally, fees: seq<Fee>)

  // ----- inputs

  predicate NonNegative(x: Option<real>) {
    x.Some? ==> x.value >= 0.0
  }

  function CentsOrZero(x: Option<real>): int {
    if x.Some? then FromDollars(x.value) else 0
  }

  function NormalizeContext(cost: real, raw: RawContext): Result<Context, Error> {
    if cost < 0.0 then Err(NegativeInput)
    else if !NonNegative(raw.buyerShippingCharge) || !NonNegative(raw.actualShippingCost)
            || !NonNegative(raw.salesTax) || !NonNegative(raw.customBase) then Err(NegativeInput)
    else Ok(Context(CentsOrZero(raw.buyerShippingCharge), CentsOrZero(raw.actualShippingCost), CentsOrZero(raw.salesTax),
                    if raw.customBase.Some? then Some(FromDollars(raw.customBase.value)) else None))
  }

  // ----- the running total

  function ApplyOperation(current: real, operator: Operator, operand: real): Result<real, Error> {
    match operator
    case Add => Ok(current + operand)
    case Subtract => Ok(current - operand)
    case Multiply => Ok(current * operand)
    case Divide => if operand == 0.0 then Err(DivideByZero) else Ok(current / operand)
  }

  predicate IsScaling(operator: Operator) {
    operator.Multiply? || operator.Divide?
  }

  /** A fixed cost applies its dollars to the total, or scales it by its plain value. */
  function FixedOperand(c: Component): real {
    if IsScaling(c.operator) then c.value else c.value * 100.0
  }

  /** A percentage of an amount, rounded to cents. */
  function Percent(amount: int, value: real): int {
    Round(amount as real * value / 100.0)
  }

  /** A percentage of the running total; added and subtracted percentages are rounded to cents first. */
  function PercentOperand(c: Component, before: int): real {
    if IsScaling(c.operator) then c.value / 100.0 else Percent(before, c.value) as real
  }

  function Operand(c: Component, before: int): real {
    if c.calculationType.FixedCost? then FixedOperand(c) else PercentOperand(c, before)
  }

  function NextTotal(c: Component, before: int): Result<int, Error> {
    var exact :- ApplyOperation(before as real, c.operator, Operand(c, before));
    if Round(exact) < 0 then Err(NegativeTotal(c.caption)) else Ok(Round(exact))
  }

  /** Does the component rewrite the running total? */
  predicate ChangesTotal(c: Component) {
    c.enabled && (c.calculationType.FixedCost? || (c.calculationType.PercentageDeduction? && c.base.PreviousTotal?))
  }

  predicate IsExternalFee(c: Component) {
    c.enabled && c.calculationType.PercentageDeduction? && !c.base.PreviousTotal?
  }

  predicate IsMargin(c: Component) {
    c.enabled && c.calculationType.TargetMargin?
  }

  predicate IsMarkup(c: Component) {
    c.enabled && c.calculationType.Markup?
  }

  function MarkupBase(c: Component, previousTotal: int, cost: int, context: Context): Result<int, Error> {
    match c.base
    case BaseCost => Ok(cost)
    case PreviousTotal => Ok(previousTotal)
    case CustomBase => if context.customBase.Some? then Ok(context.customBase.value) else Err(MarkupBaseInvalid)
    case _ => Err(MarkupBaseInvalid)
  }

  /** One turn of the loop over the components. */
  function TallyStep(t: Tally, c: Component, cost: int, context: Context): Result<Tally, Error> {
    if ChangesTotal(c) then
      var after :- NextTotal(c, t.previousTotal);
      Ok(t.(previousTotal := after,
            fixedLines := t.fixedLines + [Line(c, FixedRole, t.previousTotal, after - t.previousTotal)]))
    else if IsMargin(c) then
      if !c.operator.Add? || !c.base.SellingPrice? then Err(MarginNeedsAddAndSellingPrice)
      else if c.value >= 100.0 then Err(MarginTooHigh)
      else Ok(t.(marginRate := t.marginRate + c.value / 100.0))
    else if IsMarkup(c) then
      if !c.operator.Add? then Err(MarkupNeedsAdd)
      else
        var base :- MarkupBase(c, t.previousTotal, cost, context);
        Ok(t.(markupTarget := t.markupTarget + Percent(base, c.value),
              markupLines := t.markupLines + [Line(c, MarkupRole, base, Percent(base, c.value))]))
    else if c.enabled then Ok(t.(externalFees := t.externalFees + [c]))
    else Ok(t)
  }

  function TallyAll(cs: seq<Component>, t: Tally, cost: int, context: Context): Result<Tally, Error> {
    if cs == [] then Ok(t)
    else
      var next :- TallyStep(t, cs[0], cost, context);
      TallyAll(cs[1..], next, cost, context)
  }

  function StartTally(cost: int, context: Context): Tally {
    Tally(cost + context.actualShipping, 0, 0.0, [], [], [])
  }

  // ----- fees in the unknown price

  function ExternalBase(base: Base, cost: int, context: Context, payout: Option<Affine>): Result<Affine, Error> {
    match base
    case SellingPrice => Ok(Affine(1.0, 0.0))
    case ItemPrice => Ok(Affine(1.0, 0.0))
    case OrderTotal => Ok(Affine(1.0, context.buyerShipping as real))
    case SellerRevenueBeforeTax => Ok(Affine(1.0, context.buyerShipping as real))
    case OrderTotalIncludingTax => Ok(Affine(1.0, (context.buyerShipping + context.salesTax) as real))
    case BaseCost => Ok(Affine(0.0, cost as real))
    case CustomBase =>
      if context.customBase.None? then Err(CustomBaseRequired) else Ok(Affine(0.0, context.customBase.value as real))
    case EbayPayout => if payout.None? then Err(PayoutUnavailable) else Ok(payout.value)
    case PreviousTotal => Err(PreviousTotalNotExternal)
  }

  /** The signed rate of a fee. */
  function Rate(c: Component): real {
    if c.operator.Add? then c.value / 100.0 else -(c.value / 100.0)
  }

  function FeeAmount(c: Component, base: Affine): Result<Affine, Error> {
    if IsScaling(c.operator) then Err(FeeNeedsAddOrSubtract(c.caption))
    else Ok(Affine(base.coefficient * Rate(c), base.constant * Rate(c)))
  }

  function OnPayout(cs: seq<Component>, wanted: bool): seq<Component> {
    if cs == [] then []
    else if cs[0].base.EbayPayout? == wanted then [cs[0]] + OnPayout(cs[1..], wanted)
    else OnPayout(cs[1..], wanted)
  }

  function DirectFees(cs: seq<Component>, cost: int, context: Context): Result<seq<Fee>, Error> {
    if cs == [] then Ok([])
    else
      var base :- ExternalBase(cs[0].base, cost, context, None);
      var amount :- FeeAmount(cs[0], base);
      var rest :- DirectFees(cs[1..], cost, context);
      Ok([Fee(cs[0], base, amount)] + rest)
  }

  /** What eBay pays out: the order revenue without eBay's own fees. */
  function Payout(fees: seq<Fee>, context: Context): Affine {
    if fees == [] then Affine(1.0, context.buyerShipping as real)
    else
      var rest := Payout(fees[1..], context);
      if IsEbaySpecific(fees[0].component.kind)
      then Affine(rest.coefficient - fees[0].amount.coefficient, rest.constant - fees[0].amount.constant)
      else rest
  }

  function PayoutFees(cs: seq<Component>, payout: Affine): Result<seq<Fee>, Error> {
    if cs == [] then Ok([])
    else if IsEbaySpecific(cs[0].kind) then Err(PayoutOfItself(cs[0].caption))
    else
      var amount :- FeeAmount(cs[0], payout);
      var rest :- PayoutFees(cs[1..], payout);
      Ok([Fee(cs[0], payout, amount)] + rest)
  }

  function FeesOf(externalFees: seq<Component>, cost: int, context: Context): Result<seq<Fee>, Error> {
    var direct :- DirectFees(OnPayout(externalFees, false), cost, context);
    var onPayout :- PayoutFees(OnPayout(externalFees, true), Payout(direct, context));
    Ok(direct + onPayout)
  }

  /** The plan of a formula at a cost in dollars. */
  function PlanOf(cost: real, f: RawFormula, raw: RawContext): Result<Plan, Error> {
    var components :- Normalize(f);
    var context :- NormalizeContext(cost, raw);
    PlanFrom(components, FromDollars(cost), context)
  }

  function PlanFrom(components: seq<Component>, cost: int, context: Context): Result<Plan, Error> {
    var tally :- TallyAll(components, StartTally(cost, context), cost, context);
    var fees :- FeesOf(tally.externalFees, cost, context);
    Ok(Plan(components, cost, context, tally, fees))
  }

  /** The loop itself: it updates the totals in place and stops at the first component that is refused. */
  method BuildCalculationPlan(cost: real, f: RawFormula, raw: RawContext) returns (r: Result<Plan, Error>)
    ensures r == PlanOf(cost, f, raw)
  {
    var components :- Normalize(f);
    var context :- NormalizeContext(cost, raw);
    var cents := FromDollars(cost);
    var previousTotal := cents + context.actualShipping;
    var markupTarget := 0;
    var marginRate := 0.0;
    var fixedLines, markupLines, externalFees := [], [], [];
    ghost var expected := TallyAll(components, StartTally(cents, context), cents, context);
    for i := 0 to |components|
      invariant expected == TallyAll(components[i..],
                                     Tally(previousTotal, markupTarget, marginRate, fixedLines, markupLines, externalFees),
                                     cents, context)
    {
      var c := components[i];
      assert components[i..][0] == c && components[i..][1..] == components[i + 1..];
      if !c.enabled {
        continue;
      }
      if c.calculationType.FixedCost? || (c.calculationType.PercentageDeduction? && c.base.PreviousTotal?) {
        var before := previousTotal;
        var operand;
        if c.calculationType.FixedCost? {
          operand := FixedOperand(c);
        } else {
          operand := PercentOperand(c, before);
        }
        var exact :- ApplyOperation(before as real, c.operator, operand);
        previousTotal := Round(exact);
        if previousTotal < 0 {
          return Err(NegativeTotal(c.caption));
        }
        fixedLines := fixedLines + [Line(c, FixedRole, before, previousTotal - before)];
      } else if c.calculationType.TargetMargin? {
        if !c.operator.Add? || !c.base.SellingPrice? {
          return Err(MarginNeedsAddAndSellingPrice);
        }
        if c.value >= 100.0 {
          return Err(MarginTooHigh);
        }
        marginRate := marginRate + c.value / 100.0;
      } else if c.calculationType.Markup? {
        if !c.operator.Add? {
          return Err(MarkupNeedsAdd);
        }
        var base :- MarkupBase(c, previousTotal, cents, context);
        var amount := Percent(base, c.value);
        markupTarget := markupTarget + amount;
        markupLines := markupLines + [Line(c, MarkupRole, base, amount)];
      } else {
        externalFees := externalFees + [c];
      }
    }
    var tally := Tally(previousTotal, markupTarget, marginRate, fixedLines, markupLines, externalFees);
    assert components[|components|..] == [];
    assert expected == Ok(tally);
    var fees :- FeesOf(externalFees, cents, context);
    r := Ok(Plan(components, cents, context, tally, fees));
  }
}
