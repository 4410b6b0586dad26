/** Breakdown, net profit and the solved selling price (bulk-pricing-formula.ts). */
module PricingSolver {
  import opened Wrappers
  import opened Cents
  import opened PricingFormula
  import opened PricingPlan

  const PRICE_CAP := 10000000000

  /** The parts of the solver's answer that are amounts of money. */
  datatype Quote = Quote(
    plan: Plan, sellingPrice: int, orderRevenue: int, totalPercentageFees: int,
    targetProfit: int, netProfit: int, expenseImpact: int, breakdown: seq<Line>)

  function ValueAt(e: Affine, price: int): real {
    e.coefficient * price as real + e.constant
  }

  /** An expression at a price, rounded to cents on its own. */
  function AmountAt(e: Affine, price: int): int {
    Round(ValueAt(e, price))
  }

  function TotalFees(fees: seq<Fee>, price: int): int {
    if fees == [] then 0 else AmountAt(fees[0].amount, price) + TotalFees(fees[1..], price)
  }

  function TotalCoefficient(fees: seq<Fee>): real {
    if fees == [] then 0.0 else fees[0].amount.coefficient + TotalCoefficient(fees[1..])
  }

  function TotalConstant(fees: seq<Fee>): real {
    if fees == [] then 0.0 else fees[0].amount.constant + TotalConstant(fees[1..])
  }

  // ----- breakdown

  function FeeLines(fees: seq<Fee>, price: int): seq<Line> {
    if fees == [] then []
    else [Line(fees[0].component, FeeRole, AmountAt(fees[0].base, price), AmountAt(fees[0].amount, price))]
         + FeeLines(fees[1..], price)
  }

  function TargetLines(cs: seq<Component>, price: int): seq<Line> {
    if cs == [] then []
    else if IsMargin(cs[0]) then [Line(cs[0], TargetRole, price, Percent(price, cs[0].value))] + TargetLines(cs[1..], price)
    else TargetLines(cs[1..], price)
  }

  /** The index of a component's identifier, or -1. */
  function FindIndex(cs: seq<Component>, id: string): int {
    if cs == [] then -1
    else if cs[0].id == id then 0
    else
      var rest := FindIndex(cs[1..], id);
      if rest < 0 then -1 else rest + 1
  }

  function Insert(line: Line, sorted: seq<Line>, cs: seq<Component>): seq<Line> {
    if sorted == [] then [line]
    else if FindIndex(cs, line.component.id) <= FindIndex(cs, sorted[0].component.id) then [line] + sorted
    else [sorted[0]] + Insert(line, sorted[1..], cs)
  }

  /** The stable sort by position in the formula. */
  function SortByFormula(lines: seq<Line>, cs: seq<Component>): seq<Line> {
    if lines == [] then [] else Insert(lines[0], SortByFormula(lines[1..], cs), cs)
  }

  function UnsortedLines(plan: Plan, price: int): seq<Line> {
    plan.tally.fixedLines + FeeLines(plan.fees, price) + plan.tally.markupLines + TargetLines(plan.components, price)
  }

  function FeeBreakdown(priceInput: real, cost: real, f: RawFormula, raw: RawContext): Result<seq<Line>, Error> {
    var plan :- PlanOf(cost, f, raw);
    if priceInput < 0.0 then Err(NegativeInput)
    else Ok(SortByFormula(UnsortedLines(plan, FromDollars(priceInput)), plan.components))
  }

  function SumRole(lines: seq<Line>, role: Role): int {
    if lines == [] then 0 else (if lines[0].role == role then lines[0].amount else 0) + SumRole(lines[1..], role)
  }

  // ----- profit and price

  function ProfitAt(plan: Plan, price: int): int {
    price + plan.context.buyerShipping - plan.tally.previousTotal - TotalFees(plan.fees, price)
  }

  function NetProfit(priceInput: real, cost: real, f: RawFormula, raw: RawContext): Result<int, Error> {
    var plan :- PlanOf(cost, f, raw);
    Ok(ProfitAt(plan, FromDollars(priceInput)))
  }

  function ConsumedRate(plan: Plan): real {
    TotalCoefficient(plan.fees) + plan.tally.marginRate
  }

  function Numerator(plan: Plan): real {
    (plan.tally.previousTotal + plan.tally.markupTarget) as real + TotalConstant(plan.fees)
    - plan.context.buyerShipping as real
  }

  function SolvedPrice(plan: Plan): int
    requires ConsumedRate(plan) < 1.0
  {
    var exact := Numerator(plan) / (1.0 - ConsumedRate(plan));
    Round(if exact < 0.0 then 0.0 else exact)
  }

  function TargetProfit(plan: Plan, price: int): int {
    Round(price as real * plan.tally.marginRate + plan.tally.markupTarget as real)
  }

  function PriceOf(plan: Plan): Result<int, Error> {
    if ConsumedRate(plan) >= 1.0 then Err(RatesConsumePrice)
    else if SolvedPrice(plan) > PRICE_CAP then Err(OutOfRange)
    else Ok(SolvedPrice(plan))
  }

  /** The solver hands its own normalized formula to the breakdown and to the profit, which plan again. */
  function Solve(cost: real, f: RawFormula, raw: RawContext): Result<Quote, Error> {
    var plan :- PlanOf(cost, f, raw);
    var price :- PriceOf(plan);
    var again := ReinputFormula(plan.components);
    var breakdown :- FeeBreakdown(ToDollars(price), cost, again, raw);
    var netProfit :- NetProfit(ToDollars(price), cost, again, raw);
    var totalPercentageFees := SumRole(breakdown, FeeRole);
    Ok(Quote(plan, price, price + plan.context.buyerShipping, totalPercentageFees,
             TargetProfit(plan, price), netProfit,
             plan.tally.previousTotal - plan.cost + totalPercentageFees, breakdown))
  }

  // ----- the second planning is the first one

  lemma PriceIsNonNegative(plan: Plan)
    requires ConsumedRate(plan) < 1.0
    ensures SolvedPrice(plan) >= 0
  {
  }

  lemma ReplanIsSamePlan(cost: real, f: RawFormula, raw: RawContext)
    requires PlanOf(cost, f, raw).Ok?
    ensures PlanOf(cost, ReinputFormula(PlanOf(cost, f, raw).value.components), raw) == PlanOf(cost, f, raw)
  {
    NormalizeIdempotent(f);
  }

  /** The solver succeeds exactly when planning and pricing do; its lines and profit are those of the one plan. */
  lemma SolveMeaning(cost: real, f: RawFormula, raw: RawContext)
    ensures Solve(cost, f, raw).Ok? <==> PlanOf(cost, f, raw).Ok? && PriceOf(PlanOf(cost, f, raw).value).Ok?
    ensures PlanOf(cost, f, raw).Err? ==> Solve(cost, f, raw).error == PlanOf(cost, f, raw).error
    ensures PlanOf(cost, f, raw).Ok? && PriceOf(PlanOf(cost, f, raw).value).Err?
            ==> Solve(cost, f, raw).error == PriceOf(PlanOf(cost, f, raw).value).error
    ensures Solve(cost, f, raw).Ok? ==>
              var q := Solve(cost, f, raw).value;
              && q.plan == PlanOf(cost, f, raw).value
              && ConsumedRate(q.plan) < 1.0 && q.sellingPrice == SolvedPrice(q.plan)
              && q.netProfit == ProfitAt(q.plan, q.sellingPrice)
              && q.breakdown == SortByFormula(UnsortedLines(q.plan, q.sellingPrice), q.plan.components)
  {
    if PlanOf(cost, f, raw).Ok? {
      ReplanIsSamePlan(cost, f, raw);
      var plan := PlanOf(cost, f, raw).value;
      if PriceOf(plan).Ok? {
        var price := PriceOf(plan).value;
        PriceIsNonNegative(plan);
        RoundTripDollars(price);
        assert ToDollars(price) >= 0.0;
      }
    }
  }
}
