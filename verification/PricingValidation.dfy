/**
 * When is it enough to validate a formula at the lowest cost (bulk-pricing-service.ts)?
 * The only failure that depends on the cost is a negative running total, and only a percentage above 100 subtracted
 * from a running total that still grows with the cost can cause it.
 */
module PricingValidation {
  import opened Wrappers
  import opened Cents
  import opened PricingFormula
  import opened PricingPlan
  import opened PricingSolver

  predicate IsPercentSubtract(c: Component) {
    c.calculationType.PercentageDeduction? && c.operator.Subtract?
  }

  predicate Overdraws(c: Component) {
    ChangesTotal(c) && IsPercentSubtract(c) && c.value > 100.0
  }

  /** The total after such a component is the same for every total before it. */
  predicate Forgets(c: Component) {
    ChangesTotal(c) && ((c.operator.Multiply? && c.value == 0.0) || (IsPercentSubtract(c) && c.value == 100.0))
  }

  /** Is there an overdrawing component with no forgetting component before it? */
  predicate CanOverdraw(cs: seq<Component>) {
    cs != [] && (Overdraws(cs[0]) || (!Forgets(cs[0]) && CanOverdraw(cs[1..])))
  }

  /** One total is ahead of the other, or they are equal where an overdraft may still come. */
  predicate Ahead(cs: seq<Component>, low: Tally, high: Tally) {
    low.previousTotal == high.previousTotal || (low.previousTotal <= high.previousTotal && !CanOverdraw(cs))
  }

  // ----- rounded arithmetic on totals

  lemma Scale(x: real, y: real, k: real)
    requires x <= y && 0.0 <= k
    ensures x * k <= y * k
  {
  }

  lemma ScaledOrder(low: int, high: int, k: real)
    requires low <= high && 0.0 <= k
    ensures Round(low as real * k) <= Round(high as real * k)
  {
    Scale(low as real, high as real, k);
    RoundMonotone(low as real * k, high as real * k);
  }

  lemma DividedOrder(low: int, high: int, k: real)
    requires low <= high && 0.0 < k
    ensures Round(low as real / k) <= Round(high as real / k)
  {
    assert low as real / k == low as real * (1.0 / k) && high as real / k == high as real * (1.0 / k);
    ScaledOrder(low, high, 1.0 / k);
  }

  lemma PercentOrder(low: int, high: int, value: real)
    requires low <= high && 0.0 <= value
    ensures Percent(low, value) <= Percent(high, value)
  {
    assert low as real * value / 100.0 == low as real * (value / 100.0);
    assert high as real * value / 100.0 == high as real * (value / 100.0);
    ScaledOrder(low, high, value / 100.0);
  }

  /** Subtracting a rounded percentage of at most 100 keeps the order. */
  lemma PercentSubtractOrder(low: int, high: int, value: real)
    requires low <= high && 0.0 <= value <= 100.0
    ensures low - Percent(low, value) <= high - Percent(high, value)
  {
    var gap := (high - low) as real;
    var part, whole := low as real * value / 100.0, gap * (value / 100.0);
    Scale(value / 100.0, 1.0, gap);
    assert whole <= gap;
    assert high as real * value / 100.0 == part + whole;
    RoundMonotone(part + whole, gap + part);
    RoundShift(high - low, part);
  }

  lemma HundredPercent(before: int)
    ensures Percent(before, 100.0) == before
  {
    assert before as real * 100.0 / 100.0 == before as real;
    RoundInt(before);
  }

  // ----- the forward direction

  lemma AddKeepsOrder(c: Component, low: int, high: int)
    requires WellTyped(c) && c.operator.Add? && low <= high
    ensures Round(low as real + Operand(c, low)) <= Round(high as real + Operand(c, high))
  {
    hide Percent;
    if !c.calculationType.FixedCost? {
      PercentOrder(low, high, c.value);
    }
    RoundMonotone(low as real + Operand(c, low), high as real + Operand(c, high));
  }

  lemma SubtractKeepsOrder(c: Component, low: int, high: int)
    requires WellTyped(c) && c.operator.Subtract? && low <= high
    requires c.calculationType.FixedCost? || c.value <= 100.0
    ensures Round(low as real - Operand(c, low)) <= Round(high as real - Operand(c, high))
  {
    hide Percent;
    if !c.calculationType.FixedCost? {
      PercentSubtractOrder(low, high, c.value);
    }
    RoundMonotone(low as real - Operand(c, low), high as real - Operand(c, high));
  }

  lemma ScalingKeepsOrder(c: Component, low: int, high: int)
    requires WellTyped(c) && IsScaling(c.operator) && low <= high
    ensures Operand(c, low) == Operand(c, high) >= 0.0
    ensures c.operator.Multiply? ==> Round(low as real * Operand(c, low)) <= Round(high as real * Operand(c, high))
    ensures c.operator.Divide? ==>
              Operand(c, low) > 0.0 && Round(low as real / Operand(c, low)) <= Round(high as real / Operand(c, high))
  {
    if c.operator.Multiply? {
      ScaledOrder(low, high, Operand(c, low));
    } else {
      DividedOrder(low, high, Operand(c, low));
    }
  }

  /** A change that does not overdraw keeps the order of two totals. */
  lemma NextTotalKeepsOrder(c: Component, low: int, high: int)
    requires WellTyped(c) && ChangesTotal(c) && !Overdraws(c)
    requires low <= high && NextTotal(c, low).Ok?
    ensures NextTotal(c, high).Ok? && NextTotal(c, low).value <= NextTotal(c, high).value
  {
    hide Operand, Round;
    if c.operator.Add? {
      AddKeepsOrder(c, low, high);
    } else if c.operator.Subtract? {
      SubtractKeepsOrder(c, low, high);
    } else {
      ScalingKeepsOrder(c, low, high);
    }
  }

  /** A step refused at no cost: it fails the same way whatever the totals are. */
  lemma TallyStepKeepsOrder(cs: seq<Component>, low: Tally, high: Tally, lowCost: int, highCost: int, context: Context)
    requires cs != [] && WellTyped(cs[0])
    requires Ahead(cs, low, high)
    requires TallyStep(low, cs[0], lowCost, context).Ok?
    ensures TallyStep(high, cs[0], highCost, context).Ok?
    ensures Ahead(cs[1..], TallyStep(low, cs[0], lowCost, context).value, TallyStep(high, cs[0], highCost, context).value)
  {
    if ChangesTotal(cs[0]) && low.previousTotal != high.previousTotal {
      NextTotalKeepsOrder(cs[0], low.previousTotal, high.previousTotal);
      if Forgets(cs[0]) && cs[0].operator.Subtract? {
        HundredPercent(low.previousTotal);
        HundredPercent(high.previousTotal);
      }
    }
  }

  /** Without an overdraft the pass that succeeds from a total succeeds from every higher one. */
  lemma {:induction false} TallyKeepsOrder(
    cs: seq<Component>, low: Tally, high: Tally, lowCost: int, highCost: int, context: Context)
    requires forall i :: 0 <= i < |cs| ==> WellTyped(cs[i])
    requires Ahead(cs, low, high)
    requires TallyAll(cs, low, lowCost, context).Ok?
    ensures TallyAll(cs, high, highCost, context).Ok?
  {
    if cs != [] {
      TallyStepKeepsOrder(cs, low, high, lowCost, highCost, context);
      TallyKeepsOrder(cs[1..], TallyStep(low, cs[0], lowCost, context).value,
                      TallyStep(high, cs[0], highCost, context).value, lowCost, highCost, context);
    }
  }

  // ----- the other direction: an overdraft shows at some cost

  lemma Above(x: real) returns (n: int)
    ensures 0 <= n && x <= n as real
  {
    n := if x <= 0.0 then 0 else x.Floor + 1;
  }

  function Scaled(b: int, k: real): real {
    b as real * k
  }

  /** Some total from which on its product with a positive factor passes the bound. */
  lemma ProductAbove(x: real, k: real) returns (n: int)
    requires k > 0.0
    ensures 0 <= n && forall b: int :: n <= b ==> x <= Scaled(b, k)
  {
    n := Above(x / k);
    forall b: int | n <= b
      ensures x <= Scaled(b, k)
    {
      Scale(x / k, b as real, k);
      assert x / k * k == x;
    }
  }

  ghost predicate GrowsPast(c: Component, n: int, bound: int) {
    forall b: int :: n <= b ==> NextTotal(c, b).Ok? && bound <= NextTotal(c, b).value
  }

  lemma RoundAbove(bound: int, x: real)
    requires bound as real <= x
    ensures bound <= Round(x)
  {
    RoundMonotone(bound as real, x);
  }

  /** Above some total, an overdrawing component makes the total negative. */
  lemma OverdraftThreshold(c: Component) returns (n: int)
    requires WellTyped(c) && Overdraws(c)
    ensures 0 <= n && forall b: int :: n <= b ==> NextTotal(c, b) == Err(NegativeTotal(c.caption))
  {
    var excess := c.value / 100.0 - 1.0;
    n := ProductAbove(2.0, excess);
    forall b: int | n <= b
      ensures NextTotal(c, b) == Err(NegativeTotal(c.caption))
    {
      var extra := Scaled(b, excess);
      assert b as real * c.value / 100.0 == b as real + extra;
      RoundAbove(b + 2, b as real + extra);
      RoundInt(b - Percent(b, c.value));
    }
  }

  lemma AddGrows(c: Component, bound: int)
    requires WellTyped(c) && ChangesTotal(c) && c.operator.Add? && 0 <= bound
    ensures GrowsPast(c, bound, bound)
  {
    forall b: int | bound <= b
      ensures NextTotal(c, b).Ok? && bound <= NextTotal(c, b).value
    {
      if !c.calculationType.FixedCost? {
        PercentOrder(0, b, c.value);
        assert Percent(0, c.value) == 0;
      }
      RoundAbove(b, b as real + Operand(c, b));
    }
  }

  lemma FixedSubtractGrows(c: Component, bound: int) returns (n: int)
    requires ChangesTotal(c) && c.operator.Subtract? && c.calculationType.FixedCost? && 0 <= bound
    ensures 0 <= n && GrowsPast(c, n, bound)
  {
    n := Above(bound as real + c.value * 100.0);
    forall b: int | n <= b
      ensures NextTotal(c, b).Ok? && bound <= NextTotal(c, b).value
    {
      RoundAbove(bound, b as real - c.value * 100.0);
    }
  }

  lemma PercentSubtractGrows(c: Component, bound: int) returns (n: int)
    requires ChangesTotal(c) && IsPercentSubtract(c) && c.value < 100.0 && 0 <= bound
    ensures 0 <= n && GrowsPast(c, n, bound)
  {
    var kept := 1.0 - c.value / 100.0;
    n := ProductAbove(bound as real + 1.0, kept);
    forall b: int | n <= b
      ensures NextTotal(c, b).Ok? && bound <= NextTotal(c, b).value
    {
      var rest := Scaled(b, kept);
      assert b as real * c.value / 100.0 == b as real - rest;
      RoundInt(b - Percent(b, c.value));
    }
  }

  lemma ScalingGrows(c: Component, bound: int) returns (n: int)
    requires WellTyped(c) && ChangesTotal(c) && IsScaling(c.operator) && !Forgets(c) && 0 <= bound
    ensures 0 <= n && GrowsPast(c, n, bound)
  {
    var k := if c.operator.Multiply? then Operand(c, 0) else 1.0 / Operand(c, 0);
    n := ProductAbove(bound as real, k);
    forall b: int | n <= b
      ensures NextTotal(c, b).Ok? && bound <= NextTotal(c, b).value
    {
      assert c.operator.Divide? ==> b as real / Operand(c, 0) == Scaled(b, k);
      RoundAbove(bound, Scaled(b, k));
    }
  }

  /** A component that neither overdraws nor forgets lets the total pass any bound. */
  lemma GrowthThreshold(c: Component, bound: int) returns (n: int)
    requires WellTyped(c) && ChangesTotal(c) && !Overdraws(c) && !Forgets(c) && 0 <= bound
    ensures 0 <= n && GrowsPast(c, n, bound)
  {
    if c.operator.Add? {
      AddGrows(c, bound);
      n := bound;
    } else if c.operator.Subtract? {
      if c.calculationType.FixedCost? {
        n := FixedSubtractGrows(c, bound);
      } else {
        n := PercentSubtractGrows(c, bound);
      }
    } else {
      n := ScalingGrows(c, bound);
    }
  }

  ghost predicate FailsAbove(cs: seq<Component>, n: int, context: Context) {
    forall t: Tally, cost: int :: n <= t.previousTotal ==>
      TallyAll(cs, t, cost, context).Err? && TallyAll(cs, t, cost, context).error.NegativeTotal?
  }

  /** A formula accepted somewhere that can overdraw is refused from every total above a threshold. */
  lemma {:induction false} OverdraftIsReached(cs: seq<Component>, t: Tally, cost: int, context: Context) returns (n: int)
    requires forall i :: 0 <= i < |cs| ==> WellTyped(cs[i])
    requires CanOverdraw(cs) && TallyAll(cs, t, cost, context).Ok?
    ensures 0 <= n && FailsAbove(cs, n, context)
  {
    if Overdraws(cs[0]) {
      n := OverdraftThreshold(cs[0]);
    } else {
      var bound := OverdraftIsReached(cs[1..], TallyStep(t, cs[0], cost, context).value, cost, context);
      if ChangesTotal(cs[0]) {
        n := GrowthThreshold(cs[0], bound);
      } else {
        n := bound;
      }
      forall u: Tally, dear: int | n <= u.previousTotal
        ensures TallyAll(cs, u, dear, context).Err? && TallyAll(cs, u, dear, context).error.NegativeTotal?
      {
        assert TallyStep(u, cs[0], dear, context).Ok?;
        assert bound <= TallyStep(u, cs[0], dear, context).value.previousTotal;
      }
    }
  }

  // ----- the validation rule

  /** Accepted, or refused only because the price passes the cap. */
  predicate AcceptedUpToCap(cost: real, f: RawFormula, raw: RawContext) {
    Solve(cost, f, raw).Ok? || Solve(cost, f, raw).error.OutOfRange?
  }

  /** Acceptance is decided by the plan alone. */
  lemma Outcome(cost: real, f: RawFormula, raw: RawContext)
    ensures AcceptedUpToCap(cost, f, raw) <==> PlanOf(cost, f, raw).Ok? && ConsumedRate(PlanOf(cost, f, raw).value) < 1.0
    ensures Solve(cost, f, raw).Ok? ==>
              AcceptedUpToCap(cost, f, raw) && Solve(cost, f, raw).value.plan == PlanOf(cost, f, raw).value
  {
    SolveMeaning(cost, f, raw);
    PlanNeverOutOfRange(cost, f, raw);
  }

  lemma PlanNeverOutOfRange(cost: real, f: RawFormula, raw: RawContext)
    ensures PlanOf(cost, f, raw).Err? ==> !PlanOf(cost, f, raw).error.OutOfRange?
  {
    if Normalize(f).Ok? && NormalizeContext(cost, raw).Ok? {
      var cs, cents, context := Normalize(f).value, FromDollars(cost), NormalizeContext(cost, raw).value;
      TallyNeverOutOfRange(cs, StartTally(cents, context), cents, context);
      if TallyAll(cs, StartTally(cents, context), cents, context).Ok? {
        var fees := TallyAll(cs, StartTally(cents, context), cents, context).value.externalFees;
        DirectFeesNeverOutOfRange(OnPayout(fees, false), cents, context);
        if DirectFees(OnPayout(fees, false), cents, context).Ok? {
          PayoutFeesNeverOutOfRange(
            OnPayout(fees, true), Payout(DirectFees(OnPayout(fees, false), cents, context).value, context));
        }
      }
    } else if Normalize(f).Err? {
      NormalizeNeverOutOfRange(f.components, {}, f.version == 1);
    }
  }

  lemma NormalizeNeverOutOfRange(cs: seq<RawComponent>, seen: set<string>, legacy: bool)
    ensures NormalizeComponents(cs, seen, legacy).Err? ==> !NormalizeComponents(cs, seen, legacy).error.OutOfRange?
  {
  }

  lemma TallyNeverOutOfRange(cs: seq<Component>, t: Tally, cost: int, context: Context)
    ensures TallyAll(cs, t, cost, context).Err? ==> !TallyAll(cs, t, cost, context).error.OutOfRange?
  {
  }

  lemma DirectFeesNeverOutOfRange(cs: seq<Component>, cost: int, context: Context)
    ensures DirectFees(cs, cost, context).Err? ==> !DirectFees(cs, cost, context).error.OutOfRange?
  {
  }

  lemma PayoutFeesNeverOutOfRange(cs: seq<Component>, payout: Affine)
    ensures PayoutFees(cs, payout).Err? ==> !PayoutFees(cs, payout).error.OutOfRange?
  {
  }

  lemma FeesDoNotDependOnCost(fees: seq<Component>, low: int, high: int, context: Context)
    ensures FeesOf(fees, low, context).Ok? <==> FeesOf(fees, high, context).Ok?
    ensures FeesOf(fees, low, context).Ok? ==>
              TotalCoefficient(FeesOf(fees, low, context).value) == TotalCoefficient(FeesOf(fees, high, context).value)
  {
    var direct, onPayout := OnPayout(fees, false), OnPayout(fees, true);
    DirectFeesDoNotDependOnCost(direct, low, high, context);
    if DirectFees(direct, low, context).Ok? {
      var lowFees, highFees := DirectFees(direct, low, context).value, DirectFees(direct, high, context).value;
      PayoutFeesDoNotDependOnCost(onPayout, Payout(lowFees, context), Payout(highFees, context));
      if PayoutFees(onPayout, Payout(lowFees, context)).Ok? {
        TotalsOfConcatenation(lowFees, PayoutFees(onPayout, Payout(lowFees, context)).value);
        TotalsOfConcatenation(highFees, PayoutFees(onPayout, Payout(highFees, context)).value);
      }
    }
  }

  lemma {:induction false} DirectFeesDoNotDependOnCost(fees: seq<Component>, low: int, high: int, context: Context)
    ensures DirectFees(fees, low, context).Ok? <==> DirectFees(fees, high, context).Ok?
    ensures DirectFees(fees, low, context).Ok? ==>
              var lowFees, highFees := DirectFees(fees, low, context).value, DirectFees(fees, high, context).value;
              && TotalCoefficient(lowFees) == TotalCoefficient(highFees)
              && Payout(lowFees, context).coefficient == Payout(highFees, context).coefficient
  {
    if fees != [] {
      DirectFeesDoNotDependOnCost(fees[1..], low, high, context);
    }
  }

  lemma {:induction false} PayoutFeesDoNotDependOnCost(fees: seq<Component>, low: Affine, high: Affine)
    requires low.coefficient == high.coefficient
    ensures PayoutFees(fees, low).Ok? <==> PayoutFees(fees, high).Ok?
    ensures PayoutFees(fees, low).Ok? ==>
              TotalCoefficient(PayoutFees(fees, low).value) == TotalCoefficient(PayoutFees(fees, high).value)
  {
    if fees != [] {
      PayoutFeesDoNotDependOnCost(fees[1..], low, high);
    }
  }

  lemma {:induction false} TotalsOfConcatenation(xs: seq<Fee>, ys: seq<Fee>)
    ensures TotalCoefficient(xs + ys) == TotalCoefficient(xs) + TotalCoefficient(ys)
    ensures TotalConstant(xs + ys) == TotalConstant(xs) + TotalConstant(ys)
  {
    if xs == [] {
      assert xs + ys == ys;
    } else {
      TotalsOfConcatenation(xs[1..], ys);
      assert (xs + ys)[1..] == xs[1..] + ys;
    }
  }

  /** The pass keeps the margin rate and the external fees whatever the costs are. */
  lemma {:induction false} TallyKeepsFees(
    cs: seq<Component>, low: Tally, high: Tally, lowCost: int, highCost: int, context: Context)
    requires low.marginRate == high.marginRate && low.externalFees == high.externalFees
    requires TallyAll(cs, low, lowCost, context).Ok? && TallyAll(cs, high, highCost, context).Ok?
    ensures var a, b := TallyAll(cs, low, lowCost, context).value, TallyAll(cs, high, highCost, context).value;
            a.marginRate == b.marginRate && a.externalFees == b.externalFees
  {
    if cs != [] {
      TallyKeepsFees(cs[1..], TallyStep(low, cs[0], lowCost, context).value,
                     TallyStep(high, cs[0], highCost, context).value, lowCost, highCost, context);
    }
  }

  lemma PlanAtHigherCost(cs: seq<Component>, low: int, high: int, context: Context)
    requires WellFormed(cs) && low <= high && !CanOverdraw(cs) && PlanFrom(cs, low, context).Ok?
    ensures PlanFrom(cs, high, context).Ok?
    ensures ConsumedRate(PlanFrom(cs, low, context).value) == ConsumedRate(PlanFrom(cs, high, context).value)
  {
    TallyKeepsOrder(cs, StartTally(low, context), StartTally(high, context), low, high, context);
    TallyKeepsFees(cs, StartTally(low, context), StartTally(high, context), low, high, context);
    FeesDoNotDependOnCost(PlanFrom(cs, low, context).value.tally.externalFees, low, high, context);
  }

  lemma AcceptedAtHigherCost(low: real, high: real, f: RawFormula, raw: RawContext)
    requires Solve(low, f, raw).Ok? && low <= high
    requires !CanOverdraw(Solve(low, f, raw).value.plan.components)
    ensures AcceptedUpToCap(high, f, raw)
  {
    Outcome(low, f, raw);
    Outcome(high, f, raw);
    NormalizeIsWellFormed(f);
    RoundMonotone(low * 100.0, high * 100.0);
    PlanAtHigherCost(Normalize(f).value, FromDollars(low), FromDollars(high), NormalizeContext(low, raw).value);
  }

  lemma RefusedAtSomeCost(low: real, f: RawFormula, raw: RawContext) returns (high: real)
    requires Solve(low, f, raw).Ok?
    requires CanOverdraw(Solve(low, f, raw).value.plan.components)
    ensures low <= high && !AcceptedUpToCap(high, f, raw)
  {
    Outcome(low, f, raw);
    NormalizeIsWellFormed(f);
    var plan := PlanOf(low, f, raw).value;
    var n := OverdraftIsReached(plan.components, StartTally(plan.cost, plan.context), plan.cost, plan.context);
    var wanted := n - plan.context.actualShipping;
    high := if low <= ToDollars(wanted) then ToDollars(wanted) else low;
    RoundTripDollars(wanted);
    RoundMonotone(ToDollars(wanted) * 100.0, high * 100.0);
    Outcome(high, f, raw);
    assert n <= StartTally(FromDollars(high), plan.context).previousTotal;
  }

  /**
   * For a formula accepted at the lowest cost: it is accepted at every higher cost (as long as the price stays under
   * the cap) if and only if no percentage above 100 is subtracted from a running total that was not forgotten before.
   */
  lemma LowestCostDecides(low: real, f: RawFormula, raw: RawContext)
    requires Solve(low, f, raw).Ok?
    ensures (forall high: real :: low <= high ==> AcceptedUpToCap(high, f, raw))
            <==> !CanOverdraw(Solve(low, f, raw).value.plan.components)
  {
    if !CanOverdraw(Solve(low, f, raw).value.plan.components) {
      forall high: real | low <= high
        ensures AcceptedUpToCap(high, f, raw)
      {
        AcceptedAtHigherCost(low, high, f, raw);
      }
    } else {
      var high := RefusedAtSomeCost(low, f, raw);
    }
  }

  /** The caller's rule of thumb: percentages of at most 100 never overdraw. */
  lemma {:induction false} SmallPercentagesNeverOverdraw(cs: seq<Component>)
    requires forall i :: 0 <= i < |cs| && ChangesTotal(cs[i]) && IsPercentSubtract(cs[i]) ==> cs[i].value <= 100.0
    ensures !CanOverdraw(cs)
  {
    if cs != [] {
      SmallPercentagesNeverOverdraw(cs[1..]);
    }
  }

  datatype Row = Row(number: int, cost: real)

  /** The row whose cost a new job validates: the first one with the lowest cost. */
  method LowestRow(rows: seq<Row>) returns (lowest: Row)
    requires rows != []
    ensures lowest in rows && forall i :: 0 <= i < |rows| ==> lowest.cost <= rows[i].cost
  {
    lowest := rows[0];
    for i := 1 to |rows|
      invariant lowest in rows && forall j :: 0 <= j < i ==> lowest.cost <= rows[j].cost
    {
      if rows[i].cost < lowest.cost {
        lowest := rows[i];
      }
    }
  }

  const NO_CONTEXT := RawContext(None, None, None, None)

  /** Validation of a new job: an accepted job has no row that its formula refuses below the cap, unless it can overdraw. */
  method ValidateJob(rows: seq<Row>, f: RawFormula) returns (r: Result<Row, Error>)
    ensures rows == [] ==> r == Err(NoRows)
    ensures r.Ok? ==> r.value in rows && Solve(r.value.cost, f, NO_CONTEXT).Ok?
    ensures r.Ok? && !CanOverdraw(Solve(r.value.cost, f, NO_CONTEXT).value.plan.components)
            ==> forall i :: 0 <= i < |rows| ==> AcceptedUpToCap(rows[i].cost, f, NO_CONTEXT)
    ensures r.Err? && rows != [] ==> exists i :: 0 <= i < |rows| && Solve(rows[i].cost, f, NO_CONTEXT) == Err(r.error)
  {
    if rows == [] {
      return Err(NoRows);
    }
    var row := LowestRow(rows);
    var quote := Solve(row.cost, f, NO_CONTEXT);
    if quote.Err? {
      return Err(quote.error);
    }
    LowestCostDecides(row.cost, f, NO_CONTEXT);
    r := Ok(row);
  }

  const RAW_150 := RawComponent("x", CustomPercent, Subtract, 150.0, None, true, None, Some(PreviousTotal))
  const SUBTRACT_150 := Component("x", CustomPercent, Subtract, 150.0, "Custom percentage", true, PercentageDeduction, PreviousTotal)
  const FORMULA_150 := RawFormula(2, [RAW_150])

  lemma NormalizeSubtract150()
    ensures Normalize(FORMULA_150) == Ok([SUBTRACT_150])
  {
    var raw := FORMULA_150.components;
    assert raw[0] == RAW_150 && raw[1..] == [];
    assert SchemaAccepts(RAW_150) && FormulaSchemaAccepts(FORMULA_150);
    assert Fill(RAW_150, false) == SUBTRACT_150;
    assert NormalizeComponents(raw[1..], {} + {"x"}, false) == Ok([]);
    assert [SUBTRACT_150] + [] == [SUBTRACT_150];
  }

  lemma PlanSubtract150(cost: int, context: Context)
    requires context == Context(0, 0, 0, None) && (cost == 0 || cost == 1000)
    ensures if cost == 0
            then PlanFrom([SUBTRACT_150], cost, context).Ok?
                 && PriceOf(PlanFrom([SUBTRACT_150], cost, context).value) == Ok(0)
            else PlanFrom([SUBTRACT_150], cost, context) == Err(NegativeTotal("Custom percentage"))
  {
    var c, start := SUBTRACT_150, StartTally(cost, context);
    assert [c][1..] == [];
    assert Percent(0, 150.0) == 0 && Percent(1000, 150.0) == 1500;
    if cost == 0 {
      assert NextTotal(c, 0) == Ok(0);
      var next := TallyStep(start, c, cost, context).value;
      assert TallyAll([c], start, cost, context) == TallyAll([], next, cost, context) == Ok(next);
      var none: seq<Fee> := [];
      assert next.externalFees == [] && none + none == none && FeesOf([], cost, context) == Ok(none);
      var plan := Plan([c], cost, context, next, []);
      assert PlanFrom([c], cost, context) == Ok(plan);
      assert plan.fees == [] && Numerator(plan) == 0.0 && ConsumedRate(plan) == 0.0;
    } else {
      assert NextTotal(c, 1000) == Err(NegativeTotal(c.caption));
      assert TallyStep(start, c, cost, context) == Err(NegativeTotal(c.caption));
    }
  }

  /** Subtracting 150% of the running total passes at cost 0 and fails at cost 10. */
  lemma LowestCostCanMislead()
    ensures Solve(0.0, FORMULA_150, NO_CONTEXT).Ok? && !AcceptedUpToCap(10.0, FORMULA_150, NO_CONTEXT)
  {
    NormalizeSubtract150();
    PlanSubtract150(0, Context(0, 0, 0, None));
    PlanSubtract150(1000, Context(0, 0, 0, None));
    SolveMeaning(0.0, FORMULA_150, NO_CONTEXT);
    Outcome(10.0, FORMULA_150, NO_CONTEXT);
  }
}
