/**
 * What each line of a breakdown stands for: the amount it is charged on, from the order and from the lines before it, and
 * its own amount to the nearest cent (bulk-pricing-formula.ts).
 */
module PricingLines {
  import opened Wrappers
  import Cents
  import opened PricingFormula
  import opened PricingPlan
  import opened PricingSolver
  import opened PricingFees
  import Ledger = PricingLedger
  import Permutation = PricingPermutation

  /** The nearest integer, halves upward. */
  predicate Nearest(n: int, x: real) {
    n as real - 0.5 <= x < n as real + 0.5
  }

  /** The fixed costs of components earlier in the formula. */
  function FixedBefore(lines: seq<Line>, cs: seq<Component>, position: int): int {
    if lines == [] then 0
    else
      var earlier := lines[0].role.FixedRole? && Ledger.Position(lines[0].component, cs) < position;
      (if earlier then lines[0].amount else 0) + FixedBefore(lines[1..], cs, position)
  }

  /** A fixed cost in dollars, or a percentage of the running total, changes the running total and leaves it non-negative. */
  predicate FixedIsRight(line: Line, total: int) {
    var c, x, after := line.component, line.component.value, line.baseAmount + line.amount;
    && c.enabled && line.baseAmount == total && after >= 0
    && (c.calculationType.FixedCost? || (c.calculationType.PercentageDeduction? && c.base.PreviousTotal?))
    && match (c.operator, c.calculationType.FixedCost?)
       case (Add, true) => Nearest(after, total as real + 100.0 * x)
       case (Subtract, true) => Nearest(after, total as real - 100.0 * x)
       case (Multiply, true) => Nearest(after, total as real * x)
       case (Divide, true) => x != 0.0 && Nearest(after, total as real / x)
       case (Add, false) => Nearest(line.amount, total as real * x / 100.0)
       case (Subtract, false) => Nearest(-line.amount, total as real * x / 100.0)
       case (Multiply, false) => Nearest(after, total as real * (x / 100.0))
       case (Divide, false) => x != 0.0 && Nearest(after, total as real / (x / 100.0))
  }

  /** A markup is a percentage of the cost, of the running total or of the custom amount. */
  predicate MarkupIsRight(line: Line, total: int, cost: int, custom: Option<int>) {
    var c := line.component;
    && c.enabled && c.calculationType.Markup? && c.operator.Add?
    && Nearest(line.amount, line.baseAmount as real * c.value / 100.0)
    && match c.base
       case BaseCost => line.baseAmount == cost
       case PreviousTotal => line.baseAmount == total
       case CustomBase => custom == Some(line.baseAmount)
       case _ => false
  }

  /** A target margin is a percentage below 100 of the price. */
  predicate TargetIsRight(line: Line, price: int) {
    var c := line.component;
    && c.enabled && c.calculationType.TargetMargin? && c.operator.Add? && c.base.SellingPrice? && c.value < 100.0
    && line.baseAmount == price && Nearest(line.amount, price as real * c.value / 100.0)
  }

  /** A fee is an added or subtracted percentage of its part of the order, or of what eBay pays out. */
  ghost predicate FeeIsRight(line: Line, external: seq<Component>, o: Order) {
    var c := line.component;
    && c.enabled && c.calculationType.PercentageDeduction? && !c.base.PreviousTotal? && (c.operator.Add? || c.operator.Subtract?)
    && exists base: real ::
         && Nearest(line.baseAmount, base) && Nearest(line.amount, Share(c, base))
         && (if c.base.EbayPayout? then base == PaidOut(external, o) && !IsEbaySpecific(c.kind)
             else Charged(c.base, o).Some? && base == Charged(c.base, o).value as real)
  }

  ghost predicate LineIsRight(line: Line, lines: seq<Line>, plan: Plan, price: int) {
    var total := plan.cost + plan.context.actualShipping
                 + FixedBefore(lines, plan.components, Ledger.Position(line.component, plan.components));
    match line.role
    case FixedRole => FixedIsRight(line, total)
    case MarkupRole => MarkupIsRight(line, total, plan.cost, plan.context.customBase)
    case TargetRole => TargetIsRight(line, price)
    case FeeRole => FeeIsRight(line, Permutation.External(plan.components), OrderAt(price, plan.cost, plan.context))
  }

  // ----- one component

  lemma NextTotalIsRight(c: Component, total: int)
    requires ChangesTotal(c) && NextTotal(c, total).Ok?
    ensures FixedIsRight(Line(c, FixedRole, total, NextTotal(c, total).value - total), total)
  {
    hide NextTotal, FixedIsRight;
    if IsScaling(c.operator) {
      ScaledIsRight(c, total);
    } else if c.calculationType.FixedCost? {
      FixedAmountIsRight(c, total);
    } else {
      AddedShareIsRight(c, total);
    }
  }

  lemma FixedAmountIsRight(c: Component, total: int)
    requires ChangesTotal(c) && NextTotal(c, total).Ok? && c.calculationType.FixedCost? && !IsScaling(c.operator)
    ensures FixedIsRight(Line(c, FixedRole, total, NextTotal(c, total).value - total), total)
  {
    hide NextTotal, Operand;
    OperandIs(c, total);
    ResultIsNearest(c, total, 100.0 * c.value);
  }

  lemma ScaledIsRight(c: Component, total: int)
    requires ChangesTotal(c) && NextTotal(c, total).Ok? && IsScaling(c.operator)
    ensures FixedIsRight(Line(c, FixedRole, total, NextTotal(c, total).value - total), total)
  {
    hide NextTotal, Operand;
    OperandIs(c, total);
    ResultIsNearest(c, total, if c.calculationType.FixedCost? then c.value else c.value / 100.0);
  }

  lemma AddedShareIsRight(c: Component, total: int)
    requires ChangesTotal(c) && NextTotal(c, total).Ok? && !c.calculationType.FixedCost? && !IsScaling(c.operator)
    ensures FixedIsRight(Line(c, FixedRole, total, NextTotal(c, total).value - total), total)
  {
    hide NextTotal, Operand, Percent, Nearest, FixedIsRight;
    var share := Percent(total, c.value);
    AddedShare(c, total, share);
    ShareIsRight(Line(c, FixedRole, total, NextTotal(c, total).value - total), total, share);
  }

  lemma ShareIsRight(line: Line, total: int, share: int)
    requires ChangesTotal(line.component) && !line.component.calculationType.FixedCost? && !IsScaling(line.component.operator)
    requires line.baseAmount == total && line.baseAmount + line.amount >= 0
    requires Nearest(share, total as real * line.component.value / 100.0)
    requires if line.component.operator.Add? then line.amount == share else -line.amount == share
    ensures FixedIsRight(line, total)
  {
    var c := line.component;
    if c.operator.Subtract? {
      assert Nearest(-line.amount, total as real * c.value / 100.0);
    }
  }

  lemma OperandIs(c: Component, total: int)
    ensures c.calculationType.FixedCost? ==> Operand(c, total) == if IsScaling(c.operator) then c.value else 100.0 * c.value
    ensures !c.calculationType.FixedCost? && IsScaling(c.operator) ==>
              Operand(c, total) == c.value / 100.0 && (Operand(c, total) != 0.0 ==> c.value != 0.0)
  {
  }

  lemma ResultIsNearest(c: Component, total: int, operand: real)
    requires Operand(c, total) == operand && NextTotal(c, total).Ok?
    ensures var after := NextTotal(c, total).value;
            && after >= 0 && (c.operator.Divide? ==> operand != 0.0)
            && match c.operator
               case Add => Nearest(after, total as real + operand)
               case Subtract => Nearest(after, total as real - operand)
               case Multiply => Nearest(after, total as real * operand)
               case Divide => Nearest(after, total as real / operand)
  {
    hide Operand;
  }

  lemma AddedShare(c: Component, total: int, share: int)
    requires !c.calculationType.FixedCost? && !IsScaling(c.operator) && share == Percent(total, c.value) && NextTotal(c, total).Ok?
    ensures Nearest(share, total as real * c.value / 100.0)
    ensures NextTotal(c, total).value == (if c.operator.Add? then total + share else total - share) >= 0
  {
    RoundsInteger(if c.operator.Add? then total + share else total - share);
  }

  lemma RoundsInteger(n: int)
    ensures Cents.Round(n as real) == n
  {
  }

  /** Every identifier stands at its own place. */
  lemma {:induction false} PositionOf(cs: seq<Component>, i: nat)
    requires DistinctIds(cs) && i < |cs|
    ensures Ledger.Position(cs[i], cs) == i
  {
    if i > 0 {
      assert cs[1..][i - 1] == cs[i];
      PositionOf(cs[1..], i - 1);
    }
  }

  // ----- sums over lines

  lemma {:induction false} FixedBeforeAppends(xs: seq<Line>, ys: seq<Line>, cs: seq<Component>, position: int)
    ensures FixedBefore(xs + ys, cs, position) == FixedBefore(xs, cs, position) + FixedBefore(ys, cs, position)
  {
    if xs == [] {
      assert xs + ys == ys;
    } else {
      FixedBeforeAppends(xs[1..], ys, cs, position);
      assert (xs + ys)[1..] == xs[1..] + ys;
    }
  }

  lemma {:induction false} NoneBefore(lines: seq<Line>, cs: seq<Component>, position: int)
    requires forall l :: l in lines ==> !l.role.FixedRole? || Ledger.Position(l.component, cs) >= position
    ensures FixedBefore(lines, cs, position) == 0
  {
    if lines != [] {
      assert lines[0] in lines;
      NoneBefore(lines[1..], cs, position);
    }
  }

  lemma {:induction false} InsertKeepsFixed(line: Line, lines: seq<Line>, cs: seq<Component>, position: int)
    ensures FixedBefore(Insert(line, lines, cs), cs, position) == FixedBefore([line], cs, position) + FixedBefore(lines, cs, position)
  {
    FixedBeforeAppends([line], lines, cs, position);
    if lines != [] && Ledger.Position(line.component, cs) > Ledger.Position(lines[0].component, cs) {
      InsertKeepsFixed(line, lines[1..], cs, position);
      FixedBeforeAppends([lines[0]], Insert(line, lines[1..], cs), cs, position);
      FixedBeforeAppends([lines[0]], lines[1..], cs, position);
      assert [lines[0]] + lines[1..] == lines;
    }
  }

  lemma {:induction false} SortKeepsFixed(lines: seq<Line>, cs: seq<Component>, position: int)
    ensures FixedBefore(SortByFormula(lines, cs), cs, position) == FixedBefore(lines, cs, position)
  {
    if lines != [] {
      SortKeepsFixed(lines[1..], cs, position);
      InsertKeepsFixed(lines[0], SortByFormula(lines[1..], cs), cs, position);
      FixedBeforeAppends([lines[0]], lines[1..], cs, position);
      assert [lines[0]] + lines[1..] == lines;
    }
  }

  lemma {:induction false} InsertMembers(line: Line, lines: seq<Line>, cs: seq<Component>, l: Line)
    ensures l in Insert(line, lines, cs) <==> l == line || l in lines
  {
    hide FindIndex;
    if lines != [] && Ledger.Position(line.component, cs) > Ledger.Position(lines[0].component, cs) {
      InsertMembers(line, lines[1..], cs, l);
      assert lines == [lines[0]] + lines[1..];
    }
  }

  lemma {:induction false} SortMembers(lines: seq<Line>, cs: seq<Component>, l: Line)
    ensures l in SortByFormula(lines, cs) <==> l in lines
  {
    if lines != [] {
      SortMembers(lines[1..], cs, l);
      InsertMembers(lines[0], SortByFormula(lines[1..], cs), cs, l);
      assert lines == [lines[0]] + lines[1..];
    }
  }

  // ----- the pass over the components

  /** The lines that the pass has written stand for components before the next one, and are right. */
  ghost predicate TallyIsRight(t: Tally, cs: seq<Component>, i: int, start: int, cost: int, custom: Option<int>) {
    && t.previousTotal == start + FixedBefore(t.fixedLines, cs, i)
    && (forall l :: l in t.fixedLines ==>
          && l.role.FixedRole? && Ledger.Position(l.component, cs) < i
          && FixedIsRight(l, start + FixedBefore(t.fixedLines, cs, Ledger.Position(l.component, cs))))
    && (forall l :: l in t.markupLines ==>
          && l.role.MarkupRole? && Ledger.Position(l.component, cs) < i
          && MarkupIsRight(l, start + FixedBefore(t.fixedLines, cs, Ledger.Position(l.component, cs)), cost, custom))
  }

  lemma OneMoreLine(lines: seq<Line>, line: Line, cs: seq<Component>, i: int)
    requires line.role.FixedRole? && Ledger.Position(line.component, cs) == i
    requires forall l :: l in lines ==> l.role.FixedRole? && Ledger.Position(l.component, cs) < i
    ensures forall p :: p <= i ==> FixedBefore(lines + [line], cs, p) == FixedBefore(lines, cs, p)
    ensures FixedBefore(lines + [line], cs, i + 1) == FixedBefore(lines, cs, i) + line.amount
  {
    forall p
      ensures FixedBefore(lines + [line], cs, p) == FixedBefore(lines, cs, p) + (if i < p then line.amount else 0)
    {
      FixedBeforeAppends(lines, [line], cs, p);
      assert [line][1..] == [];
      assert FixedBefore([line], cs, p) == (if i < p then line.amount else 0) + FixedBefore([], cs, p);
    }
    AllBefore(lines, cs, i);
  }

  lemma {:induction false} AllBefore(lines: seq<Line>, cs: seq<Component>, i: int)
    requires forall l :: l in lines ==> l.role.FixedRole? && Ledger.Position(l.component, cs) < i
    ensures FixedBefore(lines, cs, i + 1) == FixedBefore(lines, cs, i)
  {
    if lines != [] {
      assert lines[0] in lines;
      AllBefore(lines[1..], cs, i);
    }
  }

  lemma TallyStepIsRight(t: Tally, cs: seq<Component>, i: nat, cost: int, context: Context)
    requires DistinctIds(cs) && i < |cs| && TallyIsRight(t, cs, i, cost + context.actualShipping, cost, context.customBase)
    requires TallyStep(t, cs[i], cost, context).Ok?
    ensures TallyIsRight(TallyStep(t, cs[i], cost, context).value, cs, i + 1, cost + context.actualShipping, cost, context.customBase)
  {
    hide NextTotal, FixedIsRight, FixedBefore, Ledger.Position, MarkupIsRight, MarkupBase, Percent;
    var c, start, next := cs[i], cost + context.actualShipping, TallyStep(t, cs[i], cost, context).value;
    PositionOf(cs, i);
    AllBefore(t.fixedLines, cs, i);
    if ChangesTotal(c) {
      var line := Line(c, FixedRole, t.previousTotal, next.previousTotal - t.previousTotal);
      NextTotalIsRight(c, t.previousTotal);
      OneMoreLine(t.fixedLines, line, cs, i);
    } else if IsMarkup(c) {
      NewMarkupIsRight(c, t.previousTotal, cost, context);
    }
  }

  lemma NewMarkupIsRight(c: Component, total: int, cost: int, context: Context)
    requires IsMarkup(c) && c.operator.Add? && MarkupBase(c, total, cost, context).Ok?
    ensures var base := MarkupBase(c, total, cost, context).value;
            MarkupIsRight(Line(c, MarkupRole, base, Percent(base, c.value)), total, cost, context.customBase)
  {
  }

  lemma {:induction false} TallyAllIsRight(cs: seq<Component>, i: nat, t: Tally, cost: int, context: Context)
    requires DistinctIds(cs) && i <= |cs| && TallyIsRight(t, cs, i, cost + context.actualShipping, cost, context.customBase)
    requires TallyAll(cs[i..], t, cost, context).Ok?
    ensures TallyIsRight(TallyAll(cs[i..], t, cost, context).value, cs, |cs|, cost + context.actualShipping, cost, context.customBase)
    decreases |cs| - i
  {
    hide TallyIsRight, TallyStep;
    if i < |cs| {
      assert cs[i..][1..] == cs[i + 1..];
      TallyStepIsRight(t, cs, i, cost, context);
      TallyAllIsRight(cs, i + 1, TallyStep(t, cs[i], cost, context).value, cost, context);
    }
  }

  // ----- fees and targets

  lemma FeeLineIsRight(fee: Fee, external: seq<Component>, cost: int, context: Context, price: int, k: nat)
    requires FeesOf(external, cost, context).Ok? && k < |FeesOf(external, cost, context).value|
    requires fee == FeesOf(external, cost, context).value[k]
    requires IsExternalFee(fee.component) && !IsScaling(fee.component.operator)
    ensures FeeIsRight(Line(fee.component, FeeRole, AmountAt(fee.base, price), AmountAt(fee.amount, price)), external,
                       OrderAt(price, cost, context))
  {
    hide FeesOf, PaidOut, Share, Charged, ValueAt;
    FeesAreShares(external, cost, context, price, k);
    var line := Line(fee.component, FeeRole, AmountAt(fee.base, price), AmountAt(fee.amount, price));
    assert Nearest(line.baseAmount, ValueAt(fee.base, price)) && Nearest(line.amount, Share(fee.component, ValueAt(fee.base, price)));
  }

  lemma {:induction false} FeeLinesMembers(fees: seq<Fee>, price: int, l: Line)
    requires l in FeeLines(fees, price)
    ensures exists k :: 0 <= k < |fees| && l == Line(fees[k].component, FeeRole, AmountAt(fees[k].base, price), AmountAt(fees[k].amount, price))
  {
    hide AmountAt;
    var first := Line(fees[0].component, FeeRole, AmountAt(fees[0].base, price), AmountAt(fees[0].amount, price));
    if l != first {
      FeeLinesMembers(fees[1..], price, l);
      var k :| 0 <= k < |fees[1..]| && l == Line(fees[1..][k].component, FeeRole, AmountAt(fees[1..][k].base, price), AmountAt(fees[1..][k].amount, price));
      assert fees[k + 1] == fees[1..][k];
    }
  }

  lemma {:induction false} TargetLinesAreRight(cs: seq<Component>, t: Tally, cost: int, context: Context, price: int, l: Line)
    requires TallyAll(cs, t, cost, context).Ok? && l in TargetLines(cs, price)
    ensures l.role.TargetRole? && TargetIsRight(l, price)
  {
    hide NextTotal, MarkupBase;
    if IsMargin(cs[0]) && l == Line(cs[0], TargetRole, price, Percent(price, cs[0].value)) {
    } else {
      TargetLinesAreRight(cs[1..], TallyStep(t, cs[0], cost, context).value, cost, context, price, l);
    }
  }

  lemma {:induction false} ExternalAreFees(cs: seq<Component>, c: Component)
    requires c in Permutation.External(cs)
    ensures IsExternalFee(c)
  {
    if c != cs[0] || !IsExternalFee(cs[0]) {
      ExternalAreFees(cs[1..], c);
    }
  }

  lemma {:induction false} DirectFeesAdd(cs: seq<Component>, cost: int, context: Context, k: nat)
    requires DirectFees(cs, cost, context).Ok? && k < |DirectFees(cs, cost, context).value|
    ensures var fee := DirectFees(cs, cost, context).value[k]; fee.component in cs && !IsScaling(fee.component.operator)
  {
    hide ExternalBase;
    if k > 0 {
      DirectFeesAdd(cs[1..], cost, context, k - 1);
    }
  }

  lemma {:induction false} PayoutFeesAdd(cs: seq<Component>, payout: Affine, k: nat)
    requires PayoutFees(cs, payout).Ok? && k < |PayoutFees(cs, payout).value|
    ensures var fee := PayoutFees(cs, payout).value[k]; fee.component in cs && !IsScaling(fee.component.operator)
  {
    if k > 0 {
      PayoutFeesAdd(cs[1..], payout, k - 1);
    }
  }

  lemma {:induction false} SplitIsPart(cs: seq<Component>, wanted: bool, c: Component)
    requires c in OnPayout(cs, wanted)
    ensures c in cs
  {
    if cs[0] != c {
      SplitIsPart(cs[1..], wanted, c);
    }
  }

  lemma FeesAreExternal(cs: seq<Component>, cost: int, context: Context, k: nat)
    requires FeesOf(Permutation.External(cs), cost, context).Ok? && k < |FeesOf(Permutation.External(cs), cost, context).value|
    ensures var fee := FeesOf(Permutation.External(cs), cost, context).value[k];
            IsExternalFee(fee.component) && !IsScaling(fee.component.operator)
  {
    hide DirectFees, PayoutFees, OnPayout, Permutation.External;
    var external := Permutation.External(cs);
    var direct := DirectFees(OnPayout(external, false), cost, context).value;
    var fee := FeesOf(external, cost, context).value[k];
    if k < |direct| {
      DirectFeesAdd(OnPayout(external, false), cost, context, k);
      SplitIsPart(external, false, fee.component);
    } else {
      PayoutFeesAdd(OnPayout(external, true), Payout(direct, context), k - |direct|);
      SplitIsPart(external, true, fee.component);
    }
    ExternalAreFees(cs, fee.component);
  }

  // ----- the whole breakdown

  lemma PlanExternal(plan: Plan)
    requires PlanFrom(plan.components, plan.cost, plan.context) == Ok(plan)
    ensures plan.tally.externalFees == Permutation.External(plan.components)
    ensures FeesOf(Permutation.External(plan.components), plan.cost, plan.context) == Ok(plan.fees)
  {
    hide TallyAll, FeesOf;
    var start := StartTally(plan.cost, plan.context);
    Permutation.TallyOfKept(plan.components, start, [], plan.cost, plan.context);
    assert start.externalFees + Permutation.External(plan.components) == Permutation.External(plan.components);
  }

  lemma TallyOfPlanIsRight(plan: Plan)
    requires PlanFrom(plan.components, plan.cost, plan.context) == Ok(plan) && DistinctIds(plan.components)
    ensures TallyIsRight(plan.tally, plan.components, |plan.components|, plan.cost + plan.context.actualShipping, plan.cost, plan.context.customBase)
  {
    hide FeesOf, TallyAll;
    assert plan.components[0..] == plan.components;
    TallyAllIsRight(plan.components, 0, StartTally(plan.cost, plan.context), plan.cost, plan.context);
  }

  /** Only the fixed lines are fixed costs, so the total before a component can be read off all lines. */
  lemma FixedOfAllLines(plan: Plan, price: int, position: int)
    requires PlanFrom(plan.components, plan.cost, plan.context) == Ok(plan) && DistinctIds(plan.components)
    ensures FixedBefore(UnsortedLines(plan, price), plan.components, position) == FixedBefore(plan.tally.fixedLines, plan.components, position)
  {
    hide FixedBefore, Ledger.Position, FixedIsRight, MarkupIsRight, TallyAll, FeesOf, FeeLines, TargetLines;
    TallyOfPlanIsRight(plan);
    var t, cs, fees, targets := plan.tally, plan.components, FeeLines(plan.fees, price), TargetLines(plan.components, price);
    FixedBeforeAppends(t.fixedLines + fees + t.markupLines, targets, cs, position);
    FixedBeforeAppends(t.fixedLines + fees, t.markupLines, cs, position);
    FixedBeforeAppends(t.fixedLines, fees, cs, position);
    NoneBefore(t.markupLines, cs, position);
    forall l | l in fees
      ensures l.role.FeeRole?
    {
      FeeLinesMembers(plan.fees, price, l);
    }
    NoneBefore(fees, cs, position);
    forall l | l in targets
      ensures l.role.TargetRole?
    {
      TargetLinesAreRight(cs, StartTally(plan.cost, plan.context), plan.cost, plan.context, price, l);
    }
    NoneBefore(targets, cs, position);
  }

  lemma UnsortedLineIsRight(plan: Plan, price: int, l: Line)
    requires PlanFrom(plan.components, plan.cost, plan.context) == Ok(plan) && DistinctIds(plan.components)
    requires l in UnsortedLines(plan, price)
    ensures LineIsRight(l, UnsortedLines(plan, price), plan, price)
  {
    hide FixedBefore, FixedIsRight, MarkupIsRight, TargetIsRight, FeeIsRight, TallyAll, FeesOf, FeeLines, TargetLines, Ledger.Position;
    FixedOfAllLines(plan, price, Ledger.Position(l.component, plan.components));
    TallyOfPlanIsRight(plan);
    if l in FeeLines(plan.fees, price) {
      PlanExternal(plan);
      FeeLinesMembers(plan.fees, price, l);
      var k :| 0 <= k < |plan.fees| && l == Line(plan.fees[k].component, FeeRole, AmountAt(plan.fees[k].base, price), AmountAt(plan.fees[k].amount, price));
      FeesAreExternal(plan.components, plan.cost, plan.context, k);
      FeeLineIsRight(plan.fees[k], Permutation.External(plan.components), plan.cost, plan.context, price, k);
    } else if l in TargetLines(plan.components, price) {
      TargetLinesAreRight(plan.components, StartTally(plan.cost, plan.context), plan.cost, plan.context, price, l);
    }
  }

  /**
   * In every answer of the solver each line is charged on what its component names, at this price: a fixed cost on the
   * running total of cost, shipping and the fixed lines before it, a markup on the cost, the running total or the custom
   * amount, a target on the price, a fee on its part of the order or on the payout; and its amount is right to the nearest
   * cent.
   */
  lemma LinesAreRight(cost: real, f: RawFormula, raw: RawContext)
    requires Solve(cost, f, raw).Ok?
    ensures var q := Solve(cost, f, raw).value;
            forall l :: l in q.breakdown ==> LineIsRight(l, q.breakdown, q.plan, q.sellingPrice)
  {
    hide UnsortedLines, SortByFormula, TallyAll, FeesOf, FixedBefore, SolvedPrice, FixedIsRight, MarkupIsRight, TargetIsRight, FeeIsRight;
    SolveMeaning(cost, f, raw);
    NormalizeIsWellFormed(f);
    var q := Solve(cost, f, raw).value;
    var lines := UnsortedLines(q.plan, q.sellingPrice);
    hide Solve;
    forall l | l in q.breakdown
      ensures LineIsRight(l, q.breakdown, q.plan, q.sellingPrice)
    {
      SortMembers(lines, q.plan.components, l);
      UnsortedLineIsRight(q.plan, q.sellingPrice, l);
      SortKeepsFixed(lines, q.plan.components, Ledger.Position(l.component, q.plan.components));
    }
  }
}
