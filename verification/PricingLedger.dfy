/** The breakdown is a ledger: every enabled component once, in formula order, and the cents add up. */
module PricingLedger {
  import opened Wrappers
  import opened Cents
  import opened PricingFormula
  import opened PricingPlan
  import opened PricingSolver
  import PricingValidation

  function Enabled(cs: seq<Component>): seq<Component> {
    if cs == [] then []
    else if cs[0].enabled then [cs[0]] + Enabled(cs[1..])
    else Enabled(cs[1..])
  }

  /** The components that the lines charge for, line by line. */
  function Charged(lines: seq<Line>): seq<Component> {
    if lines == [] then [] else [lines[0].component] + Charged(lines[1..])
  }

  function Position(c: Component, cs: seq<Component>): int {
    FindIndex(cs, c.id)
  }

  /** Nothing comes before a component of an earlier position. */
  predicate InOrder(xs: seq<Component>, cs: seq<Component>) {
    xs == [] || ((forall x :: x in xs[1..] ==> Position(xs[0], cs) <= Position(x, cs)) && InOrder(xs[1..], cs))
  }

  // ----- the sort keeps the lines and orders them

  lemma {:induction false} InsertCharges(line: Line, lines: seq<Line>, cs: seq<Component>)
    ensures multiset(Charged(Insert(line, lines, cs))) == multiset{line.component} + multiset(Charged(lines))
  {
    hide FindIndex;
    if lines == [] {
      assert Charged([line]) == [line.component];
    } else if FindIndex(cs, line.component.id) <= FindIndex(cs, lines[0].component.id) {
      assert ([line] + lines)[1..] == lines;
    } else {
      InsertCharges(line, lines[1..], cs);
      assert ([lines[0]] + Insert(line, lines[1..], cs))[1..] == Insert(line, lines[1..], cs);
    }
  }

  lemma Prepend(c: Component, xs: seq<Component>, cs: seq<Component>)
    requires InOrder(xs, cs) && forall x :: x in xs ==> Position(c, cs) <= Position(x, cs)
    ensures InOrder([c] + xs, cs)
  {
    assert ([c] + xs)[1..] == xs;
  }

  lemma {:induction false} InsertOrders(line: Line, lines: seq<Line>, cs: seq<Component>)
    requires InOrder(Charged(lines), cs)
    ensures InOrder(Charged(Insert(line, lines, cs)), cs)
  {
    hide FindIndex;
    if lines == [] {
      assert Charged([line]) == [line.component];
    } else {
      assert Charged(lines)[1..] == Charged(lines[1..]) && Charged(lines)[0] == lines[0].component;
      if Position(line.component, cs) <= Position(lines[0].component, cs) {
        assert ([line] + lines)[1..] == lines;
        Prepend(line.component, Charged(lines), cs);
      } else {
        var rest := Insert(line, lines[1..], cs);
        InsertOrders(line, lines[1..], cs);
        InsertCharges(line, lines[1..], cs);
        assert ([lines[0]] + rest)[1..] == rest;
        forall x | x in Charged(rest)
          ensures Position(lines[0].component, cs) <= Position(x, cs)
        {
          assert x in multiset(Charged(rest));
        }
        Prepend(lines[0].component, Charged(rest), cs);
      }
    }
  }

  lemma {:induction false} InsertSums(line: Line, lines: seq<Line>, cs: seq<Component>, role: Role)
    ensures SumRole(Insert(line, lines, cs), role) == (if line.role == role then line.amount else 0) + SumRole(lines, role)
  {
    hide FindIndex;
    if lines == [] {
    } else if Position(line.component, cs) <= Position(lines[0].component, cs) {
      assert ([line] + lines)[1..] == lines;
    } else {
      InsertSums(line, lines[1..], cs, role);
      assert ([lines[0]] + Insert(line, lines[1..], cs))[1..] == Insert(line, lines[1..], cs);
    }
  }

  lemma {:induction false} SortCharges(lines: seq<Line>, cs: seq<Component>)
    ensures multiset(Charged(SortByFormula(lines, cs))) == multiset(Charged(lines))
    ensures InOrder(Charged(SortByFormula(lines, cs)), cs)
  {
    if lines != [] {
      SortCharges(lines[1..], cs);
      InsertCharges(lines[0], SortByFormula(lines[1..], cs), cs);
      InsertOrders(lines[0], SortByFormula(lines[1..], cs), cs);
    }
  }

  lemma {:induction false} SortSums(lines: seq<Line>, cs: seq<Component>, role: Role)
    ensures SumRole(SortByFormula(lines, cs), role) == SumRole(lines, role)
  {
    if lines != [] {
      SortSums(lines[1..], cs, role);
      InsertSums(lines[0], SortByFormula(lines[1..], cs), cs, role);
    }
  }

  // ----- in order and complete means equal

  lemma {:induction false} EnabledAreListed(cs: seq<Component>, x: Component)
    requires x in Enabled(cs)
    ensures x in cs && x.enabled && Position(x, cs) >= 0
  {
    if cs[0].enabled && x == cs[0] {
    } else {
      EnabledAreListed(cs[1..], x);
    }
  }

  lemma {:induction false} ShiftOrder(xs: seq<Component>, cs: seq<Component>)
    requires cs != [] && InOrder(xs, cs)
    requires forall x :: x in xs ==> x.id != cs[0].id && Position(x, cs[1..]) >= 0
    ensures InOrder(xs, cs[1..])
  {
    if xs != [] {
      ShiftOrder(xs[1..], cs);
    }
  }

  lemma OtherIds(cs: seq<Component>, x: Component)
    requires cs != [] && DistinctIds(cs) && x in Enabled(cs[1..])
    ensures x.id != cs[0].id && Position(x, cs[1..]) >= 0
  {
    EnabledAreListed(cs[1..], x);
    var i :| 0 <= i < |cs[1..]| && cs[1..][i] == x;
    assert cs[i + 1] == x;
  }

  lemma FirstComesFirst(xs: seq<Component>, cs: seq<Component>)
    requires cs != [] && cs[0].enabled && DistinctIds(cs) && InOrder(xs, cs)
    requires multiset(xs) == multiset(Enabled(cs))
    ensures xs != [] && xs[0] == cs[0]
  {
    assert cs[0] in multiset(Enabled(cs));
    assert cs[0] in xs;
    assert Position(cs[0], cs) == 0;
    assert xs[0] in multiset(xs);
    assert xs[0] in Enabled(cs);
    assert xs[0] != cs[0] ==> cs[0] in xs[1..];
    if xs[0] != cs[0] {
      OtherIds(cs, xs[0]);
      assert false;
    }
  }

  lemma DropOne(c: Component, xs: multiset<Component>, ys: multiset<Component>)
    requires multiset{c} + xs == multiset{c} + ys
    ensures xs == ys
  {
    assert xs == multiset{c} + xs - multiset{c};
  }

  lemma {:induction false} InOrderIsUnique(xs: seq<Component>, cs: seq<Component>)
    requires DistinctIds(cs) && InOrder(xs, cs)
    requires multiset(xs) == multiset(Enabled(cs))
    ensures xs == Enabled(cs)
  {
    if cs == [] {
      assert |multiset(xs)| == |xs|;
    } else {
      var rest := xs;
      if cs[0].enabled {
        FirstComesFirst(xs, cs);
        rest := xs[1..];
        assert xs == [cs[0]] + rest;
        assert multiset(xs) == multiset{cs[0]} + multiset(rest);
        assert multiset(Enabled(cs)) == multiset{cs[0]} + multiset(Enabled(cs[1..]));
        DropOne(cs[0], multiset(rest), multiset(Enabled(cs[1..])));
      }
      assert multiset(rest) == multiset(Enabled(cs[1..]));
      forall x | x in rest
        ensures x.id != cs[0].id && Position(x, cs[1..]) >= 0
      {
        assert x in multiset(rest);
        OtherIds(cs, x);
      }
      ShiftOrder(rest, cs);
      InOrderIsUnique(rest, cs[1..]);
    }
  }

  // ----- the four groups of lines cover the enabled components

  lemma {:induction false} ChargedAppends(xs: seq<Line>, ys: seq<Line>)
    ensures Charged(xs + ys) == Charged(xs) + Charged(ys)
  {
    if xs == [] {
      assert xs + ys == ys;
    } else {
      ChargedAppends(xs[1..], ys);
      assert (xs + ys)[1..] == xs[1..] + ys;
    }
  }

  lemma {:induction false} FeeLinesCharge(fees: seq<Fee>, price: int)
    ensures Charged(FeeLines(fees, price)) == FeeComponents(fees)
  {
    if fees != [] {
      FeeLinesCharge(fees[1..], price);
    }
  }

  function FeeComponents(fees: seq<Fee>): seq<Component> {
    if fees == [] then [] else [fees[0].component] + FeeComponents(fees[1..])
  }

  lemma {:induction false} FeeComponentsAppend(xs: seq<Fee>, ys: seq<Fee>)
    ensures FeeComponents(xs + ys) == FeeComponents(xs) + FeeComponents(ys)
  {
    if xs == [] {
      assert xs + ys == ys;
    } else {
      FeeComponentsAppend(xs[1..], ys);
      assert (xs + ys)[1..] == xs[1..] + ys;
    }
  }

  lemma {:induction false} DirectFeesCover(cs: seq<Component>, cost: int, context: Context)
    requires DirectFees(cs, cost, context).Ok?
    ensures FeeComponents(DirectFees(cs, cost, context).value) == cs
  {
    if cs != [] {
      DirectFeesCover(cs[1..], cost, context);
    }
  }

  lemma {:induction false} PayoutFeesCover(cs: seq<Component>, payout: Affine)
    requires PayoutFees(cs, payout).Ok?
    ensures FeeComponents(PayoutFees(cs, payout).value) == cs
  {
    if cs != [] {
      PayoutFeesCover(cs[1..], payout);
    }
  }

  lemma {:induction false} SplitCovers(cs: seq<Component>)
    ensures multiset(OnPayout(cs, false)) + multiset(OnPayout(cs, true)) == multiset(cs)
  {
    if cs != [] {
      SplitCovers(cs[1..]);
      assert cs == [cs[0]] + cs[1..];
    }
  }

  lemma FeesCover(external: seq<Component>, cost: int, context: Context)
    requires FeesOf(external, cost, context).Ok?
    ensures multiset(FeeComponents(FeesOf(external, cost, context).value)) == multiset(external)
  {
    var direct := DirectFees(OnPayout(external, false), cost, context).value;
    var onPayout := PayoutFees(OnPayout(external, true), Payout(direct, context)).value;
    FeeComponentsAppend(direct, onPayout);
    DirectFeesCover(OnPayout(external, false), cost, context);
    PayoutFeesCover(OnPayout(external, true), Payout(direct, context));
    SplitCovers(external);
  }

  /** The components that a tally has collected so far; margins leave only a rate. */
  function Collected(t: Tally): multiset<Component> {
    multiset(Charged(t.fixedLines)) + multiset(Charged(t.markupLines)) + multiset(t.externalFees)
  }

  function Only(c: Component, wanted: bool): multiset<Component> {
    if wanted then multiset{c} else multiset{}
  }

  lemma ChargedGrows(lines: seq<Line>, line: Line)
    ensures multiset(Charged(lines + [line])) == multiset(Charged(lines)) + multiset{line.component}
  {
    ChargedAppends(lines, [line]);
    assert [line][1..] == [];
    assert Charged([line]) == [line.component] + Charged([]);
  }

  lemma CollectsOne(t: Tally, c: Component, cost: int, context: Context)
    requires TallyStep(t, c, cost, context).Ok?
    ensures Collected(TallyStep(t, c, cost, context).value) == Collected(t) + Only(c, c.enabled && !IsMargin(c))
  {
    hide NextTotal, MarkupBase, Percent, Charged;
    var next := TallyStep(t, c, cost, context).value;
    if ChangesTotal(c) {
      ChargedGrows(t.fixedLines, Line(c, FixedRole, t.previousTotal, next.previousTotal - t.previousTotal));
    } else if IsMarkup(c) {
      var base := MarkupBase(c, t.previousTotal, cost, context).value;
      ChargedGrows(t.markupLines, Line(c, MarkupRole, base, Percent(base, c.value)));
    }
  }

  lemma EnabledSplit(cs: seq<Component>, price: int)
    requires cs != []
    ensures multiset(Enabled(cs)) == Only(cs[0], cs[0].enabled) + multiset(Enabled(cs[1..]))
    ensures multiset(Charged(TargetLines(cs, price))) == Only(cs[0], IsMargin(cs[0])) + multiset(Charged(TargetLines(cs[1..], price)))
  {
    if IsMargin(cs[0]) {
      var lines := TargetLines(cs, price);
      assert lines[1..] == TargetLines(cs[1..], price);
      assert Charged(lines) == [cs[0]] + Charged(lines[1..]);
    }
  }

  lemma {:induction false} TallyCollects(cs: seq<Component>, t: Tally, cost: int, context: Context, price: int)
    requires TallyAll(cs, t, cost, context).Ok?
    ensures Collected(TallyAll(cs, t, cost, context).value) + multiset(Charged(TargetLines(cs, price)))
            == Collected(t) + multiset(Enabled(cs))
  {
    if cs == [] {
      assert Charged(TargetLines(cs, price)) == [] && Enabled(cs) == [];
    } else {
      var next := TallyStep(t, cs[0], cost, context).value;
      TallyCollects(cs[1..], next, cost, context, price);
      CollectsOne(t, cs[0], cost, context);
      EnabledSplit(cs, price);
      Regroup(Collected(TallyAll(cs, t, cost, context).value), Collected(next), Collected(t),
              multiset(Charged(TargetLines(cs[1..], price))), multiset(Enabled(cs[1..])), cs[0]);
    }
  }

  lemma Regroup(
    all: multiset<Component>, next: multiset<Component>, before: multiset<Component>,
    targets: multiset<Component>, enabled: multiset<Component>, c: Component)
    requires all + targets == next + enabled
    requires next == before + Only(c, c.enabled && !IsMargin(c))
    ensures all + (Only(c, IsMargin(c)) + targets) == before + (Only(c, c.enabled) + enabled)
  {
    assert all + (Only(c, IsMargin(c)) + targets) == (all + targets) + Only(c, IsMargin(c));
  }

  lemma FourGroups(xs: seq<Component>, fees: seq<Component>, ys: seq<Component>, targets: seq<Component>)
    ensures multiset(xs + fees + ys + targets) == multiset(xs) + multiset(ys) + multiset(fees) + multiset(targets)
  {
  }

  lemma LinesCharge(plan: Plan, price: int)
    requires PlanFrom(plan.components, plan.cost, plan.context) == Ok(plan)
    ensures multiset(Charged(UnsortedLines(plan, price))) == multiset(Enabled(plan.components))
  {
    hide TallyAll, TargetLines, FeeLines, Charged, FeesOf, Enabled;
    var t, fees, targets := plan.tally, FeeLines(plan.fees, price), TargetLines(plan.components, price);
    var start := StartTally(plan.cost, plan.context);
    ChargedAppends(t.fixedLines + fees + t.markupLines, targets);
    ChargedAppends(t.fixedLines + fees, t.markupLines);
    ChargedAppends(t.fixedLines, fees);
    FourGroups(Charged(t.fixedLines), Charged(fees), Charged(t.markupLines), Charged(targets));
    FeeLinesCharge(plan.fees, price);
    FeesCover(t.externalFees, plan.cost, plan.context);
    TallyCollects(plan.components, start, plan.cost, plan.context, price);
    NothingCharged();
    assert Collected(start) == multiset{};
  }

  lemma NothingCharged()
    ensures Charged([]) == []
  {
  }

  // ----- the cents

  lemma {:induction false} SumAppends(xs: seq<Line>, ys: seq<Line>, role: Role)
    ensures SumRole(xs + ys, role) == SumRole(xs, role) + SumRole(ys, role)
  {
    if xs == [] {
      assert xs + ys == ys;
    } else {
      SumAppends(xs[1..], ys, role);
      assert (xs + ys)[1..] == xs[1..] + ys;
    }
  }

  lemma {:induction false} FeeLinesSum(fees: seq<Fee>, price: int)
    ensures SumRole(FeeLines(fees, price), FeeRole) == TotalFees(fees, price)
    ensures SumRole(FeeLines(fees, price), FixedRole) == SumRole(FeeLines(fees, price), MarkupRole) == 0
  {
    hide AmountAt;
    if fees != [] {
      FeeLinesSum(fees[1..], price);
    }
  }

  lemma {:induction false} TargetLinesSum(cs: seq<Component>, price: int)
    ensures SumRole(TargetLines(cs, price), FixedRole) == SumRole(TargetLines(cs, price), FeeRole) == 0
    ensures SumRole(TargetLines(cs, price), MarkupRole) == 0
  {
    if cs != [] {
      TargetLinesSum(cs[1..], price);
    }
  }

  /** The fixed lines account for the running total, the markup lines for the markup target, and nothing else is in them. */
  predicate Accounted(t: Tally, start: int) {
    && t.previousTotal == start + SumRole(t.fixedLines, FixedRole)
    && t.markupTarget == SumRole(t.markupLines, MarkupRole)
    && SumRole(t.fixedLines, FeeRole) == SumRole(t.markupLines, FeeRole) == 0
    && SumRole(t.fixedLines, MarkupRole) == SumRole(t.markupLines, FixedRole) == 0
  }

  lemma SumGrows(lines: seq<Line>, line: Line, role: Role)
    ensures SumRole(lines + [line], role) == SumRole(lines, role) + (if line.role == role then line.amount else 0)
  {
    SumAppends(lines, [line], role);
    assert [line][1..] == [];
    assert SumRole([line], role) == (if line.role == role then line.amount else 0) + SumRole([], role);
  }

  lemma AccountsForOne(t: Tally, c: Component, cost: int, context: Context, start: int)
    requires Accounted(t, start) && TallyStep(t, c, cost, context).Ok?
    ensures Accounted(TallyStep(t, c, cost, context).value, start)
  {
    hide NextTotal, MarkupBase, Percent, SumRole;
    var next := TallyStep(t, c, cost, context).value;
    if ChangesTotal(c) {
      var line := Line(c, FixedRole, t.previousTotal, next.previousTotal - t.previousTotal);
      SumGrows(t.fixedLines, line, FixedRole);
      SumGrows(t.fixedLines, line, FeeRole);
      SumGrows(t.fixedLines, line, MarkupRole);
    } else if IsMarkup(c) {
      var base := MarkupBase(c, t.previousTotal, cost, context).value;
      var line := Line(c, MarkupRole, base, Percent(base, c.value));
      SumGrows(t.markupLines, line, FixedRole);
      SumGrows(t.markupLines, line, FeeRole);
      SumGrows(t.markupLines, line, MarkupRole);
    }
  }

  lemma {:induction false} TallyAccounts(cs: seq<Component>, t: Tally, cost: int, context: Context, start: int)
    requires Accounted(t, start) && TallyAll(cs, t, cost, context).Ok?
    ensures Accounted(TallyAll(cs, t, cost, context).value, start)
  {
    hide Accounted, TallyStep;
    if cs != [] {
      AccountsForOne(t, cs[0], cost, context, start);
      TallyAccounts(cs[1..], TallyStep(t, cs[0], cost, context).value, cost, context, start);
    }
  }

  lemma LinesAddUp(plan: Plan, price: int)
    requires PlanFrom(plan.components, plan.cost, plan.context) == Ok(plan)
    ensures var lines := UnsortedLines(plan, price);
            && plan.tally.previousTotal == plan.cost + plan.context.actualShipping + SumRole(lines, FixedRole)
            && SumRole(lines, FeeRole) == TotalFees(plan.fees, price)
            && SumRole(lines, MarkupRole) == plan.tally.markupTarget
  {
    var start := plan.cost + plan.context.actualShipping;
    assert Accounted(StartTally(plan.cost, plan.context), start);
    hide TallyAll, FeesOf, TargetLines, FeeLines, TotalFees, SumRole;
    TallyAccounts(plan.components, StartTally(plan.cost, plan.context), plan.cost, plan.context, start);
    FeeLinesSum(plan.fees, price);
    TargetLinesSum(plan.components, price);
    var t, fees, targets := plan.tally, FeeLines(plan.fees, price), TargetLines(plan.components, price);
    forall role
      ensures SumRole(UnsortedLines(plan, price), role)
              == SumRole(t.fixedLines, role) + SumRole(fees, role) + SumRole(t.markupLines, role) + SumRole(targets, role)
    {
      SumAppends(t.fixedLines + fees + t.markupLines, targets, role);
      SumAppends(t.fixedLines + fees, t.markupLines, role);
      SumAppends(t.fixedLines, fees, role);
    }
  }

  // ----- the ledger

  /**
   * In every answer of the solver each enabled component has exactly one line, in formula order, and
   * cost + shipping + fixed lines + fee lines + net profit is the order revenue, to the cent.
   */
  lemma LedgerBalances(cost: real, f: RawFormula, raw: RawContext)
    requires Solve(cost, f, raw).Ok?
    ensures var q := Solve(cost, f, raw).value;
            && Charged(q.breakdown) == Enabled(q.plan.components)
            && q.plan.cost + q.plan.context.actualShipping + SumRole(q.breakdown, FixedRole)
               + SumRole(q.breakdown, FeeRole) + q.netProfit == q.orderRevenue
            && SumRole(q.breakdown, FeeRole) == q.totalPercentageFees
            && SumRole(q.breakdown, MarkupRole) == q.plan.tally.markupTarget
  {
    hide UnsortedLines, SortByFormula, TallyAll, FeesOf, SumRole, Charged, Enabled, TotalFees, SolvedPrice, TargetProfit;
    SolveMeaning(cost, f, raw);
    NormalizeIsWellFormed(f);
    var q := Solve(cost, f, raw).value;
    var lines := UnsortedLines(q.plan, q.sellingPrice);
    SortCharges(lines, q.plan.components);
    LinesCharge(q.plan, q.sellingPrice);
    InOrderIsUnique(Charged(q.breakdown), q.plan.components);
    LinesAddUp(q.plan, q.sellingPrice);
    SortSums(lines, q.plan.components, FixedRole);
    SortSums(lines, q.plan.components, FeeRole);
    SortSums(lines, q.plan.components, MarkupRole);
  }
}
