/**
 * Which formulas and orders the solver accepts, what it fills in for fields that are absent, and what the amounts of its
 * answer add up from (bulk-pricing-formula.ts).
 */
module PricingAcceptance {
  import opened Wrappers
  import Cents
  import opened PricingFormula
  import opened PricingPlan
  import opened PricingSolver
  import Ledger = PricingLedger
  import Lines = PricingLines
  import Permutation = PricingPermutation

  // ----- normalization

  /** Charged as a percentage of the price, unless the formula says otherwise. */
  predicate IsDeduction(kind: Kind) {
    kind.EbayFeePercent? || kind.PromotedListingPercent? || kind.PayoneerFeePercent? || kind.ExportFeePercent? || kind.BufferPercent?
  }

  /** A normalized component has everything that was given, and for the rest what its kind stands for. */
  predicate Completes(raw: RawComponent, c: Component, legacy: bool) {
    && c.id == raw.id && c.kind == raw.kind && c.operator == raw.operator && c.value == raw.value && c.enabled == raw.enabled
    && (raw.caption.Some? ==> c.caption == raw.caption.value)
    && (raw.calculationType.Some? ==> c.calculationType == raw.calculationType.value)
    && (raw.calculationType.None? ==>
          && (IsDeduction(c.kind) || c.kind.CustomPercent? ==> c.calculationType.PercentageDeduction?)
          && (c.kind.MiscFixed? || c.kind.CustomFixed? ==> c.calculationType.FixedCost?)
          && (c.kind.ProfitMarginPercent? ==> c.calculationType.TargetMargin?)
          && (c.kind.MarkupPercent? ==> c.calculationType.Markup?))
    && (raw.base.Some? ==> c.base == raw.base.value)
    && (raw.base.None? ==>
          var scales := c.operator.Multiply? || c.operator.Divide?;
          && (IsDeduction(c.kind) && !(legacy && scales) ==> c.base.SellingPrice?)
          && (IsDeduction(c.kind) && legacy && scales ==> c.base.PreviousTotal?)
          && (c.kind.CustomPercent? ==> if legacy then c.base.PreviousTotal? else c.base.SellingPrice?)
          && (c.kind.MiscFixed? || c.kind.CustomFixed? ==> c.base.PreviousTotal?)
          && (c.kind.ProfitMarginPercent? ==> c.base.SellingPrice?)
          && (c.kind.MarkupPercent? ==> c.base.BaseCost?))
  }

  /** The kinds, types and operators that go together. */
  predicate Combines(c: Component) {
    && !(c.operator.Divide? && c.value == 0.0)
    && (c.calculationType.TargetMargin? ==> c.kind.ProfitMarginPercent?)
    && (c.calculationType.Markup? ==> c.kind.MarkupPercent?)
    && (c.calculationType.FixedCost? ==> c.kind.MiscFixed? || c.kind.CustomFixed?)
    && (c.calculationType.PercentageDeduction? ==> !c.kind.MiscFixed? && !c.kind.CustomFixed?)
  }

  predicate DistinctRawIds(cs: seq<RawComponent>) {
    forall i, j :: 0 <= i < j < |cs| ==> cs[i].id != cs[j].id
  }

  predicate WellSized(c: RawComponent) {
    1 <= |c.id| <= 64 && 0.0 <= c.value <= 1_000_000.0 && (c.caption.Some? ==> 1 <= |c.caption.value| <= 80)
  }

  lemma FillCompletes(raw: RawComponent, legacy: bool)
    ensures Completes(raw, Fill(raw, legacy), legacy)
    ensures CheckComponent(Fill(raw, legacy)).Ok? <==> Combines(Fill(raw, legacy))
  {
  }

  lemma {:induction false} NormalizedAre(cs: seq<RawComponent>, seen: set<string>, legacy: bool)
    ensures NormalizeComponents(cs, seen, legacy).Ok? <==>
              && DistinctRawIds(cs) && (forall i :: 0 <= i < |cs| ==> cs[i].id !in seen)
              && (forall i :: 0 <= i < |cs| ==> Combines(Fill(cs[i], legacy)))
    ensures NormalizeComponents(cs, seen, legacy).Ok? ==>
              && |NormalizeComponents(cs, seen, legacy).value| == |cs|
              && forall i :: 0 <= i < |cs| ==> NormalizeComponents(cs, seen, legacy).value[i] == Fill(cs[i], legacy)
  {
    hide Fill, CheckComponent, Combines;
    if cs != [] {
      FillCompletes(cs[0], legacy);
      var rest := cs[1..];
      NormalizedAre(rest, seen + {cs[0].id}, legacy);
      assert forall i :: 0 < i < |cs| ==> cs[i] == rest[i - 1];
      if DistinctRawIds(cs) {
        assert DistinctRawIds(rest);
      }
      if DistinctRawIds(rest) && (forall i :: 0 <= i < |rest| ==> rest[i].id !in seen + {cs[0].id}) {
        RawIdsDiffer(cs, seen);
      }
      CheckKeeps(Fill(cs[0], legacy));
      hide DistinctRawIds;
    }
  }

  lemma CheckKeeps(c: Component)
    ensures CheckComponent(c).Ok? ==> CheckComponent(c).value == c
  {
  }

  lemma RawIdsDiffer(cs: seq<RawComponent>, seen: set<string>)
    requires cs != [] && DistinctRawIds(cs[1..])
    requires forall i :: 0 <= i < |cs[1..]| ==> cs[1..][i].id !in seen + {cs[0].id}
    ensures DistinctRawIds(cs)
  {
    forall i, j | 0 <= i < j < |cs|
      ensures cs[i].id != cs[j].id
    {
      assert cs[j] == cs[1..][j - 1];
      if i > 0 {
        assert cs[i] == cs[1..][i - 1];
      }
    }
  }

  /** Exactly these formulas are accepted, and each component is completed as its kind and the formula's version say. */
  lemma NormalizeExactly(f: RawFormula)
    ensures Normalize(f).Ok? <==>
              && (f.version == 1 || f.version == 2) && 1 <= |f.components| <= 20
              && (forall i :: 0 <= i < |f.components| ==> WellSized(f.components[i]))
              && DistinctRawIds(f.components)
              && (forall i :: 0 <= i < |f.components| ==> Combines(Fill(f.components[i], f.version == 1)))
    ensures Normalize(f).Ok? ==>
              && |Normalize(f).value| == |f.components|
              && forall i :: 0 <= i < |f.components| ==> Completes(f.components[i], Normalize(f).value[i], f.version == 1)
  {
    hide Fill, Combines, Completes;
    NormalizedAre(f.components, {}, f.version == 1);
    forall i | 0 <= i < |f.components|
      ensures Completes(f.components[i], Fill(f.components[i], f.version == 1), f.version == 1)
    {
      FillCompletes(f.components[i], f.version == 1);
    }
    hide DistinctRawIds, NormalizeComponents;
  }

  // ----- planning

  /** May the pass use the component at all, whatever the amounts are? */
  predicate Usable(c: Component, custom: Option<int>) {
    && (IsMargin(c) ==> c.operator.Add? && c.base.SellingPrice? && c.value < 100.0)
    && (IsMarkup(c) ==>
          c.operator.Add? && (c.base.BaseCost? || c.base.PreviousTotal? || (c.base.CustomBase? && custom.Some?)))
    && (IsExternalFee(c) ==>
          && (c.operator.Add? || c.operator.Subtract?) && (c.base.CustomBase? ==> custom.Some?)
          && (c.base.EbayPayout? ==> !c.kind.EbayFeePercent? && !c.kind.PromotedListingPercent?))
  }

  /** The running totals after each component, as long as they are amounts. */
  function Totals(cs: seq<Component>, total: int): Result<int, Error> {
    if cs == [] then Ok(total)
    else
      var next :- if ChangesTotal(cs[0]) then NextTotal(cs[0], total) else Ok(total);
      Totals(cs[1..], next)
  }

  /** A total is refused when it would be negative, that is, when more than there is is subtracted, or on division by zero. */
  lemma TotalIsRefusedExactly(c: Component, total: int)
    requires ChangesTotal(c) && total >= 0 && c.value >= 0.0
    ensures NextTotal(c, total).Err? <==>
              || (c.operator.Divide? && c.value == 0.0)
              || (c.operator.Subtract? && c.calculationType.FixedCost? && 100.0 * c.value > total as real + 0.5)
              || (c.operator.Subtract? && !c.calculationType.FixedCost? && total as real * c.value / 100.0 >= total as real + 0.5)
  {
    hide Percent;
    if c.operator.Divide? {
      QuotientNotNegative(c, total);
    } else if c.operator.Multiply? {
      ProductNotNegative(c, total);
    } else if !c.calculationType.FixedCost? {
      ShareNotNegative(c, total);
    }
  }

  lemma QuotientNotNegative(c: Component, total: int)
    requires ChangesTotal(c) && total >= 0 && c.value >= 0.0 && c.operator.Divide?
    ensures NextTotal(c, total).Err? <==> c.value == 0.0
  {
    if c.value > 0.0 {
      assert Operand(c, total) > 0.0;
      assert total as real / Operand(c, total) >= 0.0;
    }
  }

  lemma ProductNotNegative(c: Component, total: int)
    requires ChangesTotal(c) && total >= 0 && c.value >= 0.0 && c.operator.Multiply?
    ensures NextTotal(c, total).Ok?
  {
    assert Operand(c, total) >= 0.0;
    assert total as real * Operand(c, total) >= 0.0;
  }

  lemma ShareNotNegative(c: Component, total: int)
    requires ChangesTotal(c) && total >= 0 && c.value >= 0.0 && !c.calculationType.FixedCost? && !IsScaling(c.operator)
    ensures NextTotal(c, total).Err? <==> c.operator.Subtract? && total as real * c.value / 100.0 >= total as real + 0.5
  {
    assert total as real * c.value >= 0.0;
    var share := Percent(total, c.value);
    Lines.RoundsInteger(if c.operator.Add? then total + share else total - share);
  }

  lemma TallyStepOk(t: Tally, c: Component, cost: int, context: Context)
    ensures TallyStep(t, c, cost, context).Ok? <==>
              (IsMargin(c) || IsMarkup(c) ==> Usable(c, context.customBase)) && (ChangesTotal(c) ==> NextTotal(c, t.previousTotal).Ok?)
    ensures TallyStep(t, c, cost, context).Ok? ==>
              TallyStep(t, c, cost, context).value.previousTotal
              == if ChangesTotal(c) then NextTotal(c, t.previousTotal).value else t.previousTotal
  {
    hide NextTotal, Percent;
  }

  lemma {:induction false} TallyOk(cs: seq<Component>, t: Tally, cost: int, context: Context)
    ensures TallyAll(cs, t, cost, context).Ok? <==>
              && (forall c :: c in cs && (IsMargin(c) || IsMarkup(c)) ==> Usable(c, context.customBase))
              && Totals(cs, t.previousTotal).Ok?
    ensures TallyAll(cs, t, cost, context).Ok? ==> TallyAll(cs, t, cost, context).value.previousTotal == Totals(cs, t.previousTotal).value
  {
    hide TallyStep, NextTotal, Usable, ChangesTotal, IsMargin, IsMarkup;
    if cs != [] {
      assert cs == [cs[0]] + cs[1..];
      TallyStepOk(t, cs[0], cost, context);
      if TallyStep(t, cs[0], cost, context).Ok? {
        TallyOk(cs[1..], TallyStep(t, cs[0], cost, context).value, cost, context);
      }
    }
  }

  lemma {:induction false} DirectOk(cs: seq<Component>, cost: int, context: Context)
    requires forall c :: c in cs ==> IsExternalFee(c) && !c.base.EbayPayout?
    ensures DirectFees(cs, cost, context).Ok? <==> forall c :: c in cs ==> Usable(c, context.customBase)
  {
    hide Rate;
    if cs != [] {
      assert cs == [cs[0]] + cs[1..];
      DirectOk(cs[1..], cost, context);
      assert ExternalBase(cs[0].base, cost, context, None).Ok? && !IsScaling(cs[0].operator) <==> Usable(cs[0], context.customBase);
      hide Usable, ExternalBase;
    }
  }

  lemma {:induction false} PayoutOk(cs: seq<Component>, payout: Affine, custom: Option<int>)
    requires forall c :: c in cs ==> IsExternalFee(c) && c.base.EbayPayout?
    ensures PayoutFees(cs, payout).Ok? <==> forall c :: c in cs ==> Usable(c, custom)
  {
    hide Rate;
    if cs != [] {
      assert cs == [cs[0]] + cs[1..];
      PayoutOk(cs[1..], payout, custom);
      assert !IsEbaySpecific(cs[0].kind) && !IsScaling(cs[0].operator) <==> Usable(cs[0], custom);
      hide Usable;
    }
  }

  lemma {:induction false} SplitMembers(cs: seq<Component>, wanted: bool, c: Component)
    ensures c in OnPayout(cs, wanted) <==> c in cs && c.base.EbayPayout? == wanted
  {
    if cs != [] {
      assert cs == [cs[0]] + cs[1..];
      SplitMembers(cs[1..], wanted, c);
    }
  }

  lemma {:induction false} ExternalMembers(cs: seq<Component>, c: Component)
    ensures c in Permutation.External(cs) <==> c in cs && IsExternalFee(c)
  {
    if cs != [] {
      assert cs == [cs[0]] + cs[1..];
      ExternalMembers(cs[1..], c);
    }
  }

  lemma FeesOk(cs: seq<Component>, cost: int, context: Context)
    ensures FeesOf(Permutation.External(cs), cost, context).Ok? <==>
              forall c :: c in cs && IsExternalFee(c) ==> Usable(c, context.customBase)
  {
    hide Usable, DirectFees, PayoutFees, OnPayout, Permutation.External, IsExternalFee;
    var external := Permutation.External(cs);
    var direct, onPayout := OnPayout(external, false), OnPayout(external, true);
    forall c
      ensures c in external <==> c in cs && IsExternalFee(c)
      ensures c in direct <==> c in external && !c.base.EbayPayout?
      ensures c in onPayout <==> c in external && c.base.EbayPayout?
    {
      ExternalMembers(cs, c);
      SplitMembers(external, false, c);
      SplitMembers(external, true, c);
    }
    DirectOk(direct, cost, context);
    if DirectFees(direct, cost, context).Ok? {
      PayoutOk(onPayout, Payout(DirectFees(direct, cost, context).value, context), context.customBase);
    }
  }

  /** A formula is planned if and only if every enabled component may be used and the running total never turns negative. */
  lemma PlanExactly(cs: seq<Component>, cost: int, context: Context)
    ensures PlanFrom(cs, cost, context).Ok? <==>
              (forall c :: c in cs ==> Usable(c, context.customBase)) && Totals(cs, cost + context.actualShipping).Ok?
  {
    hide TallyAll, FeesOf, Permutation.External, Totals;
    var start := StartTally(cost, context);
    TallyOk(cs, start, cost, context);
    FeesOk(cs, cost, context);
    Permutation.TallyOfKept(cs, start, [], cost, context);
    assert start.externalFees + Permutation.External(cs) == Permutation.External(cs);
    OtherwiseUsable(cs, context.customBase);
    hide Usable, IsMargin, IsMarkup, IsExternalFee, TallyStep;
  }

  lemma OtherwiseUsable(cs: seq<Component>, custom: Option<int>)
    ensures forall c :: c in cs && !IsMargin(c) && !IsMarkup(c) && !IsExternalFee(c) ==> Usable(c, custom)
  {
  }

  // ----- inputs and outputs

  /** Dollars that may be absent, to the nearest cent. */
  predicate InCents(cents: int, dollars: Option<real>) {
    if dollars.None? then cents == 0 else Lines.Nearest(cents, dollars.value * 100.0)
  }

  lemma ContextExactly(cost: real, raw: RawContext)
    ensures NormalizeContext(cost, raw).Ok? <==>
              && cost >= 0.0 && (raw.buyerShippingCharge.Some? ==> raw.buyerShippingCharge.value >= 0.0)
              && (raw.actualShippingCost.Some? ==> raw.actualShippingCost.value >= 0.0)
              && (raw.salesTax.Some? ==> raw.salesTax.value >= 0.0) && (raw.customBase.Some? ==> raw.customBase.value >= 0.0)
    ensures NormalizeContext(cost, raw).Ok? ==>
              var context := NormalizeContext(cost, raw).value;
              && InCents(context.buyerShipping, raw.buyerShippingCharge) && InCents(context.actualShipping, raw.actualShippingCost)
              && InCents(context.salesTax, raw.salesTax)
              && (context.customBase.Some? <==> raw.customBase.Some?)
              && (context.customBase.Some? ==> Lines.Nearest(context.customBase.value, raw.customBase.value * 100.0))
  {
  }

  /** The target margins of a formula. */
  function MarginRate(cs: seq<Component>): real {
    if cs == [] then 0.0 else (if IsMargin(cs[0]) then cs[0].value / 100.0 else 0.0) + MarginRate(cs[1..])
  }

  lemma {:induction false} MarginsAdd(cs: seq<Component>, t: Tally, cost: int, context: Context)
    requires TallyAll(cs, t, cost, context).Ok?
    ensures TallyAll(cs, t, cost, context).value.marginRate == t.marginRate + MarginRate(cs)
  {
    hide NextTotal, MarkupBase, Percent;
    if cs != [] {
      MarginsAdd(cs[1..], TallyStep(t, cs[0], cost, context).value, cost, context);
    }
  }

  /** The order of the answer is the caller's, and its amounts add up from the lines. */
  predicate QuoteFits(q: Quote, cost: real, f: RawFormula, raw: RawContext) {
    var fixed, fees := SumRole(q.breakdown, FixedRole), SumRole(q.breakdown, FeeRole);
    && Normalize(f) == Ok(q.plan.components) && NormalizeContext(cost, raw) == Ok(q.plan.context)
    && Lines.Nearest(q.plan.cost, cost * 100.0)
    && 0 <= q.sellingPrice <= 10_000_000_000
    && q.orderRevenue == q.sellingPrice + q.plan.context.buyerShipping
    && q.totalPercentageFees == fees
    && q.expenseImpact == q.plan.context.actualShipping + fixed + fees
    && Lines.Nearest(q.targetProfit, q.sellingPrice as real * MarginRate(q.plan.components) + SumRole(q.breakdown, MarkupRole) as real)
  }

  lemma QuoteAddsUp(cost: real, f: RawFormula, raw: RawContext)
    requires Solve(cost, f, raw).Ok?
    ensures QuoteFits(Solve(cost, f, raw).value, cost, f, raw)
  {
    hide TallyAll, FeesOf, SumRole, UnsortedLines, SortByFormula, MarginRate, ConsumedRate, Numerator;
    SolveMeaning(cost, f, raw);
    Ledger.LedgerBalances(cost, f, raw);
    var plan := PlanOf(cost, f, raw).value;
    MarginsAdd(plan.components, StartTally(plan.cost, plan.context), plan.cost, plan.context);
    PriceIsNonNegative(plan);
    LinesOfTotal(cost, f, raw);
    hide Ledger.Charged, Ledger.Enabled, FeeBreakdown, NetProfit;
  }

  lemma LinesOfTotal(cost: real, f: RawFormula, raw: RawContext)
    requires Solve(cost, f, raw).Ok?
    ensures var q := Solve(cost, f, raw).value;
            q.plan.tally.previousTotal == q.plan.cost + q.plan.context.actualShipping + SumRole(q.breakdown, FixedRole)
  {
    hide TallyAll, FeesOf, SumRole, UnsortedLines, SortByFormula, SolvedPrice;
    SolveMeaning(cost, f, raw);
    var q := Solve(cost, f, raw).value;
    Ledger.LinesAddUp(q.plan, q.sellingPrice);
    Ledger.SortSums(UnsortedLines(q.plan, q.sellingPrice), q.plan.components, FixedRole);
  }

  /** A plan has a price unless its rates consume the whole price or the exact price rounds above the cap. */
  lemma PriceExactly(plan: Plan)
    ensures PriceOf(plan).Err? <==> ConsumedRate(plan) >= 1.0 || Numerator(plan) / (1.0 - ConsumedRate(plan)) >= 10_000_000_000.5
  {
    hide ConsumedRate, Numerator;
  }
}
