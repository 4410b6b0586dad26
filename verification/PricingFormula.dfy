/** Bulk pricing formulas: components, defaults and normalization (bulk-pricing-formula.ts). */
module PricingFormula {
  import opened Wrappers

  datatype Kind =
    | EbayFeePercent | PromotedListingPercent | PayoneerFeePercent | ExportFeePercent | BufferPercent
    | MiscFixed | ProfitMarginPercent | MarkupPercent | CustomPercent | CustomFixed

  datatype Operator = Add | Subtract | Multiply | Divide

  datatype CalculationType = FixedCost | PercentageDeduction | TargetMargin | Markup

  datatype Base =
    | SellingPrice | ItemPrice | OrderTotal | SellerRevenueBeforeTax | OrderTotalIncludingTax
    | EbayPayout | PreviousTotal | BaseCost | CustomBase

  /** A component as it arrives; None is an absent optional field. */
  datatype RawComponent = RawComponent(
    id: string, kind: Kind, operator: Operator, value: real, caption: Option<string>, enabled: bool,
    calculationType: Option<CalculationType>, base: Option<Base>)

  /** A component after normalization. */
  datatype Component = Component(
    id: string, kind: Kind, operator: Operator, value: real, caption: string, enabled: bool,
    calculationType: CalculationType, base: Base)

  datatype RawFormula = RawFormula(version: int, components: seq<RawComponent>)

  datatype Error =
    | NoRows
    | MalformedFormula
    | DuplicateId(id: string)
    | DivideByZero
    | NotTargetMargin(caption: string)
    | NotMarkup(caption: string)
    | CannotBeFixedCost(caption: string)
    | MustBeFixedCost(caption: string)
    | NegativeInput
    | NegativeTotal(caption: string)
    | MarginNeedsAddAndSellingPrice
    | MarginTooHigh
    | MarkupNeedsAdd
    | MarkupBaseInvalid
    | FeeNeedsAddOrSubtract(caption: string)
    | CustomBaseRequired
    | PayoutUnavailable
    | PayoutOfItself(caption: string)
    | PreviousTotalNotExternal
    | RatesConsumePrice
    | OutOfRange

  const MAX_COMPONENTS := 20
  const MAX_VALUE := 1000000.0

  predicate IsPercentage(kind: Kind) {
    !kind.MiscFixed? && !kind.CustomFixed?
  }

  predicate IsEbaySpecific(kind: Kind) {
    kind.EbayFeePercent? || kind.PromotedListingPercent?
  }

  function DefaultLabel(kind: Kind): string {
    match kind
    case EbayFeePercent => "eBay fee"
    case PromotedListingPercent => "Promoted Listings General"
    case PayoneerFeePercent => "Payoneer fee"
    case ExportFeePercent => "Export fee"
    case BufferPercent => "Buffer"
    case MiscFixed => "Other miscellaneous charges"
    case ProfitMarginPercent => "Profit margin"
    case MarkupPercent => "Markup"
    case CustomPercent => "Custom percentage"
    case CustomFixed => "Custom fixed charge"
  }

  function DefaultSemantics(kind: Kind, legacy: bool): (CalculationType, Base) {
    match kind
    case ProfitMarginPercent => (TargetMargin, SellingPrice)
    case MarkupPercent => (Markup, BaseCost)
    case MiscFixed => (FixedCost, PreviousTotal)
    case CustomFixed => (FixedCost, PreviousTotal)
    case CustomPercent => (PercentageDeduction, if legacy then PreviousTotal else SellingPrice)
    case _ => (PercentageDeduction, SellingPrice)
  }

  predicate SchemaAccepts(c: RawComponent) {
    && 1 <= |c.id| <= 64
    && 0.0 <= c.value <= MAX_VALUE
    && (c.caption.Some? ==> 1 <= |c.caption.value| <= 80)
  }

  predicate FormulaSchemaAccepts(f: RawFormula) {
    && (f.version == 1 || f.version == 2)
    && 1 <= |f.components| <= MAX_COMPONENTS
    && forall i :: 0 <= i < |f.components| ==> SchemaAccepts(f.components[i])
  }

  function Fill(c: RawComponent, legacy: bool): Component {
    var (defaultType, defaultBase) := DefaultSemantics(c.kind, legacy);
    var sequential := legacy && IsPercentage(c.kind) && !c.kind.ProfitMarginPercent? && !c.kind.MarkupPercent?
                      && (c.operator.Multiply? || c.operator.Divide?);
    Component(
      c.id, c.kind, c.operator, c.value,
      if c.caption.Some? then c.caption.value else DefaultLabel(c.kind),
      c.enabled,
      if c.calculationType.Some? then c.calculationType.value else defaultType,
      if c.base.Some? then c.base.value else if sequential then PreviousTotal else defaultBase)
  }

  function CheckComponent(c: Component): Result<Component, Error> {
    if c.operator.Divide? && c.value == 0.0 then Err(DivideByZero)
    else if c.calculationType.TargetMargin? && !c.kind.ProfitMarginPercent? then Err(NotTargetMargin(c.caption))
    else if c.calculationType.Markup? && !c.kind.MarkupPercent? then Err(NotMarkup(c.caption))
    else if c.calculationType.FixedCost? && IsPercentage(c.kind) then Err(CannotBeFixedCost(c.caption))
    else if c.calculationType.PercentageDeduction? && !IsPercentage(c.kind) then Err(MustBeFixedCost(c.caption))
    else Ok(c)
  }

  function NormalizeComponents(cs: seq<RawComponent>, seen: set<string>, legacy: bool): Result<seq<Component>, Error> {
    if cs == [] then Ok([])
    else if cs[0].id in seen then Err(DuplicateId(cs[0].id))
    else
      var head :- CheckComponent(Fill(cs[0], legacy));
      var tail :- NormalizeComponents(cs[1..], seen + {cs[0].id}, legacy);
      Ok([head] + tail)
  }

  function Normalize(f: RawFormula): Result<seq<Component>, Error> {
    if !FormulaSchemaAccepts(f) then Err(MalformedFormula)
    else NormalizeComponents(f.components, {}, f.version == 1)
  }

  /** What every normalized component satisfies. */
  predicate WellTyped(c: Component) {
    && 1 <= |c.id| <= 64
    && 1 <= |c.caption| <= 80
    && 0.0 <= c.value <= MAX_VALUE
    && CheckComponent(c).Ok?
  }

  predicate DistinctIds(cs: seq<Component>) {
    forall i, j :: 0 <= i < j < |cs| ==> cs[i].id != cs[j].id
  }

  predicate WellFormed(cs: seq<Component>) {
    && DistinctIds(cs)
    && forall i :: 0 <= i < |cs| ==> WellTyped(cs[i])
  }

  /** A normalized formula handed back to a function that normalizes its argument again. */
  function Reinput(c: Component): RawComponent {
    RawComponent(c.id, c.kind, c.operator, c.value, Some(c.caption), c.enabled, Some(c.calculationType), Some(c.base))
  }

  function ReinputFormula(cs: seq<Component>): RawFormula {
    RawFormula(2, seq(|cs|, i requires 0 <= i < |cs| => Reinput(cs[i])))
  }

  lemma PrependKeepsForm(head: Component, tail: seq<Component>)
    requires WellTyped(head) && WellFormed(tail)
    requires forall i :: 0 <= i < |tail| ==> tail[i].id != head.id
    ensures WellFormed([head] + tail)
  {
    hide WellTyped;
    var cs := [head] + tail;
    forall i, j | 0 <= i < j < |cs|
      ensures cs[i].id != cs[j].id
    {
      assert cs[j] == tail[j - 1];
      if i > 0 {
        assert cs[i] == tail[i - 1];
      }
    }
  }

  lemma {:induction false} NormalizedComponents(cs: seq<RawComponent>, seen: set<string>, legacy: bool)
    requires forall i :: 0 <= i < |cs| ==> SchemaAccepts(cs[i])
    requires NormalizeComponents(cs, seen, legacy).Ok?
    ensures |NormalizeComponents(cs, seen, legacy).value| == |cs|
    ensures WellFormed(NormalizeComponents(cs, seen, legacy).value)
    ensures forall i :: 0 <= i < |cs| ==> NormalizeComponents(cs, seen, legacy).value[i].id !in seen
  {
    if cs != [] {
      var head := Fill(cs[0], legacy);
      assert head.id == cs[0].id && WellTyped(head);
      hide WellTyped, WellFormed, Fill;
      NormalizedComponents(cs[1..], seen + {cs[0].id}, legacy);
      PrependKeepsForm(head, NormalizeComponents(cs[1..], seen + {cs[0].id}, legacy).value);
    }
  }

  lemma NormalizeIsWellFormed(f: RawFormula)
    requires Normalize(f).Ok?
    ensures WellFormed(Normalize(f).value) && |Normalize(f).value| == |f.components|
  {
    NormalizedComponents(f.components, {}, f.version == 1);
  }

  lemma {:induction false} ReinputFrom(cs: seq<Component>, seen: set<string>)
    requires WellFormed(cs)
    requires forall i :: 0 <= i < |cs| ==> cs[i].id !in seen
    ensures NormalizeComponents(ReinputFormula(cs).components, seen, false) == Ok(cs)
  {
    if cs != [] {
      var raw := ReinputFormula(cs).components;
      assert raw[1..] == ReinputFormula(cs[1..]).components;
      assert WellTyped(cs[0]) && Fill(raw[0], false) == cs[0];
      ReinputFrom(cs[1..], seen + {cs[0].id});
      assert cs == [cs[0]] + cs[1..];
    }
  }

  /** A formula whose components are complete and well formed is accepted as it is. */
  lemma WellFormedIsAccepted(cs: seq<Component>)
    requires WellFormed(cs) && 1 <= |cs| <= MAX_COMPONENTS
    ensures Normalize(ReinputFormula(cs)) == Ok(cs)
  {
    forall i | 0 <= i < |cs|
      ensures SchemaAccepts(ReinputFormula(cs).components[i])
    {
      assert WellTyped(cs[i]);
    }
    ReinputFrom(cs, {});
  }

  /** Normalizing a normalized formula changes nothing, so a plan rebuilt from it is the same plan. */
  lemma NormalizeIdempotent(f: RawFormula)
    requires Normalize(f).Ok?
    ensures Normalize(ReinputFormula(Normalize(f).value)) == Normalize(f)
  {
    NormalizeIsWellFormed(f);
    WellFormedIsAccepted(Normalize(f).value);
  }
}
