/** What the affine fee expressions stand for at a price (bulk-pricing-formula.ts). */
module PricingFees {
  import opened Wrappers
  import opened PricingFormula
  import opened PricingPlan
  import opened PricingSolver

  /** An order at a price: what the buyer pays and what the parts of it are. */
  datatype Order = Order(price: int, shipping: int, tax: int, cost: int, customBase: Option<int>)

  function OrderAt(price: int, cost: int, context: Context): Order {
    Order(price, context.buyerShipping, context.salesTax, cost, context.customBase)
  }

  /** The amount a fee is charged on, if it is not the payout. */
  function Charged(base: Base, o: Order): Option<int> {
    match base
    case SellingPrice => Some(o.price)
    case ItemPrice => Some(o.price)
    case OrderTotal => Some(o.price + o.shipping)
    case SellerRevenueBeforeTax => Some(o.price + o.shipping)
    case OrderTotalIncludingTax => Some(o.price + o.shipping + o.tax)
    case BaseCost => Some(o.cost)
    case CustomBase => o.customBase
    case EbayPayout => None
    case PreviousTotal => None
  }

  /** A signed percentage of an amount, before rounding. */
  function Share(c: Component, amount: real): real {
    if c.operator.Add? then amount * (c.value / 100.0) else -(amount * (c.value / 100.0))
  }

  /** What eBay keeps of an order for itself. */
  function EbayKeeps(cs: seq<Component>, o: Order): real {
    if cs == [] then 0.0
    else
      var own := if IsEbaySpecific(cs[0].kind) && Charged(cs[0].base, o).Some?
                 then Share(cs[0], Charged(cs[0].base, o).value as real) else 0.0;
      own + EbayKeeps(cs[1..], o)
  }

  /** What eBay pays out of an order. */
  function PaidOut(external: seq<Component>, o: Order): real {
    (o.price + o.shipping) as real - EbayKeeps(OnPayout(external, false), o)
  }

  lemma ScaledValue(base: Affine, rate: real, price: int)
    ensures ValueAt(Affine(base.coefficient * rate, base.constant * rate), price) == ValueAt(base, price) * rate
  {
    assert (base.coefficient * rate) * price as real == (base.coefficient * price as real) * rate;
  }

  lemma AmountIsShare(c: Component, base: Affine, price: int)
    requires FeeAmount(c, base).Ok?
    ensures ValueAt(FeeAmount(c, base).value, price) == Share(c, ValueAt(base, price))
  {
    ScaledValue(base, Rate(c), price);
    var v, r := ValueAt(base, price), c.value / 100.0;
    assert v * -r == -(v * r);
  }

  lemma BaseIsCharged(base: Base, cost: int, context: Context, price: int)
    requires ExternalBase(base, cost, context, None).Ok?
    ensures var charged := Charged(base, OrderAt(price, cost, context));
            charged.Some? && ValueAt(ExternalBase(base, cost, context, None).value, price) == charged.value as real
  {
  }

  /** Direct fees are shares of what they are charged on. */
  lemma {:induction false} DirectFeesAreShares(cs: seq<Component>, cost: int, context: Context, price: int, i: nat)
    requires DirectFees(cs, cost, context).Ok? && i < |cs|
    ensures var fees := DirectFees(cs, cost, context).value;
            var charged := Charged(cs[i].base, OrderAt(price, cost, context));
            && |fees| == |cs| && fees[i].component == cs[i] && charged.Some?
            && ValueAt(fees[i].base, price) == charged.value as real
            && ValueAt(fees[i].amount, price) == Share(cs[i], charged.value as real)
  {
    hide ValueAt, Share, Charged, ExternalBase, FeeAmount;
    BaseIsCharged(cs[0].base, cost, context, price);
    AmountIsShare(cs[0], ExternalBase(cs[0].base, cost, context, None).value, price);
    if i > 0 {
      DirectFeesAreShares(cs[1..], cost, context, price, i - 1);
    } else if |cs| > 1 {
      DirectFeesAreShares(cs[1..], cost, context, price, 0);
    }
  }

  lemma LessValue(a: Affine, b: Affine, price: int)
    ensures ValueAt(Affine(a.coefficient - b.coefficient, a.constant - b.constant), price) == ValueAt(a, price) - ValueAt(b, price)
  {
    assert (a.coefficient - b.coefficient) * price as real == a.coefficient * price as real - b.coefficient * price as real;
  }

  lemma {:induction false} PayoutIsPaidOut(cs: seq<Component>, cost: int, context: Context, price: int)
    requires DirectFees(cs, cost, context).Ok?
    ensures var o := OrderAt(price, cost, context);
            ValueAt(Payout(DirectFees(cs, cost, context).value, context), price) == (o.price + o.shipping) as real - EbayKeeps(cs, o)
  {
    if cs != [] {
      var fees := DirectFees(cs, cost, context).value;
      PayoutIsPaidOut(cs[1..], cost, context, price);
      DirectFeesAreShares(cs, cost, context, price, 0);
      assert fees[1..] == DirectFees(cs[1..], cost, context).value;
      LessValue(Payout(fees[1..], context), fees[0].amount, price);
      hide ValueAt, Share, Charged, DirectFees;
    } else {
      assert ValueAt(Affine(1.0, context.buyerShipping as real), price) == (price + context.buyerShipping) as real;
    }
  }

  lemma {:induction false} PayoutFeesAreShares(cs: seq<Component>, payout: Affine, price: int, i: nat)
    requires PayoutFees(cs, payout).Ok? && i < |cs|
    ensures var fees := PayoutFees(cs, payout).value;
            && |fees| == |cs| && fees[i].component == cs[i] && !IsEbaySpecific(cs[i].kind)
            && ValueAt(fees[i].base, price) == ValueAt(payout, price)
            && ValueAt(fees[i].amount, price) == Share(cs[i], ValueAt(payout, price))
  {
    hide ValueAt, Share, FeeAmount;
    AmountIsShare(cs[0], payout, price);
    if i > 0 {
      PayoutFeesAreShares(cs[1..], payout, price, i - 1);
    } else if |cs| > 1 {
      PayoutFeesAreShares(cs[1..], payout, price, 0);
    }
  }

  lemma {:induction false} SplitMembers(cs: seq<Component>, wanted: bool, i: nat)
    requires i < |OnPayout(cs, wanted)|
    ensures OnPayout(cs, wanted)[i].base.EbayPayout? == wanted
  {
    if cs[0].base.EbayPayout? == wanted {
      if i > 0 {
        SplitMembers(cs[1..], wanted, i - 1);
      }
    } else {
      SplitMembers(cs[1..], wanted, i);
    }
  }

  /**
   * At every price each fee of a plan is its signed percentage of what it is charged on: its part of the order, or, for a
   * fee on the payout, the order revenue less all that eBay keeps.
   */
  lemma FeesAreShares(external: seq<Component>, cost: int, context: Context, price: int, i: nat)
    requires FeesOf(external, cost, context).Ok? && i < |FeesOf(external, cost, context).value|
    ensures var fee := FeesOf(external, cost, context).value[i];
            var o := OrderAt(price, cost, context);
            && (fee.component.base.EbayPayout? ==>
                  ValueAt(fee.base, price) == PaidOut(external, o) && !IsEbaySpecific(fee.component.kind))
            && (!fee.component.base.EbayPayout? ==>
                  Charged(fee.component.base, o).Some? && ValueAt(fee.base, price) == Charged(fee.component.base, o).value as real)
            && ValueAt(fee.amount, price) == Share(fee.component, ValueAt(fee.base, price))
  {
    hide ValueAt, Share, Charged, DirectFees, PayoutFees, OnPayout;
    var direct, onPayout := OnPayout(external, false), OnPayout(external, true);
    var fees := DirectFees(direct, cost, context).value;
    LengthOfFees(direct, cost, context, price);
    if i < |fees| {
      SplitMembers(external, false, i);
      DirectFeesAreShares(direct, cost, context, price, i);
    } else {
      LengthOfPayoutFees(onPayout, Payout(fees, context), price);
      SplitMembers(external, true, i - |fees|);
      PayoutIsPaidOut(direct, cost, context, price);
      PayoutFeesAreShares(onPayout, Payout(fees, context), price, i - |fees|);
    }
  }

  lemma LengthOfFees(cs: seq<Component>, cost: int, context: Context, price: int)
    requires DirectFees(cs, cost, context).Ok?
    ensures |DirectFees(cs, cost, context).value| == |cs|
  {
    if cs != [] {
      DirectFeesAreShares(cs, cost, context, price, 0);
    }
  }

  lemma LengthOfPayoutFees(cs: seq<Component>, payout: Affine, price: int)
    requires PayoutFees(cs, payout).Ok?
    ensures |PayoutFees(cs, payout).value| == |cs|
  {
    if cs != [] {
      PayoutFeesAreShares(cs, payout, price, 0);
    }
  }
}
