/** The order of the external fees does not matter to the price. */
module PricingPermutation {
  import opened Wrappers
  import opened PricingFormula
  import opened PricingPlan
  import opened PricingSolver
  import opened PricingMonotone

  // ----- sums over a permutation

  ghost function Sum(f: Component -> real, cs: seq<Component>): real {
    if cs == [] then 0.0 else f(cs[0]) + Sum(f, cs[1..])
  }

  function Without(cs: seq<Component>, i: nat): seq<Component>
    requires i < |cs|
  {
    cs[..i] + cs[i + 1..]
  }

  lemma {:induction false} SumWithout(f: Component -> real, cs: seq<Component>, i: nat)
    requires i < |cs|
    ensures Sum(f, cs) == f(cs[i]) + Sum(f, Without(cs, i))
  {
    if i == 0 {
      assert Without(cs, i) == cs[1..];
    } else {
      SumWithout(f, cs[1..], i - 1);
      assert Without(cs, i)[1..] == Without(cs[1..], i - 1);
    }
  }

  lemma RemoveOne(ys: seq<Component>, i: nat)
    requires i < |ys|
    ensures multiset(Without(ys, i)) == multiset(ys) - multiset{ys[i]}
  {
    assert ys == ys[..i] + ([ys[i]] + ys[i + 1..]);
    assert multiset(ys) == multiset(ys[..i]) + (multiset{ys[i]} + multiset(ys[i + 1..]));
  }

  /** The other list has the first element somewhere; without it the rests are permutations again. */
  lemma MatchFirst(xs: seq<Component>, ys: seq<Component>) returns (i: nat)
    requires multiset(xs) == multiset(ys) && xs != []
    ensures i < |ys| && ys[i] == xs[0] && multiset(xs[1..]) == multiset(Without(ys, i))
  {
    assert xs[0] in multiset(xs);
    assert xs[0] in ys;
    i :| 0 <= i < |ys| && ys[i] == xs[0];
    RemoveOne(ys, i);
    RemoveOne(xs, 0);
    assert Without(xs, 0) == xs[1..];
  }

  lemma {:induction false} SumOfPermutation(f: Component -> real, xs: seq<Component>, ys: seq<Component>)
    requires multiset(xs) == multiset(ys)
    ensures Sum(f, xs) == Sum(f, ys)
  {
    if xs == [] {
      assert |multiset(ys)| == 0;
    } else {
      var i := MatchFirst(xs, ys);
      SumOfPermutation(f, xs[1..], Without(ys, i));
      SumWithout(f, ys, i);
      hide *;
    }
  }

  // ----- fees as sums

  function AmountOrNone(c: Component, cost: int, context: Context): Affine {
    var amount := DirectAmount(c, cost, context);
    if amount.Ok? then amount.value else Affine(0.0, 0.0)
  }

  function Own(c: Component, x: real): real {
    if IsEbaySpecific(c.kind) then x else 0.0
  }

  lemma {:induction false} DirectFeesAsSums(cs: seq<Component>, cost: int, context: Context)
    ensures DirectFees(cs, cost, context).Ok? <==> forall c :: c in cs ==> DirectAmount(c, cost, context).Ok?
    ensures DirectFees(cs, cost, context).Ok? ==>
              var fees := DirectFees(cs, cost, context).value;
              && TotalCoefficient(fees) == Sum(c => AmountOrNone(c, cost, context).coefficient, cs)
              && TotalConstant(fees) == Sum(c => AmountOrNone(c, cost, context).constant, cs)
              && Payout(fees, context).coefficient == 1.0 - Sum(c => Own(c, AmountOrNone(c, cost, context).coefficient), cs)
              && Payout(fees, context).constant
                 == context.buyerShipping as real - Sum(c => Own(c, AmountOrNone(c, cost, context).constant), cs)
  {
    hide ExternalBase, FeeAmount;
    if cs != [] {
      assert forall c :: c in cs <==> c == cs[0] || c in cs[1..];
      DirectFeesAsSums(cs[1..], cost, context);
      if DirectFees(cs, cost, context).Ok? {
        assert DirectFees(cs, cost, context).value[1..] == DirectFees(cs[1..], cost, context).value;
      }
    }
  }

  lemma {:induction false} PayoutFeesAsSums(cs: seq<Component>, payout: Affine)
    ensures PayoutFees(cs, payout).Ok? <==> forall c :: c in cs ==> !IsEbaySpecific(c.kind) && !IsScaling(c.operator)
    ensures SumRates(cs) == Sum(c => Rate(c), cs)
  {
    hide Rate;
    if cs != [] {
      assert forall c :: c in cs <==> c == cs[0] || c in cs[1..];
      PayoutFeesAsSums(cs[1..], payout);
    }
  }

  lemma {:induction false} SplitCounts(cs: seq<Component>, wanted: bool, c: Component)
    ensures multiset(OnPayout(cs, wanted))[c] == if c.base.EbayPayout? == wanted then multiset(cs)[c] else 0
  {
    if cs != [] {
      SplitCounts(cs[1..], wanted, c);
      assert cs == [cs[0]] + cs[1..];
    }
  }

  lemma SplitOfPermutation(xs: seq<Component>, ys: seq<Component>, wanted: bool)
    requires multiset(xs) == multiset(ys)
    ensures multiset(OnPayout(xs, wanted)) == multiset(OnPayout(ys, wanted))
    ensures forall c :: c in OnPayout(xs, wanted) <==> c in OnPayout(ys, wanted)
  {
    forall c
      ensures multiset(OnPayout(xs, wanted))[c] == multiset(OnPayout(ys, wanted))[c]
    {
      SplitCounts(xs, wanted, c);
      SplitCounts(ys, wanted, c);
    }
    assert forall c :: c in OnPayout(xs, wanted) <==> c in multiset(OnPayout(xs, wanted));
    assert forall c :: c in OnPayout(ys, wanted) <==> c in multiset(OnPayout(ys, wanted));
  }

  lemma DirectFeesOfPermutation(xs: seq<Component>, ys: seq<Component>, cost: int, context: Context)
    requires multiset(xs) == multiset(ys) && (forall c :: c in xs <==> c in ys)
    requires DirectFees(xs, cost, context).Ok?
    ensures DirectFees(ys, cost, context).Ok?
    ensures var a, b := DirectFees(xs, cost, context).value, DirectFees(ys, cost, context).value;
            TotalCoefficient(a) == TotalCoefficient(b) && TotalConstant(a) == TotalConstant(b)
            && Payout(a, context) == Payout(b, context)
  {
    hide AmountOrNone, Own, DirectAmount, TotalCoefficient, TotalConstant, Payout, DirectFees;
    DirectFeesAsSums(xs, cost, context);
    DirectFeesAsSums(ys, cost, context);
    SumOfPermutation(c => AmountOrNone(c, cost, context).coefficient, xs, ys);
    SumOfPermutation(c => AmountOrNone(c, cost, context).constant, xs, ys);
    SumOfPermutation(c => Own(c, AmountOrNone(c, cost, context).coefficient), xs, ys);
    SumOfPermutation(c => Own(c, AmountOrNone(c, cost, context).constant), xs, ys);
  }

  lemma FeesOfPermutation(xs: seq<Component>, ys: seq<Component>, cost: int, context: Context)
    requires multiset(xs) == multiset(ys) && FeesOf(xs, cost, context).Ok?
    ensures FeesOf(ys, cost, context).Ok?
    ensures TotalCoefficient(FeesOf(xs, cost, context).value) == TotalCoefficient(FeesOf(ys, cost, context).value)
    ensures TotalConstant(FeesOf(xs, cost, context).value) == TotalConstant(FeesOf(ys, cost, context).value)
  {
    hide Payout, DirectFees, TotalCoefficient, TotalConstant, OnPayout, PayoutFees, SumRates;
    SplitOfPermutation(xs, ys, false);
    SplitOfPermutation(xs, ys, true);
    DirectFeesOfPermutation(OnPayout(xs, false), OnPayout(ys, false), cost, context);
    var payout := Payout(DirectFees(OnPayout(xs, false), cost, context).value, context);
    PayoutFeesAsSums(OnPayout(xs, true), payout);
    PayoutFeesAsSums(OnPayout(ys, true), payout);
    SumOfPermutation(c => Rate(c), OnPayout(xs, true), OnPayout(ys, true));
    FeeTotals(xs, cost, context);
    FeeTotals(ys, cost, context);
  }

  // ----- the pass only collects them

  function External(cs: seq<Component>): seq<Component> {
    if cs == [] then []
    else if IsExternalFee(cs[0]) then [cs[0]] + External(cs[1..])
    else External(cs[1..])
  }

  /** The enabled components that are not external fees. */
  function Kept(cs: seq<Component>): seq<Component> {
    if cs == [] then []
    else if !cs[0].enabled || IsExternalFee(cs[0]) then Kept(cs[1..])
    else [cs[0]] + Kept(cs[1..])
  }

  lemma StepIgnoresFees(c: Component, t: Tally, fees: seq<Component>, cost: int, context: Context)
    requires c.enabled && !IsExternalFee(c)
    ensures TallyStep(t.(externalFees := fees), c, cost, context)
            == match TallyStep(t, c, cost, context)
               case Ok(next) => Ok(next.(externalFees := fees))
               case Err(e) => Err(e)
    ensures TallyStep(t, c, cost, context).Ok? ==> TallyStep(t, c, cost, context).value.externalFees == t.externalFees
  {
    hide NextTotal, MarkupBase, Percent;
  }

  lemma {:induction false} TallyOfKept(cs: seq<Component>, t: Tally, fees: seq<Component>, cost: int, context: Context)
    ensures TallyAll(cs, t, cost, context)
            == match TallyAll(Kept(cs), t.(externalFees := fees), cost, context)
               case Ok(last) => Ok(last.(externalFees := t.externalFees + External(cs)))
               case Err(e) => Err(e)
  {
    if cs == [] {
      assert t.externalFees + External(cs) == t.externalFees;
    } else if !cs[0].enabled {
      assert TallyStep(t, cs[0], cost, context) == Ok(t);
      TallyOfKept(cs[1..], t, fees, cost, context);
    } else if IsExternalFee(cs[0]) {
      var next := t.(externalFees := t.externalFees + [cs[0]]);
      assert TallyStep(t, cs[0], cost, context) == Ok(next);
      hide TallyStep;
      TallyOfKept(cs[1..], next, fees, cost, context);
      assert t.externalFees + [cs[0]] + External(cs[1..]) == t.externalFees + External(cs);
    } else {
      hide TallyStep;
      assert Kept(cs)[1..] == Kept(cs[1..]) && External(cs) == External(cs[1..]);
      StepIgnoresFees(cs[0], t, fees, cost, context);
      if TallyStep(t, cs[0], cost, context).Ok? {
        TallyOfKept(cs[1..], TallyStep(t, cs[0], cost, context).value, fees, cost, context);
      }
    }
  }

  /** Permuting the external fees, anywhere among the other components, keeps acceptance and price. */
  lemma FeeOrderIsIrrelevant(xs: seq<Component>, ys: seq<Component>, cost: int, context: Context)
    requires Kept(xs) == Kept(ys) && multiset(External(xs)) == multiset(External(ys))
    ensures PlanFrom(xs, cost, context).Ok? <==> PlanFrom(ys, cost, context).Ok?
    ensures PlanFrom(xs, cost, context).Ok? ==>
              PriceOf(PlanFrom(xs, cost, context).value) == PriceOf(PlanFrom(ys, cost, context).value)
  {
    if PlanFrom(xs, cost, context).Ok? {
      FeeOrderKeepsPrice(xs, ys, cost, context);
    }
    if PlanFrom(ys, cost, context).Ok? {
      FeeOrderKeepsPrice(ys, xs, cost, context);
    }
  }

  lemma FeeOrderKeepsPrice(xs: seq<Component>, ys: seq<Component>, cost: int, context: Context)
    requires Kept(xs) == Kept(ys) && multiset(External(xs)) == multiset(External(ys))
    requires PlanFrom(xs, cost, context).Ok?
    ensures PlanFrom(ys, cost, context).Ok?
    ensures PriceOf(PlanFrom(xs, cost, context).value) == PriceOf(PlanFrom(ys, cost, context).value)
  {
    hide TallyAll, FeesOf, TotalCoefficient, TotalConstant, External, Kept;
    var start := StartTally(cost, context);
    TallyOfKept(xs, start, [], cost, context);
    TallyOfKept(ys, start, [], cost, context);
    assert start.externalFees + External(xs) == External(xs) && start.externalFees + External(ys) == External(ys);
    FeesOfPermutation(External(xs), External(ys), cost, context);
  }
}
