/**
 * Governed prices (pricing-governance-service.ts): the price proposed for a part on a marketplace, its floor, and the
 * proposals that become its approved price by decision or automatically.  Prices that the database stores are in cents.
 */
module Governance {
  import opened Wrappers
  import Cents

  datatype Rule = Rule(adjustmentPercent: real, minimumMarginPercent: real, minimumProfit: real, requireApproval: bool)

  const DEFAULT_RULE := Rule(0.0, 20.0, 10.0, true)

  datatype Cost = Cost(amount: int, currency: string)

  datatype Role = Owner | Admin | Manager | PricingOperator | Other

  /** No floor, an infinite one, or one in cents. */
  datatype Floor = NoFloor(reason: string) | Unbounded | FloorAt(cents: int)

  datatype Calculation = Calculation(market: int, floor: Floor, proposed: int)

  function MaxReal(a: real, b: real): real {
    if a < b then b else a
  }

  function MaxInt(a: int, b: int): int {
    if a < b then b else a
  }

  /** The price in dollars that leaves the minimum profit. */
  function ProfitFloor(cost: Cost, rule: Rule): real {
    Cents.ToDollars(cost.amount) + rule.minimumProfit
  }

  function MarginShare(rule: Rule): real {
    1.0 - rule.minimumMarginPercent / 100.0
  }

  /** The price in dollars that leaves the minimum margin. */
  function MarginFloor(cost: Cost, rule: Rule): real
    requires rule.minimumMarginPercent < 100.0
  {
    Cents.ToDollars(cost.amount) / MarginShare(rule)
  }

  /** The market price in dollars, adjusted, but never below the floor; an infinite floor cannot be stored. */
  function CalculateGovernedPrice(market: real, currency: string, cost: Option<Cost>, rule: Rule): Calculation {
    var adjusted := Cents.FromDollars(market * (1.0 + rule.adjustmentPercent / 100.0));
    if cost.None? then Calculation(Cents.FromDollars(market), NoFloor("INVENTORY_COST_MISSING"), MaxInt(1, adjusted))
    else if cost.value.currency != currency then Calculation(Cents.FromDollars(market), NoFloor("COST_CURRENCY_MISMATCH"), MaxInt(1, adjusted))
    else if rule.minimumMarginPercent >= 100.0 then Calculation(Cents.FromDollars(market), Unbounded, adjusted)
    else
      var floor := Cents.FromDollars(MaxReal(ProfitFloor(cost.value, rule), MarginFloor(cost.value, rule)));
      Calculation(Cents.FromDollars(market), FloorAt(floor), MaxInt(adjusted, floor))
  }

  // ----- what the floor means

  /** Does a price in dollars leave the minimum profit and the minimum margin, up to a tolerance in dollars? */
  predicate MeetsMinimums(price: real, cost: Cost, rule: Rule, tolerance: real) {
    && price - Cents.ToDollars(cost.amount) >= rule.minimumProfit - tolerance
    && 100.0 * (price + tolerance - Cents.ToDollars(cost.amount)) >= rule.minimumMarginPercent * (price + tolerance)
  }

  lemma QuotientBelow(x: real, c: real, d: real)
    requires d > 0.0
    ensures x >= c / d <==> x * d >= c
  {
    var q := c / d;
    assert q * d == c;
    if x >= q {
      assert (x - q) * d >= 0.0;
    } else {
      assert (q - x) * d > 0.0;
    }
  }

  lemma ShareOfPrice(price: real, cost: real, rule: Rule)
    ensures price * MarginShare(rule) >= cost <==> 100.0 * (price - cost) >= rule.minimumMarginPercent * price
  {
    assert price * MarginShare(rule) == price - price * (rule.minimumMarginPercent / 100.0);
    assert price * (rule.minimumMarginPercent / 100.0) == rule.minimumMarginPercent * price / 100.0;
  }

  lemma MinimumsAreFloors(price: real, cost: Cost, rule: Rule, tolerance: real)
    requires rule.minimumMarginPercent < 100.0
    ensures MeetsMinimums(price, cost, rule, tolerance)
       <==> price + tolerance >= MaxReal(ProfitFloor(cost, rule), MarginFloor(cost, rule))
  {
    QuotientBelow(price + tolerance, Cents.ToDollars(cost.amount), MarginShare(rule));
    ShareOfPrice(price + tolerance, Cents.ToDollars(cost.amount), rule);
  }

  /**
   * The rounded floor is within half a cent of both minimums: it and every price above it meet them up to half a cent,
   * and any price a cent or more below it misses one.
   */
  lemma FloorIsTight(market: real, currency: string, cost: Option<Cost>, rule: Rule, price: int)
    requires CalculateGovernedPrice(market, currency, cost, rule).floor.FloorAt?
    ensures var c := CalculateGovernedPrice(market, currency, cost, rule);
            && cost.Some? && rule.minimumMarginPercent < 100.0
            && c.floor.cents <= c.proposed
            && (price >= c.floor.cents ==> MeetsMinimums(Cents.ToDollars(price), cost.value, rule, 0.005))
            && (price < c.floor.cents ==> !MeetsMinimums(Cents.ToDollars(price), cost.value, rule, 0.0))
  {
    var floor := CalculateGovernedPrice(market, currency, cost, rule).floor.cents;
    var e := MaxReal(ProfitFloor(cost.value, rule), MarginFloor(cost.value, rule));
    MinimumsAreFloors(Cents.ToDollars(price), cost.value, rule, 0.005);
    MinimumsAreFloors(Cents.ToDollars(price), cost.value, rule, 0.0);
    hide MeetsMinimums, ProfitFloor, MarginFloor, MaxReal;
    CentsAround(e, floor, price);
  }

  /** There is a floor exactly if there is a cost in the market's currency, and it is finite exactly below a margin of 100%. */
  lemma FloorExactly(market: real, currency: string, cost: Option<Cost>, rule: Rule)
    ensures var c := CalculateGovernedPrice(market, currency, cost, rule);
            var known := cost.Some? && cost.value.currency == currency;
            && (c.floor.FloorAt? <==> known && rule.minimumMarginPercent < 100.0)
            && (c.floor.Unbounded? <==> known && rule.minimumMarginPercent >= 100.0)
            && (c.floor.NoFloor? <==> !known)
            && (c.floor.NoFloor? ==> (c.floor.reason == "INVENTORY_COST_MISSING" <==> cost.None?)
                                     && (c.floor.reason == "COST_CURRENCY_MISMATCH" <==> cost.Some?))
            && c.market as real - 0.5 <= 100.0 * market < c.market as real + 0.5
  {
    hide ProfitFloor, MarginFloor, MaxReal;
  }

  /** The price in dollars that the rule asks of the market. */
  function Adjusted(market: real, rule: Rule): real {
    market + market * rule.adjustmentPercent / 100.0
  }

  /**
   * The proposed price is the adjusted market price to the nearest cent, or the floor where that is higher, or a cent where
   * there is no floor and nothing positive is left.
   */
  lemma ProposedFollowsMarket(market: real, currency: string, cost: Option<Cost>, rule: Rule)
    ensures var c := CalculateGovernedPrice(market, currency, cost, rule);
            var least := if c.floor.FloorAt? then c.floor.cents else 1;
            !c.floor.Unbounded? ==>
              && c.proposed >= least
              && c.proposed as real >= 100.0 * Adjusted(market, rule) - 0.5
              && (c.proposed > least ==> c.proposed as real <= 100.0 * Adjusted(market, rule) + 0.5)
  {
    assert market * (1.0 + rule.adjustmentPercent / 100.0) == Adjusted(market, rule) by { OneMore(market, rule.adjustmentPercent); }
    hide Adjusted, ProfitFloor, MarginFloor, MaxReal;
  }

  lemma OneMore(x: real, percent: real)
    ensures x * (1.0 + percent / 100.0) == x + x * percent / 100.0
  {
    assert x * (1.0 + percent / 100.0) == x + x * (percent / 100.0);
    assert x * (percent / 100.0) == x * percent / 100.0;
  }

  lemma CentsAround(e: real, floor: int, price: int)
    requires floor == Cents.FromDollars(e)
    ensures price >= floor ==> Cents.ToDollars(price) + 0.005 >= e
    ensures price < floor ==> Cents.ToDollars(price) < e
  {
  }

  // ----- proposals

  datatype Status = Pending | Approved | Rejected | Overridden | Superseded

  datatype Key = Key(part: nat, marketplace: string)

  /** A proposal; `decider` is the role that decided it, if a person did. */
  datatype Proposal = Proposal(
    key: Key, currency: string, floor: Option<int>, proposed: int, approved: Option<int>, belowFloor: bool, status: Status,
    decider: Option<Role>)

  predicate Active(p: Proposal) {
    p.status.Pending? || p.status.Approved? || p.status.Overridden?
  }

  predicate InForce(p: Proposal) {
    p.status.Approved? || p.status.Overridden?
  }

  datatype Action = Approve | Reject | Override(price: real)

  /** A decision after its checks: what it will write if the proposal is still pending. */
  datatype Decision = Decision(proposal: nat, status: Status, approved: Option<int>, belowFloor: bool, role: Role)

  /** A creating transaction that has seen the proposals it supersedes. */
  datatype Creation = Creation(proposal: Proposal, seen: set<nat>)

  datatype State = State(
    serial: bool, proposals: map<nat, Proposal>, nextId: nat, creations: map<nat, Creation>, decisions: map<nat, Decision>)

  datatype Step =
    | BeginCreate(tx: nat, key: Key, market: real, currency: string, cost: Option<Cost>, rule: Rule)
    | CommitCreate(tx: nat)
    | RollBack(tx: nat)
    | ReadDecision(request: nat, proposal: nat, action: Action, role: Role, reasoned: bool)
    | CommitDecision(request: nat)

  function Init(serial: bool): State {
    State(serial, map[], 0, map[], map[])
  }

  /** The new proposal, pending or approved by the rule itself; nothing can be stored under an infinite floor. */
  function Proposed(key: Key, market: real, currency: string, cost: Option<Cost>, rule: Rule): Option<Proposal> {
    var c := CalculateGovernedPrice(market, currency, cost, rule);
    var floor := if c.floor.FloorAt? then Some(c.floor.cents) else None;
    if c.floor.Unbounded? then None
    else if !rule.requireApproval && floor.Some?
    then Some(Proposal(key, currency, floor, c.proposed, Some(c.proposed), false, Approved, None))
    else Some(Proposal(key, currency, floor, c.proposed, None, false, Pending, None))
  }

  function ActiveFor(proposals: map<nat, Proposal>, key: Key): set<nat> {
    set id | id in proposals && proposals[id].key == key && Active(proposals[id])
  }

  /** The checks of a decision and the price it approves. */
  function Decide(p: Proposal, id: nat, action: Action, role: Role, reasoned: bool): Option<Decision> {
    if !p.status.Pending? then None
    else
      match action
      case Reject => if reasoned then Some(Decision(id, Rejected, None, false, role)) else None
      case Approve =>
        if p.floor.None? then None
        else
          var below := p.proposed < p.floor.value;
          if below && !role.Owner? && !role.Admin? then None else Some(Decision(id, Approved, Some(p.proposed), below, role))
      case Override(price) =>
        if p.floor.None? || price <= 0.0 || !reasoned then None
        else
          var cents := Cents.FromDollars(price);
          var below := cents < p.floor.value;
          if below && !role.Owner? && !role.Admin? then None else Some(Decision(id, Overridden, Some(cents), below, role))
  }

  function Supersede(proposals: map<nat, Proposal>, seen: set<nat>): map<nat, Proposal> {
    map id | id in proposals :: if id in seen && Active(proposals[id]) then proposals[id].(status := Superseded) else proposals[id]
  }

  function CommitCreation(s: State, tx: nat): State
    requires tx in s.creations
  {
    var c := s.creations[tx];
    s.(proposals := Supersede(s.proposals, c.seen)[s.nextId := c.proposal], nextId := s.nextId + 1,
       creations := s.creations - {tx})
  }

  function CommitDecided(s: State, request: nat): State
    requires request in s.decisions
  {
    var d := s.decisions[request];
    var t := s.(decisions := s.decisions - {request});
    if d.proposal in s.proposals && s.proposals[d.proposal].status.Pending?
    then t.(proposals := s.proposals[d.proposal := Decided(s.proposals[d.proposal], d)])
    else t
  }

  /** With serial transactions nothing happens while a proposal is being created. */
  predicate Blocked(s: State, step: Step) {
    s.serial && s.creations != map[] && !(step.CommitCreate? && step.tx in s.creations) && !(step.RollBack? && step.tx in s.creations)
  }

  function Apply(s: State, step: Step): State {
    if Blocked(s, step) then s
    else
      match step
      case BeginCreate(tx, key, market, currency, cost, rule) =>
        var p := Proposed(key, market, currency, cost, rule);
        if tx in s.creations || p.None? then s
        else s.(creations := s.creations[tx := Creation(p.value, ActiveFor(s.proposals, key))])
      case CommitCreate(tx) => if tx in s.creations then CommitCreation(s, tx) else s
      case RollBack(tx) => s.(creations := s.creations - {tx})
      case ReadDecision(r, id, action, role, reasoned) =>
        if r in s.decisions || id !in s.proposals then s
        else
          var d := Decide(s.proposals[id], id, action, role, reasoned);
          if d.None? then s else s.(decisions := s.decisions[r := d.value])
      case CommitDecision(r) => if r in s.decisions then CommitDecided(s, r) else s
  }

  function Exec(s: State, steps: seq<Step>): State
    decreases |steps|
  {
    if steps == [] then s else Exec(Apply(s, steps[0]), steps[1..])
  }

  // ----- what every step keeps

  /** An approved price is never below its floor; one below it was overridden by an owner or an administrator. */
  predicate PriceFits(p: Proposal) {
    && (p.floor.Some? ==> p.floor.value <= p.proposed)
    && (InForce(p) ==> p.approved.Some? && p.floor.Some?)
    && (p.status.Pending? ==> p.approved.None?)
    && (p.status.Approved? ==> p.approved.Some? && p.floor.Some? && p.floor.value <= p.approved.value)
    && (p.approved.Some? ==> p.floor.Some?)
    && (p.approved.Some? && p.approved.value < p.floor.value ==>
          p.belowFloor && (p.decider == Some(Owner) || p.decider == Some(Admin)) && (InForce(p) ==> p.status.Overridden?))
  }

  predicate DecisionFits(proposals: map<nat, Proposal>, d: Decision) {
    d.proposal in proposals && Matches(proposals[d.proposal].floor, proposals[d.proposal].proposed, d)
  }

  /** What a decision writes, against the floor and the proposed price, which never change. */
  predicate Matches(floor: Option<int>, proposed: int, d: Decision) {
    && (d.status.Approved? || d.status.Rejected? || d.status.Overridden?)
    && (d.status.Rejected? ==> d.approved.None?)
    && (!d.status.Rejected? ==> d.approved.Some? && floor.Some?)
    && (d.status.Approved? ==> d.approved == Some(proposed))
    && (d.approved.Some? && floor.Some? && d.approved.value < floor.value ==> d.belowFloor && (d.role.Owner? || d.role.Admin?))
  }

  ghost predicate Inv(s: State) {
    && (forall id :: id in s.proposals ==> id < s.nextId && PriceFits(s.proposals[id]))
    && (forall r :: r in s.decisions ==> DecisionFits(s.proposals, s.decisions[r]))
    && (forall tx :: tx in s.creations ==> PriceFits(s.creations[tx].proposal) && Active(s.creations[tx].proposal))
  }

  ghost predicate OneActive(proposals: map<nat, Proposal>, key: Key) {
    forall i, j :: i in ActiveFor(proposals, key) && j in ActiveFor(proposals, key) ==> i == j
  }

  lemma ProposedFits(key: Key, market: real, currency: string, cost: Option<Cost>, rule: Rule)
    ensures var p := Proposed(key, market, currency, cost, rule);
            p.Some? ==> PriceFits(p.value) && Active(p.value) && p.value.key == key
  {
    hide Cents.FromDollars, MaxReal;
  }

  lemma DecideFits(proposals: map<nat, Proposal>, id: nat, action: Action, role: Role, reasoned: bool)
    requires id in proposals && PriceFits(proposals[id])
    ensures var d := Decide(proposals[id], id, action, role, reasoned); d.Some? ==> DecisionFits(proposals, d.value)
  {
    hide Cents.FromDollars;
  }

  lemma CommitCreationKeeps(s: State, tx: nat)
    requires Inv(s) && tx in s.creations
    ensures Inv(CommitCreation(s, tx))
  {
  }

  function Decided(p: Proposal, d: Decision): Proposal {
    p.(status := d.status, approved := d.approved, belowFloor := d.belowFloor, decider := Some(d.role))
  }

  lemma DecidedFits(p: Proposal, d: Decision)
    requires PriceFits(p) && p.status.Pending? && Matches(p.floor, p.proposed, d)
    ensures PriceFits(Decided(p, d))
  {
  }

  lemma CommitDecidedKeeps(s: State, request: nat)
    requires Inv(s) && request in s.decisions
    ensures Inv(CommitDecided(s, request))
  {
    hide PriceFits, Matches;
    var d := s.decisions[request];
    assert DecisionFits(s.proposals, d);
    if s.proposals[d.proposal].status.Pending? {
      DecidedFits(s.proposals[d.proposal], d);
    }
  }

  lemma StepKeepsInv(s: State, step: Step)
    requires Inv(s)
    ensures Inv(Apply(s, step))
  {
    hide PriceFits, DecisionFits, Blocked;
    match step
    case BeginCreate(tx, key, market, currency, cost, rule) =>
      ProposedFits(key, market, currency, cost, rule);
      hide Proposed, ActiveFor, Active;
    case CommitCreate(tx) =>
      if tx in s.creations {
        CommitCreationKeeps(s, tx);
      }
      hide CommitCreation;
    case RollBack(tx) =>
    case ReadDecision(r, id, action, role, reasoned) =>
      if id in s.proposals {
        DecideFits(s.proposals, id, action, role, reasoned);
      }
      hide Decide;
    case CommitDecision(r) =>
      if r in s.decisions {
        CommitDecidedKeeps(s, r);
      }
      hide CommitDecided;
  }

  lemma {:induction false} ExecKeepsInv(s: State, steps: seq<Step>)
    requires Inv(s)
    ensures Inv(Exec(s, steps))
    decreases |steps|
  {
    hide Inv, Apply;
    if steps != [] {
      StepKeepsInv(s, steps[0]);
      ExecKeepsInv(Apply(s, steps[0]), steps[1..]);
    }
  }

  /** After every run, an APPROVED price is at or above its floor, and a lower one in force was overridden by OWNER or ADMIN. */
  lemma ApprovedPricesAreGoverned(serial: bool, steps: seq<Step>, id: nat)
    ensures var s := Exec(Init(serial), steps);
            id in s.proposals && InForce(s.proposals[id]) ==>
              var p := s.proposals[id];
              && p.approved.Some? && p.floor.Some?
              && (p.status.Approved? ==> p.floor.value <= p.approved.value)
              && (p.approved.value < p.floor.value ==> p.status.Overridden? && (p.decider == Some(Owner) || p.decider == Some(Admin)))
  {
    hide Apply;
    ExecKeepsInv(Init(serial), steps);
  }

  // ----- one active proposal per part and marketplace

  /**
   * A creation keeps it at one active proposal exactly when its transaction saw every proposal that is active when it
   * commits; nothing else in the database guards this.
   */
  lemma CreationKeepsOneExactly(s: State, tx: nat)
    requires Inv(s) && tx in s.creations
    ensures var c := s.creations[tx];
            OneActive(CommitCreation(s, tx).proposals, c.proposal.key) <==> ActiveFor(s.proposals, c.proposal.key) <= c.seen
  {
    hide PriceFits, DecisionFits;
    var c := s.creations[tx];
    var t := CommitCreation(s, tx);
    assert s.nextId in ActiveFor(t.proposals, c.proposal.key);
    forall id | id in ActiveFor(s.proposals, c.proposal.key) && id !in c.seen
      ensures id in ActiveFor(t.proposals, c.proposal.key) && id != s.nextId
    {
      assert t.proposals[id] == s.proposals[id];
    }
  }

  lemma CreationLeavesOthers(s: State, tx: nat, key: Key)
    requires Inv(s) && tx in s.creations && key != s.creations[tx].proposal.key
    ensures ActiveFor(CommitCreation(s, tx).proposals, key) <= ActiveFor(s.proposals, key)
  {
    hide PriceFits, DecisionFits;
  }

  lemma DecisionAddsNoActive(s: State, request: nat, key: Key)
    requires request in s.decisions
    ensures ActiveFor(CommitDecided(s, request).proposals, key) <= ActiveFor(s.proposals, key)
  {
  }

  /** With serial transactions the one open creation still sees the current active proposals. */
  ghost predicate SerialInv(s: State) {
    && Inv(s) && s.serial
    && (forall key :: OneActive(s.proposals, key))
    && (forall a, b :: a in s.creations && b in s.creations ==> a == b)
    && (forall tx :: tx in s.creations ==> s.creations[tx].seen == ActiveFor(s.proposals, s.creations[tx].proposal.key))
  }

  lemma SerialCommitKeeps(s: State, tx: nat)
    requires SerialInv(s) && tx in s.creations
    ensures SerialInv(CommitCreation(s, tx))
  {
    CommitCreationKeeps(s, tx);
    var t := CommitCreation(s, tx);
    CreationKeepsOneExactly(s, tx);
    forall key
      ensures OneActive(t.proposals, key)
    {
      if key != s.creations[tx].proposal.key {
        CreationLeavesOthers(s, tx, key);
        assert OneActive(s.proposals, key);
      }
    }
    assert t.creations == map[];
    hide Inv, ActiveFor, OneActive;
  }

  lemma SerialDecisionKeeps(s: State, request: nat)
    requires SerialInv(s) && request in s.decisions && s.creations == map[]
    ensures SerialInv(CommitDecided(s, request))
  {
    CommitDecidedKeeps(s, request);
    hide Inv, ActiveFor;
    forall key
      ensures OneActive(CommitDecided(s, request).proposals, key)
    {
      DecisionAddsNoActive(s, request, key);
      assert OneActive(s.proposals, key);
    }
  }

  lemma SerialStepKeeps(s: State, step: Step)
    requires SerialInv(s)
    ensures SerialInv(Apply(s, step))
  {
    StepKeepsInv(s, step);
    hide Inv, ActiveFor, OneActive;
    if !Blocked(s, step) {
      match step
      case BeginCreate(tx, key, market, currency, cost, rule) =>
        ProposedFits(key, market, currency, cost, rule);
        hide Proposed, PriceFits;
      case CommitCreate(tx) =>
        if tx in s.creations {
          SerialCommitKeeps(s, tx);
        }
        hide CommitCreation;
      case RollBack(tx) =>
      case ReadDecision(r, id, action, role, reasoned) => hide Decide;
      case CommitDecision(r) =>
        if r in s.decisions {
          SerialDecisionKeeps(s, r);
        }
        hide CommitDecided;
    }
  }

  lemma {:induction false} SerialExecKeeps(s: State, steps: seq<Step>)
    requires SerialInv(s)
    ensures SerialInv(Exec(s, steps))
    decreases |steps|
  {
    hide SerialInv, Apply;
    if steps != [] {
      SerialStepKeeps(s, steps[0]);
      SerialExecKeeps(Apply(s, steps[0]), steps[1..]);
    }
  }

  /** Without serial transactions, two creations that overlap leave two active proposals. */
  lemma OverlappingCreationsLeaveTwo(key: Key, rule: Rule)
    ensures exists steps :: !OneActive(Exec(Init(false), steps).proposals, key)
  {
    var begin0 := BeginCreate(0, key, 10.0, "USD", None, rule);
    var begin1 := BeginCreate(1, key, 10.0, "USD", None, rule);
    var steps := [begin0, begin1, CommitCreate(0), CommitCreate(1)];
    PendingWithoutCost(key, rule);
    hide Proposed, CalculateGovernedPrice;
    var p := Proposed(key, 10.0, "USD", None, rule).value;
    var s2 := Init(false).(creations := map[0 := Creation(p, {}), 1 := Creation(p, {})]);
    assert Apply(Apply(Init(false), begin0), begin1) == s2 by {
      assert ActiveFor(map[], key) == {};
      assert Apply(Init(false), begin0) == Init(false).(creations := map[0 := Creation(p, {})]);
    }
    BothCommit(s2, p, key);
    hide Apply;
    assert steps[1..] == [begin1, CommitCreate(0), CommitCreate(1)];
    assert steps[1..][1..] == [CommitCreate(0), CommitCreate(1)];
    assert steps[1..][1..][1..] == [CommitCreate(1)];
    var s3 := Apply(s2, CommitCreate(0));
    assert Exec(s3, [CommitCreate(1)]) == Exec(Apply(s3, CommitCreate(1)), []);
    assert Exec(s2, [CommitCreate(0), CommitCreate(1)]) == Apply(s3, CommitCreate(1));
    assert Exec(Init(false), steps) == Apply(s3, CommitCreate(1));
  }

  lemma PendingWithoutCost(key: Key, rule: Rule)
    ensures var p := Proposed(key, 10.0, "USD", None, rule); p.Some? && Active(p.value) && p.value.key == key
  {
    ProposedFits(key, 10.0, "USD", None, rule);
  }

  lemma BothCommit(s: State, p: Proposal, key: Key)
    requires s == Init(false).(creations := map[0 := Creation(p, {}), 1 := Creation(p, {})]) && Active(p) && p.key == key
    ensures !OneActive(Apply(Apply(s, CommitCreate(0)), CommitCreate(1)).proposals, key)
  {
    var t := Apply(Apply(s, CommitCreate(0)), CommitCreate(1));
    assert 0 in t.proposals && t.proposals[0] == p;
    assert 1 in t.proposals && t.proposals[1] == p;
    assert 0 in ActiveFor(t.proposals, key) && 1 in ActiveFor(t.proposals, key);
  }

  lemma SerialRunKeepsOne(steps: seq<Step>, key: Key)
    ensures OneActive(Exec(Init(true), steps).proposals, key)
  {
    hide Apply;
    SerialExecKeeps(Init(true), steps);
    hide Inv;
  }

  // ----- what a decision decides

  /** Which decisions pass, and what they write: the proposed price, none, or the given price to the nearest cent. */
  lemma DecisionExactly(p: Proposal, id: nat, action: Action, role: Role, reasoned: bool)
    ensures var least := if p.floor.Some? then p.floor.value else 0;
            var mayGoBelow := role.Owner? || role.Admin?;
            Decide(p, id, action, role, reasoned).Some? <==>
              p.status.Pending?
              && match action
                 case Reject => reasoned
                 case Approve => p.floor.Some? && (p.proposed < least ==> mayGoBelow)
                 case Override(price) => p.floor.Some? && price > 0.0 && reasoned && (100.0 * price < least as real - 0.5 ==> mayGoBelow)
    ensures var d := Decide(p, id, action, role, reasoned);
            d.Some? ==>
              && d.value.proposal == id && d.value.role == role
              && (d.value.belowFloor <==> d.value.approved.Some? && p.floor.Some? && d.value.approved.value < p.floor.value)
              && match action
                 case Reject => d.value.status.Rejected? && d.value.approved.None?
                 case Approve => d.value.status.Approved? && d.value.approved == Some(p.proposed)
                 case Override(price) =>
                   && d.value.status.Overridden? && d.value.approved.Some?
                   && d.value.approved.value as real - 0.5 <= 100.0 * price < d.value.approved.value as real + 0.5
  {
  }

  /** What is proposed waits for a decision, unless the rule asks for none and there is a floor. */
  lemma ProposedExactly(key: Key, market: real, currency: string, cost: Option<Cost>, rule: Rule)
    ensures var c := CalculateGovernedPrice(market, currency, cost, rule);
            var p := Proposed(key, market, currency, cost, rule);
            && (p.None? <==> c.floor.Unbounded?)
            && (p.Some? ==>
                  && p.value.key == key && p.value.currency == currency && p.value.proposed == c.proposed
                  && (p.value.floor.Some? <==> c.floor.FloorAt?) && (p.value.floor.Some? ==> p.value.floor.value == c.floor.cents)
                  && (p.value.status.Approved? <==> !rule.requireApproval && c.floor.FloorAt?)
                  && (p.value.status.Approved? ==> p.value.approved == Some(c.proposed)) && !p.value.belowFloor && p.value.decider.None?
                  && (!p.value.status.Approved? ==> p.value.status.Pending? && p.value.approved.None?))
  {
    hide CalculateGovernedPrice;
  }

  /** A creation adds its proposal under a new number and supersedes what its transaction saw as pending or in force. */
  lemma CreationExactly(s: State, tx: nat)
    requires Inv(s) && tx in s.creations
    ensures var t, c := CommitCreation(s, tx), s.creations[tx];
            && t.proposals.Keys == s.proposals.Keys + {s.nextId} && t.proposals[s.nextId] == c.proposal
            && forall id :: id in s.proposals ==>
                 var p := s.proposals[id];
                 t.proposals[id] == if id in c.seen && !p.status.Rejected? && !p.status.Superseded? then p.(status := Superseded) else p
  {
    hide PriceFits, DecisionFits;
  }

  /** What a creating transaction sees: everything of its part and marketplace that is not rejected or superseded. */
  lemma CreationSees(s: State, tx: nat, key: Key, market: real, currency: string, cost: Option<Cost>, rule: Rule)
    requires tx !in s.creations && !Blocked(s, BeginCreate(tx, key, market, currency, cost, rule))
    ensures var t := Apply(s, BeginCreate(tx, key, market, currency, cost, rule));
            tx in t.creations ==>
              && Proposed(key, market, currency, cost, rule) == Some(t.creations[tx].proposal)
              && forall id :: id in t.creations[tx].seen <==>
                   id in s.proposals && s.proposals[id].key == key && !s.proposals[id].status.Rejected? && !s.proposals[id].status.Superseded?
  {
    hide Proposed;
  }

  /** A proposal may be decided once and superseded; what it is about and what was decided stay. */
  predicate Continues(p: Proposal, q: Proposal) {
    && q.key == p.key && q.currency == p.currency && q.floor == p.floor && q.proposed == p.proposed
    && (!p.status.Pending? ==>
          && q.approved == p.approved && q.belowFloor == p.belowFloor && q.decider == p.decider
          && (q.status == p.status || (InForce(p) && q.status.Superseded?)))
  }

  lemma StepContinues(s: State, step: Step, id: nat)
    requires Inv(s) && id in s.proposals
    ensures id in Apply(s, step).proposals && Continues(s.proposals[id], Apply(s, step).proposals[id])
  {
    hide Proposed, Decide;
  }

  lemma ContinuesTwice(p: Proposal, q: Proposal, r: Proposal)
    requires Continues(p, q) && Continues(q, r)
    ensures Continues(p, r)
  {
  }

  lemma {:induction false} ExecContinues(s: State, steps: seq<Step>, id: nat)
    requires Inv(s) && id in s.proposals
    ensures id in Exec(s, steps).proposals && Continues(s.proposals[id], Exec(s, steps).proposals[id])
    decreases |steps|
  {
    hide Inv, Apply;
    if steps != [] {
      StepKeepsInv(s, steps[0]);
      StepContinues(s, steps[0], id);
      ExecContinues(Apply(s, steps[0]), steps[1..], id);
      ContinuesTwice(s.proposals[id], Apply(s, steps[0]).proposals[id], Exec(s, steps).proposals[id]);
    }
  }

  /** Between any two moments of any run a decision is final, except that the proposal may be superseded. */
  lemma DecisionsAreFinal(serial: bool, before: seq<Step>, after: seq<Step>, id: nat)
    requires id in Exec(Init(serial), before).proposals
    ensures var s := Exec(Init(serial), before);
            id in Exec(s, after).proposals && Continues(s.proposals[id], Exec(s, after).proposals[id])
  {
    hide Apply;
    ExecKeepsInv(Init(serial), before);
    ExecContinues(Exec(Init(serial), before), after, id);
    hide Inv, Exec;
  }

  /** Every part and marketplace has at most one active proposal after every run exactly if creating transactions are serial. */
  lemma AtMostOneActiveProposal(serial: bool)
    ensures (forall steps: seq<Step>, key :: OneActive(Exec(Init(serial), steps).proposals, key)) <==> serial
  {
    hide Apply, Exec, OneActive;
    if serial {
      forall steps: seq<Step>, key
        ensures OneActive(Exec(Init(true), steps).proposals, key)
      {
        SerialRunKeepsOne(steps, key);
      }
    } else {
      OverlappingCreationsLeaveTwo(Key(0, "EBAY_US"), DEFAULT_RULE);
    }
  }
}
