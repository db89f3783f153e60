/**
 Plans through their life: what planning establishes, what every rebase and refresh keeps, and the
 plan a rebase leaves alone.
 */
module PlannerFixpoint {
  import opened Wrappers
  import opened Arithmetic
  import opened Trading
  import opened Rounding
  import opened PlanDomain
  import opened ExitLadder
  import opened Planner
  import opened PlannerBudget
  import opened PlannerExits
  import opened PlannerGuards

  // ----- every accepted plan is well formed

  /** The requests the intent model lets through. */
  predicate WellFormedIntent(intent: Intent) {
    && (intent.takeProfit.Some? ==> intent.takeProfit.value > 0.0)
    && (intent.leverage.Some? ==> intent.leverage.value >= 1.0)
  }

  /** A plan whose shares are those of the policy it carries. */
  predicate InLine(p: Plan) {
    && p.version == 2 && |p.orders| == 3
    && p.orders[0].name == "E1" && p.orders[0].riskPct == Some(p.policy.strategy.risks.0)
    && p.runnerPct == p.policy.strategy.runnerPct
  }

  /** Orders as the ladder names and allots them. */
  predicate LadderOrders(orders: seq<Order>, s: Strategy) {
    && |orders| == 3
    && orders[0].name == "E1" && orders[1].name == "E2" && orders[2].name == "E3"
    && orders[0].riskPct == Some(s.risks.0) && orders[1].riskPct == Some(s.risks.1)
    && orders[2].riskPct == Some(s.risks.2)
    && ValidOrder(orders[0]) && ValidOrder(orders[1]) && ValidOrder(orders[2])
  }

  lemma {:induction false} SizedOrderIsValid(leg: Leg, budget: real, stop: real, i: Instrument)
    requires Percentage(leg.riskPct) && SizedOrder(leg, budget, stop, i).Ok?
    ensures
      var o := SizedOrder(leg, budget, stop, i).value;
      ValidOrder(o) && o.name == leg.name && o.riskPct == Some(leg.riskPct) && o.orderType == leg.orderType
  {
  }

  lemma {:induction false} SizedLegsAreLadder(
    budget: real, l: Levels, s: Strategy, first: OrderType, stop: real, i: Instrument)
    requires ValidStrategy(s) && SizedLegs(budget, l, s, first, stop, i).Ok?
    ensures LadderOrders(SizedLegs(budget, l, s, first, stop, i).value, s)
  {
    SizedOrderIsValid(Leg("E1", first, l.first, s.risks.0), Share(budget, s.risks.0), stop, i);
    SizedOrderIsValid(Leg("E2", LimitOrder, l.second, s.risks.1), Share(budget, s.risks.1), stop, i);
    SizedOrderIsValid(Leg("E3", LimitOrder, l.third, s.risks.2), Share(budget, s.risks.2), stop, i);
  }

  /** Exits as the policy allots them. */
  predicate LadderTargets(targets: seq<Target>, s: Strategy) {
    && |targets| == 3
    && ValidTarget(targets[0]) && ValidTarget(targets[1]) && ValidTarget(targets[2])
    && targets[0].closePct == s.targetPcts.0 && targets[1].closePct == s.targetPcts.1
    && targets[2].closePct == s.targetPcts.2
  }

  lemma {:induction false} LadderExitsAreValid(
    side: Side, s: Strategy, orders: seq<Order>, stop: real, i: Instrument, target: Option<real>)
    requires i.tick > 0.0 && i.qtyStep > 0.0 && |orders| == 3 && TotalQuantity(orders) > 0.0 && ValidStrategy(s)
    requires LadderExits(side, s, orders, stop, i, target).Ok?
    ensures LadderTargets(LadderExits(side, s, orders, stop, i, target).value.targets, s)
  {
    var q := ExitRequest(side, s, WeightedEntry(orders), stop, i.tick, target);
    var chosen := ExitParts(q);
    DerivedPcts(q, chosen.rules);
    var ts := TargetsOf(q, chosen.rules);
    assert ts[0] in ts && ts[1] in ts && ts[2] in ts;
  }

  lemma {:induction false} AllThree<T>(xs: seq<T>, ok: T -> bool)
    requires |xs| == 3 && ok(xs[0]) && ok(xs[1]) && ok(xs[2])
    ensures forall x :: x in xs ==> ok(x)
  {
  }

  /** Everything a version-2 plan is checked for follows from its orders, exits and loss. */
  lemma {:induction false} LadderPlanIsValid(p: Plan)
    requires ValidPolicy(p.policy) && p.version == 2 && p.slices == []
    requires LadderOrders(p.orders, p.policy.strategy) && LadderTargets(p.targets, p.policy.strategy)
    requires p.leverage >= 1.0 && p.stop > 0.0 && p.takeProfit == p.targets[2].price
    requires p.traderTarget.Some? ==> p.traderTarget.value > 0.0
    requires p.runnerPct == p.policy.strategy.runnerPct && AffordablePlan(p)
    ensures ValidPlan(p) && InLine(p)
  {
    AllThree(p.orders, (o: Order) => ValidOrder(o));
    AllThree(p.targets, (t: Target) => ValidTarget(t));
    assert forall o :: o in p.orders ==> ValidOrder(o) by {
      forall o | o in p.orders ensures ValidOrder(o) {
        assert ((x: Order) => ValidOrder(x))(o);
      }
    }
    assert forall t :: t in p.targets ==> ValidTarget(t) by {
      forall t | t in p.targets ensures ValidTarget(t) {
        assert ((x: Target) => ValidTarget(x))(t);
      }
    }
  }

  lemma {:induction false} PlanLeverageIsValid(intent: Intent, i: Instrument)
    requires ValidInstrument(i) && WellFormedIntent(intent)
    ensures PlanLeverage(intent, i).Ok? ==> PlanLeverage(intent, i).value >= 1.0
  {
    if i.leverage.Some? {
      SelectedLeverageIsLargest(i.leverage.value, if intent.leverage.Some? then intent.leverage.value else 10.0);
    }
  }

  lemma {:induction false} AssembledIsValid(
    intent: Intent, policy: Policy, i: Instrument, p: Protective, l: Levels, ladder: Ladder, exits: Exits,
    leverage: real)
    requires ValidPolicy(policy) && WellFormedIntent(intent) && i.tick > 0.0 && p.stop > 0.0 && leverage >= 1.0
    requires BeyondStop(intent.side, l, p.stop) && PlanLadder(intent, policy, i, l, p.stop) == Ok(ladder)
    requires LadderExits(intent.side, policy.strategy, ladder.orders, p.stop, i, intent.takeProfit) == Ok(exits)
    ensures |exits.targets| == 3
    ensures ValidPlan(AssembledPlan(intent, policy, leverage, p, ladder, exits))
    ensures InLine(AssembledPlan(intent, policy, leverage, p, ladder, exits))
  {
    PlanLadderIsAffordable(intent, policy, i, l, p.stop);
    LadderExitsAreValid(intent.side, policy.strategy, ladder.orders, p.stop, i, intent.takeProfit);
    var first := if intent.entry.AtMarket? then MarketOrder else LimitOrder;
    SizedLegsAreLadder(RiskBudget(policy).value, l, policy.strategy, first, p.stop, i);
    LadderPlanIsValid(AssembledPlan(intent, policy, leverage, p, ladder, exits));
  }

  /** Constructing the plan cannot fail once its parts were accepted. */
  lemma {:induction false} PlanIsInLine(intent: Intent, policy: Policy, i: Instrument)
    requires ValidPolicy(policy) && ValidInstrument(i) && WellFormedIntent(intent)
    ensures MakePlan(intent, policy, i) != Err(InvalidPlan)
    ensures MakePlan(intent, policy, i).Ok? ==> InLine(MakePlan(intent, policy, i).value)
  {
    var s := policy.strategy;
    if i.tick <= 0.0 || ResolveStop(intent, s, i).Err? { return; }
    var p := ResolveStop(intent, s, i).value;
    if PlanLevels(intent, s, i, p.stop).Err? { return; }
    PlanLevelsAreOrdered(intent, s, i, p.stop);
    var l := PlanLevels(intent, s, i, p.stop).value;
    var ladder := PlanLadder(intent, policy, i, l, p.stop);
    PartErrors(intent, policy, i, l, p.stop);
    if ladder.Err? { return; }
    var exits := LadderExits(intent.side, s, ladder.value.orders, p.stop, i, intent.takeProfit);
    var leverage := PlanLeverage(intent, i);
    if exits.Ok? && leverage.Ok? {
      PlanLeverageIsValid(intent, i);
      AssembledIsValid(intent, policy, i, p, l, ladder.value, exits.value, leverage.value);
    }
  }

  lemma {:induction false} PartErrors(intent: Intent, policy: Policy, i: Instrument, l: Levels, stop: real)
    requires i.tick > 0.0
    ensures PlanLadder(intent, policy, i, l, stop) != Err(InvalidPlan)
    ensures
      var ladder := PlanLadder(intent, policy, i, l, stop);
      ladder.Ok? ==>
        LadderExits(intent.side, policy.strategy, ladder.value.orders, stop, i, intent.takeProfit) != Err(InvalidPlan)
  {
    var ladder := PlanLadder(intent, policy, i, l, stop);
    if ladder.Ok? {
      ExitsNeverInvalid(intent.side, policy.strategy, ladder.value.orders, stop, i, intent.takeProfit);
    }
  }

  lemma {:induction false} BuildNeverInvalid(q: ExitLadder.Request)
    requires q.tick > 0.0 && q.distance > 0.0
    ensures BuildExits(q) != Err(InvalidPlan)
  {
    if ChosenRules(q).Ok? {
      FaultIsPriceFault(q, ChosenRules(q).value.rules, 0);
    }
  }

  lemma {:induction false} FaultNeverInvalid(
    side: Side, primary: Order, stop: real, targets: seq<Target>, i: Instrument)
    requires i.tick > 0.0 && i.qtyStep > 0.0
    ensures ExitFault(side, primary, stop, targets, i) != Some(InvalidPlan)
  {
  }

  lemma {:induction false} ExitsNeverInvalid(
    side: Side, s: Strategy, orders: seq<Order>, stop: real, i: Instrument, target: Option<real>)
    requires i.tick > 0.0 && i.qtyStep > 0.0 && |orders| == 3 && TotalQuantity(orders) > 0.0
    ensures LadderExits(side, s, orders, stop, i, target) != Err(InvalidPlan)
  {
    if WeightedEntry(orders) != stop {
      var q := ExitRequest(side, s, WeightedEntry(orders), stop, i.tick, target);
      BuildNeverInvalid(q);
      if BuildExits(q).Ok? {
        FaultNeverInvalid(side, orders[0], stop, BuildExits(q).value.targets, i);
      }
    }
  }

  // ----- a rebase keeps a plan in line

  lemma {:induction false} RebasedLegsAreLadder(
    plan: Plan, fillPrice: real, filled: real, l: Levels, budget: real, scale: real, i: Instrument)
    requires ValidStrategy(plan.policy.strategy) && InLine(plan) && plan.orders[0].orderType.MarketOrder?
    requires filled > 0.0 && fillPrice > 0.0
    requires RebasedLegs(plan, fillPrice, filled, l, budget, scale, i).Ok?
    ensures LadderOrders(RebasedLegs(plan, fillPrice, filled, l, budget, scale, i).value, plan.policy.strategy)
  {
    var s := plan.policy.strategy;
    SizedOrderIsValid(Leg("E2", LimitOrder, l.second, s.risks.1), Value(Share(budget, s.risks.1), scale), plan.stop, i);
    SizedOrderIsValid(Leg("E3", LimitOrder, l.third, s.risks.2), Value(Share(budget, s.risks.2), scale), plan.stop, i);
  }

  lemma {:induction false} RebasedLadderIsLadder(plan: Plan, fillPrice: real, filled: real, i: Instrument)
    requires ValidPolicy(plan.policy) && InLine(plan) && plan.orders[0].orderType.MarketOrder?
    requires filled > 0.0 && fillPrice > 0.0 && i.tick > 0.0
    ensures RebasedLadder(plan, fillPrice, filled, i) != Err(InvalidPlan)
    ensures
      var r := RebasedLadder(plan, fillPrice, filled, i);
      r.Ok? ==> LadderOrders(r.value.orders, plan.policy.strategy)
  {
    if RiskBudget(plan.policy).Err? { return; }
    BudgetIsPositive(plan.policy);
    var s, budget := plan.policy.strategy, RiskBudget(plan.policy).value;
    var l := LadderLevels(plan.side, s, fillPrice, plan.stop, i.tick);
    var risk := Value(filled, Abs(fillPrice - plan.stop));
    if CheckedLevels(plan.side, l, plan.stop).Err? || RemainingScale(budget, s, risk).Err? { return; }
    var scale := RemainingScale(budget, s, risk).value;
    if RebasedLegs(plan, fillPrice, filled, l, budget, scale, i).Ok? {
      RebasedLegsAreLadder(plan, fillPrice, filled, l, budget, scale, i);
    }
  }

  lemma {:induction false} RebasedIsValid(
    plan: Plan, fillPrice: real, filled: real, i: Instrument, ladder: Ladder, exits: Exits)
    requires ValidPolicy(plan.policy) && ValidPlan(plan) && InLine(plan) && plan.slices == []
    requires RebaseInputFault(plan, fillPrice, filled).None? && i.tick > 0.0
    requires RebasedLadder(plan, fillPrice, filled, i) == Ok(ladder)
    requires LadderExits(plan.side, plan.policy.strategy, ladder.orders, plan.stop, i, RebasedTarget(plan)) == Ok(exits)
    ensures |exits.targets| == 3
    ensures ValidPlan(RebasedPlan(plan, ladder, exits)) && InLine(RebasedPlan(plan, ladder, exits))
  {
    RebasedLadderIsLadder(plan, fillPrice, filled, i);
    RebasedLadderIsAffordable(plan, fillPrice, filled, i);
    LadderExitsAreValid(plan.side, plan.policy.strategy, ladder.orders, plan.stop, i, RebasedTarget(plan));
    LadderPlanIsValid(RebasedPlan(plan, ladder, exits));
  }

  /**
   The shape of a plan survives every rebase: an unsliced plan in line with its policy is never refused
   as an invalid plan, and what comes out is in line again, so rebases can follow one another.
   */
  lemma {:induction false} RebaseStaysInLine(plan: Plan, fillPrice: real, filled: real, i: Instrument)
    requires ValidPolicy(plan.policy) && ValidPlan(plan) && InLine(plan) && plan.slices == []
    ensures Rebase(plan, fillPrice, filled, i) != Err(InvalidPlan)
    ensures
      var r := Rebase(plan, fillPrice, filled, i);
      r.Ok? ==> ValidPlan(r.value) && InLine(r.value) && r.value.slices == []
  {
    if RebaseInputFault(plan, fillPrice, filled).Some? || i.tick <= 0.0 { return; }
    RebasedLadderIsLadder(plan, fillPrice, filled, i);
    var ladder := RebasedLadder(plan, fillPrice, filled, i);
    if ladder.Err? { return; }
    var exits := LadderExits(plan.side, plan.policy.strategy, ladder.value.orders, plan.stop, i, RebasedTarget(plan));
    ExitsNeverInvalid(plan.side, plan.policy.strategy, ladder.value.orders, plan.stop, i, RebasedTarget(plan));
    if exits.Ok? {
      RebasedIsValid(plan, fillPrice, filled, i, ladder.value, exits.value);
    }
  }

  // ----- the planned fill changes nothing

  /** The primary leg of a MARKET plan, and the scale-ins a rebase would size again. */
  lemma {:induction false} RebasedLegsAtPlan(plan: Plan, l: Levels, budget: real, i: Instrument)
    requires ValidStrategy(plan.policy.strategy) && |plan.orders| == 3 && plan.orders[0].quantity > 0.0
    requires SizedLegs(budget, l, plan.policy.strategy, MarketOrder, plan.stop, i) == Ok(plan.orders)
    ensures RebasedLegs(plan, plan.orders[0].reference, plan.orders[0].quantity, l, budget, 1.0, i) == Ok(plan.orders)
  {
    var s := plan.policy.strategy;
    assert Value(Share(budget, s.risks.1), 1.0) == Share(budget, s.risks.1);
    assert Value(Share(budget, s.risks.2), 1.0) == Share(budget, s.risks.2);
    assert plan.orders[0].price == None;
  }

  lemma {:induction false} RebasedLadderAtPlan(plan: Plan, l: Levels, budget: real, i: Instrument)
    requires ValidPolicy(plan.policy) && |plan.orders| == 3 && plan.orders[0].quantity > 0.0 && i.tick > 0.0
    requires RiskBudget(plan.policy) == Ok(budget)
    requires SizedLegs(budget, l, plan.policy.strategy, MarketOrder, plan.stop, i) == Ok(plan.orders)
    requires CheckedLevels(plan.side, l, plan.stop).Ok?
    requires l == LadderLevels(plan.side, plan.policy.strategy, plan.orders[0].reference, plan.stop, i.tick)
    requires AffordablePlan(plan) && LegLoss(plan.orders[0], plan.stop) <= Share(budget, plan.policy.strategy.risks.0)
    ensures RebasedLadder(plan, plan.orders[0].reference, plan.orders[0].quantity, i)
         == Ok(Ladder(plan.orders, plan.plannedLoss))
  {
    BudgetIsPositive(plan.policy);
    ScaleIsFraction(budget, plan.policy.strategy, LegLoss(plan.orders[0], plan.stop));
    CheckedLevelsAreOrdered(plan.side, l, plan.stop);
    RebasedLegsAtPlan(plan, l, budget, i);
  }

  /** What an accepted MARKET plan satisfies, as the hypotheses of `RebasedLadderAtPlan`. */
  lemma {:induction false} MarketPlanParts(intent: Intent, policy: Policy, i: Instrument)
    returns (plan: Plan, l: Levels, budget: real, exits: Exits)
    requires ValidPolicy(policy) && ValidInstrument(i) && intent.entry.AtMarket? && MakePlan(intent, policy, i).Ok?
    ensures plan == MakePlan(intent, policy, i).value && ValidPlan(plan) && plan.version == 2
    ensures plan.policy == policy && plan.side == intent.side
    ensures i.tick > 0.0 && i.qtyStep > 0.0 && RiskBudget(policy) == Ok(budget)
    ensures AffordablePlan(plan) && LegLoss(plan.orders[0], plan.stop) <= Share(budget, policy.strategy.risks.0)
    ensures SizedLegs(budget, l, policy.strategy, MarketOrder, plan.stop, i) == Ok(plan.orders)
    ensures CheckedLevels(plan.side, l, plan.stop).Ok? && l.first == i.marketPrice
    ensures l == LadderLevels(plan.side, policy.strategy, i.marketPrice, plan.stop, i.tick)
    ensures TotalQuantity(plan.orders) > 0.0
    ensures LadderExits(plan.side, policy.strategy, plan.orders, plan.stop, i, intent.takeProfit) == Ok(exits)
    ensures plan.targets == exits.targets && plan.targetOrigin == exits.origin && plan.traderTarget == intent.takeProfit
    ensures |exits.targets| == 3 && plan.takeProfit == exits.targets[2].price
    ensures intent.takeProfit.None? ==> plan.targetOrigin.PolicyRule?
  {
    plan := MakePlan(intent, policy, i).value;
    var p, levels, ladder, found, leverage := PlanParts(intent, policy, i);
    l, exits := levels, found;
    PlanLevelsAreOrdered(intent, policy.strategy, i, p.stop);
    PlanIsAffordable(intent, policy, i);
    budget := RiskBudget(policy).value;
    BudgetIsPositive(policy);
    SizedLegsFit(budget, l, policy.strategy, MarketOrder, intent.side, p.stop, i);
    LadderExitsRespectTrader(intent.side, policy.strategy, ladder.orders, p.stop, i, intent.takeProfit);
  }

  /** The primary leg of a sized ladder, as a MARKET order at the first level. */
  lemma {:induction false} SizedPrimary(budget: real, l: Levels, s: Strategy, stop: real, i: Instrument)
    requires SizedLegs(budget, l, s, MarketOrder, stop, i).Ok? && l.first != stop && i.qtyStep > 0.0
    ensures
      var orders := SizedLegs(budget, l, s, MarketOrder, stop, i).value;
      && orders[0].orderType.MarketOrder? && orders[1].orderType.LimitOrder? && orders[2].orderType.LimitOrder?
      && orders[0].reference == l.first && l.first > 0.0 && orders[0].quantity > 0.0
      && orders[0].quantity == SizedQuantity(Share(budget, s.risks.0), l.first, stop, i.qtyStep)
      && orders[0].quantity >= i.minQty && !BelowNotional(i, orders[0].quantity, l.first)
  {
  }

  /** Rebasing a MARKET plan on exactly its planned price and quantity gives the plan back. */
  lemma {:induction false} RebaseAtPlanIsIdentity(intent: Intent, policy: Policy, i: Instrument)
    requires ValidPolicy(policy) && ValidInstrument(i) && intent.entry.AtMarket? && MakePlan(intent, policy, i).Ok?
    ensures
      var plan := MakePlan(intent, policy, i).value;
      |plan.orders| == 3 && Rebase(plan, plan.orders[0].reference, plan.orders[0].quantity, i) == Ok(plan)
  {
    var plan, l, budget, exits := MarketPlanParts(intent, policy, i);
    SizedPrimary(budget, l, policy.strategy, plan.stop, i);
    RebasedLadderAtPlan(plan, l, budget, i);
    assert RebasedTarget(plan) == intent.takeProfit;
    assert RebasedPlan(plan, Ladder(plan.orders, plan.plannedLoss), exits) == plan;
  }

  lemma {:induction false} RefreshedAtPlan(plan: Plan, budget: real, price: real, i: Instrument)
    requires ValidStrategy(plan.policy.strategy) && budget > 0.0 && i.qtyStep > 0.0
    requires |plan.orders| > 0 && price != plan.stop
    requires plan.orders[0].quantity
         == SizedQuantity(Share(budget, plan.policy.strategy.risks.0), price, plan.stop, i.qtyStep)
    ensures RefreshedQuantity(plan, budget, price, i.qtyStep) == plan.orders[0].quantity
  {
    var share := Share(budget, plan.policy.strategy.risks.0);
    SharesOfBudget(budget, plan.policy.strategy);
    DivPositive(share, Abs(price - plan.stop));
    var raw := share / Abs(price - plan.stop);
    RoundDownBounds(raw, i.qtyStep);
    RoundDownIsIdempotent(raw, i.qtyStep);
  }

  /** A refresh that passes its own checks is the rebase at the quote. */
  lemma {:induction false} RefreshDelegates(plan: Plan, budget: real, quantity: real, i: Instrument)
    requires ValidPolicy(plan.policy) && plan.version == 2 && |plan.orders| > 0 && plan.orders[0].orderType.MarketOrder?
    requires i.marketPrice > 0.0 && Gain(plan.side, i.marketPrice, plan.stop) > 0.0 && i.qtyStep > 0.0
    requires RiskBudget(plan.policy) == Ok(budget)
    requires RefreshedQuantity(plan, budget, i.marketPrice, i.qtyStep) == quantity
    requires quantity > 0.0 && quantity >= i.minQty && !BelowNotional(i, quantity, i.marketPrice)
    ensures Refresh(plan, i) == Rebase(plan, i.marketPrice, quantity, i)
  {
  }

  /** Refreshing a MARKET plan at the quote it was made for changes nothing. */
  lemma {:induction false} RefreshAtPlanIsIdentity(intent: Intent, policy: Policy, i: Instrument)
    requires ValidPolicy(policy) && ValidInstrument(i) && intent.entry.AtMarket? && MakePlan(intent, policy, i).Ok?
    ensures |MakePlan(intent, policy, i).value.orders| > 0
    ensures Refresh(MakePlan(intent, policy, i).value, i) == MakePlan(intent, policy, i)
  {
    var plan, quantity := RefreshAtPlan(intent, policy, i);
    RebaseAtPlanIsIdentity(intent, policy, i);
  }

  /** At its own quote, a MARKET plan passes every check a refresh makes. */
  lemma {:induction false} PassesRefresh(plan: Plan, l: Levels, budget: real, i: Instrument)
    requires ValidPolicy(plan.policy) && i.qtyStep > 0.0 && RiskBudget(plan.policy) == Ok(budget)
    requires SizedLegs(budget, l, plan.policy.strategy, MarketOrder, plan.stop, i) == Ok(plan.orders)
    requires CheckedLevels(plan.side, l, plan.stop).Ok? && l.first == i.marketPrice
    ensures |plan.orders| > 0 && plan.orders[0].orderType.MarketOrder? && i.marketPrice == plan.orders[0].reference
    ensures Gain(plan.side, i.marketPrice, plan.stop) > 0.0
    ensures
      var quantity := plan.orders[0].quantity;
      && RefreshedQuantity(plan, budget, i.marketPrice, i.qtyStep) == quantity
      && quantity > 0.0 && quantity >= i.minQty && !BelowNotional(i, quantity, i.marketPrice)
  {
    CheckedLevelsAreOrdered(plan.side, l, plan.stop);
    BudgetIsPositive(plan.policy);
    SizedPrimary(budget, l, plan.policy.strategy, plan.stop, i);
    RefreshedAtPlan(plan, budget, i.marketPrice, i);
  }

  lemma {:induction false} DelegatesAtPlan(plan: Plan, l: Levels, budget: real, i: Instrument)
    requires ValidPolicy(plan.policy) && plan.version == 2 && i.qtyStep > 0.0 && i.marketPrice > 0.0
    requires RiskBudget(plan.policy) == Ok(budget)
    requires SizedLegs(budget, l, plan.policy.strategy, MarketOrder, plan.stop, i) == Ok(plan.orders)
    requires CheckedLevels(plan.side, l, plan.stop).Ok? && l.first == i.marketPrice
    ensures |plan.orders| > 0 && i.marketPrice == plan.orders[0].reference
    ensures Refresh(plan, i) == Rebase(plan, i.marketPrice, plan.orders[0].quantity, i)
  {
    PassesRefresh(plan, l, budget, i);
    RefreshDelegates(plan, budget, plan.orders[0].quantity, i);
  }

  lemma {:induction false} RefreshAtPlan(intent: Intent, policy: Policy, i: Instrument)
    returns (plan: Plan, quantity: real)
    requires ValidPolicy(policy) && ValidInstrument(i) && intent.entry.AtMarket? && MakePlan(intent, policy, i).Ok?
    ensures MakePlan(intent, policy, i) == Ok(plan) && plan.policy == policy && |plan.orders| > 0
    ensures i.marketPrice == plan.orders[0].reference && quantity == plan.orders[0].quantity
    ensures Refresh(plan, i) == Rebase(plan, i.marketPrice, quantity, i)
  {
    var made, l, budget, exits := MarketPlanParts(intent, policy, i);
    DelegatesAtPlan(made, l, budget, i);
    plan, quantity := made, made.orders[0].quantity;
  }

  // ----- larger fills leave smaller scale-ins

  lemma {:induction false} ScaleFalls(budget: real, s: Strategy, risk: real, larger: real)
    requires ScaleInBudget(budget, s) > 0.0 && risk <= larger
    requires RemainingScale(budget, s, risk).Ok? && RemainingScale(budget, s, larger).Ok?
    ensures RemainingScale(budget, s, larger).value <= RemainingScale(budget, s, risk).value
  {
    QuotientIsMonotone(budget - larger, budget - risk, ScaleInBudget(budget, s));
  }

  lemma {:induction false} SmallerBudgetSizesLess(leg: Leg, budget: real, larger: real, stop: real, i: Instrument)
    requires 0.0 <= budget <= larger && SizedOrder(leg, budget, stop, i).Ok? && SizedOrder(leg, larger, stop, i).Ok?
    ensures SizedOrder(leg, budget, stop, i).value.quantity <= SizedOrder(leg, larger, stop, i).value.quantity
  {
    var distance := Abs(leg.reference - stop);
    QuotientIsMonotone(budget, larger, distance);
    DivNonNegative(budget, distance);
    RoundDownIsMonotone(budget / distance, larger / distance, i.qtyStep);
  }

  lemma {:induction false} ScaledLegsFall(plan: Plan, l: Levels, budget: real, low: real, high: real, i: Instrument)
    requires ValidStrategy(plan.policy.strategy) && budget > 0.0 && 0.0 < low <= high
    ensures
      var s := plan.policy.strategy;
      var small := ScaleIn("E2", l.second, s.risks.1, budget, low, plan.stop, i);
      var large := ScaleIn("E2", l.second, s.risks.1, budget, high, plan.stop, i);
      small.Ok? && large.Ok? ==> small.value.quantity <= large.value.quantity
    ensures
      var s := plan.policy.strategy;
      var small := ScaleIn("E3", l.third, s.risks.2, budget, low, plan.stop, i);
      var large := ScaleIn("E3", l.third, s.risks.2, budget, high, plan.stop, i);
      small.Ok? && large.Ok? ==> small.value.quantity <= large.value.quantity
  {
    var s := plan.policy.strategy;
    ScaledShares(budget, s, low);
    SharesOfBudget(budget, s);
    MulMono(low, high, Share(budget, s.risks.1));
    MulMono(low, high, Share(budget, s.risks.2));
    var small2, large2 := Value(Share(budget, s.risks.1), low), Value(Share(budget, s.risks.1), high);
    var small3, large3 := Value(Share(budget, s.risks.2), low), Value(Share(budget, s.risks.2), high);
    assert small2 <= large2 && small3 <= large3;
    var second, third := Leg("E2", LimitOrder, l.second, s.risks.1), Leg("E3", LimitOrder, l.third, s.risks.2);
    if SizedOrder(second, small2, plan.stop, i).Ok? && SizedOrder(second, large2, plan.stop, i).Ok? {
      SmallerBudgetSizesLess(second, small2, large2, plan.stop, i);
    }
    if SizedOrder(third, small3, plan.stop, i).Ok? && SizedOrder(third, large3, plan.stop, i).Ok? {
      SmallerBudgetSizesLess(third, small3, large3, plan.stop, i);
    }
  }

  /** The two scale-ins of a rebased ladder, and the share of their budget they were sized with. */
  lemma {:induction false} RebasedScaleIns(plan: Plan, fillPrice: real, filled: real, i: Instrument)
    returns (budget: real, scale: real, second: Order, third: Order)
    requires ValidPolicy(plan.policy) && |plan.orders| == 3 && filled > 0.0 && i.tick > 0.0
    requires RebasedLadder(plan, fillPrice, filled, i).Ok?
    ensures RiskBudget(plan.policy) == Ok(budget) && budget > 0.0 && ScaleInBudget(budget, plan.policy.strategy) > 0.0
    ensures RemainingScale(budget, plan.policy.strategy, Value(filled, Abs(fillPrice - plan.stop))) == Ok(scale)
    ensures scale > 0.0
    ensures
      var l := LadderLevels(plan.side, plan.policy.strategy, fillPrice, plan.stop, i.tick);
      && ScaleIn("E2", l.second, plan.policy.strategy.risks.1, budget, scale, plan.stop, i) == Ok(second)
      && ScaleIn("E3", l.third, plan.policy.strategy.risks.2, budget, scale, plan.stop, i) == Ok(third)
    ensures RebasedLadder(plan, fillPrice, filled, i).value.orders[1] == second
    ensures RebasedLadder(plan, fillPrice, filled, i).value.orders[2] == third
  {
    BudgetIsPositive(plan.policy);
    budget := RiskBudget(plan.policy).value;
    scale := RemainingScale(budget, plan.policy.strategy, Value(filled, Abs(fillPrice - plan.stop))).value;
    var l := LadderLevels(plan.side, plan.policy.strategy, fillPrice, plan.stop, i.tick);
    second := ScaleIn("E2", l.second, plan.policy.strategy.risks.1, budget, scale, plan.stop, i).value;
    third := ScaleIn("E3", l.third, plan.policy.strategy.risks.2, budget, scale, plan.stop, i).value;
  }

  lemma {:induction false} MoreValue(qty: real, more: real, price: real)
    requires qty <= more && price >= 0.0
    ensures Value(qty, price) <= Value(more, price)
  {
    MulMono(qty, more, price);
  }

  /** At the same price, a larger fill of the primary leg never gets larger scale-ins. */
  lemma {:induction false} LargerFillSmallerScaleIns(
    plan: Plan, fillPrice: real, filled: real, more: real, i: Instrument)
    requires ValidPolicy(plan.policy) && |plan.orders| == 3 && 0.0 < filled <= more && i.tick > 0.0
    requires RebasedLadder(plan, fillPrice, filled, i).Ok? && RebasedLadder(plan, fillPrice, more, i).Ok?
    ensures RebasedLadder(plan, fillPrice, more, i).value.orders[1].quantity
         <= RebasedLadder(plan, fillPrice, filled, i).value.orders[1].quantity
    ensures RebasedLadder(plan, fillPrice, more, i).value.orders[2].quantity
         <= RebasedLadder(plan, fillPrice, filled, i).value.orders[2].quantity
  {
    var budget, high, second, third := RebasedScaleIns(plan, fillPrice, filled, i);
    var _, low, second', third' := RebasedScaleIns(plan, fillPrice, more, i);
    MoreValue(filled, more, Abs(fillPrice - plan.stop));
    ScaleFalls(budget, plan.policy.strategy, Value(filled, Abs(fillPrice - plan.stop)),
               Value(more, Abs(fillPrice - plan.stop)));
    var l := LadderLevels(plan.side, plan.policy.strategy, fillPrice, plan.stop, i.tick);
    ScaledLegsFall(plan, l, budget, low, high, i);
  }
}
