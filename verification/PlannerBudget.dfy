/** What every accepted plan, refresh and rebase risks. */
module PlannerBudget {
  import opened Wrappers
  import opened Arithmetic
  import opened Trading
  import opened Rounding
  import opened PlanDomain
  import opened ExitLadder
  import opened Planner

  // ----- one leg

  lemma {:induction false} SizedQuantityFits(budget: real, reference: real, stop: real, step: real)
    requires budget >= 0.0 && step > 0.0 && reference != stop
    ensures SizedQuantity(budget, reference, stop, step) >= 0.0
    ensures Value(SizedQuantity(budget, reference, stop, step), Abs(reference - stop)) <= budget
    ensures budget < Value(SizedQuantity(budget, reference, stop, step) + step, Abs(reference - stop))
  {
    var distance := Abs(reference - stop);
    var raw := budget / distance;
    DivNonNegative(budget, distance);
    RoundDownBounds(raw, step);
    DivTimes(budget, distance);
    MulMono(RoundDown(raw, step), raw, distance);
    MulStrict(raw, RoundDown(raw, step) + step, distance);
  }

  /** No larger multiple of the step would stay within the budget. */
  lemma {:induction false} SizedQuantityIsLargest(budget: real, reference: real, stop: real, step: real, n: int)
    requires budget >= 0.0 && step > 0.0 && reference != stop
    requires Value(Ticks(n, step), Abs(reference - stop)) <= budget
    ensures Ticks(n, step) <= SizedQuantity(budget, reference, stop, step)
  {
    var distance := Abs(reference - stop);
    DivNonNegative(budget, distance);
    DivAtMost(budget, distance, Ticks(n, step));
    RoundDownIsLargest(budget / distance, step, n);
  }

  /** A sized leg risks at most its budget, and one more step would exceed it. */
  ghost predicate Sized(o: Order, budget: real, stop: real, step: real) {
    && o.quantity > 0.0
    && LegLoss(o, stop) <= budget < Value(o.quantity + step, Abs(o.reference - stop))
  }

  lemma {:induction false} SizedOrderFits(leg: Leg, budget: real, stop: real, i: Instrument)
    requires budget >= 0.0 && SizedOrder(leg, budget, stop, i).Ok?
    ensures Sized(SizedOrder(leg, budget, stop, i).value, budget, stop, i.qtyStep)
    ensures SizedOrder(leg, budget, stop, i).value.reference == leg.reference
  {
    SizedQuantityFits(budget, leg.reference, stop, i.qtyStep);
  }

  // ----- three legs

  ghost predicate LegsBeyond(side: Side, orders: seq<Order>, stop: real)
    requires |orders| == 3
  {
    && Gain(side, orders[0].reference, stop) > 0.0
    && Gain(side, orders[1].reference, stop) > 0.0
    && Gain(side, orders[2].reference, stop) > 0.0
  }

  ghost predicate PositiveLegs(orders: seq<Order>)
    requires |orders| == 3
  {
    orders[0].quantity > 0.0 && orders[1].quantity > 0.0 && orders[2].quantity > 0.0
  }

  lemma {:induction false} LegLossIsSigned(side: Side, o: Order, stop: real)
    requires Gain(side, o.reference, stop) > 0.0 && o.quantity > 0.0
    ensures LegLoss(o, stop) == (if side.Long? then Value(o.quantity, o.reference) - Value(o.quantity, stop)
                                 else Value(o.quantity, stop) - Value(o.quantity, o.reference))
    ensures LegLoss(o, stop) > 0.0
  {
    MulPositive(o.quantity, Gain(side, o.reference, stop));
    assert LegLoss(o, stop) == o.quantity * Gain(side, o.reference, stop);
  }

  lemma {:induction false} TotalTimes(a: real, b: real, c: real, x: real)
    ensures Value(a + b + c, x) == Value(a, x) + Value(b, x) + Value(c, x)
  {
  }

  lemma {:induction false} WeightedWorth(orders: seq<Order>)
    requires |orders| == 3 && TotalQuantity(orders) > 0.0
    ensures Value(TotalQuantity(orders), WeightedEntry(orders)) == TotalValue(orders)
  {
    DivTimes(TotalValue(orders), TotalQuantity(orders));
  }

  /** The ladder's loss is its total quantity times the distance from the weighted entry to the stop. */
  lemma {:induction false} LossIsWeighted(side: Side, orders: seq<Order>, stop: real)
    requires |orders| == 3 && PositiveLegs(orders) && LegsBeyond(side, orders, stop)
    ensures Gain(side, WeightedEntry(orders), stop) > 0.0
    ensures LadderLoss(orders, stop) > 0.0
    ensures LadderLoss(orders, stop) == Value(TotalQuantity(orders), Abs(WeightedEntry(orders) - stop))
  {
    LegLossIsSigned(side, orders[0], stop);
    LegLossIsSigned(side, orders[1], stop);
    LegLossIsSigned(side, orders[2], stop);
    TotalTimes(orders[0].quantity, orders[1].quantity, orders[2].quantity, stop);
    WeightedWorth(orders);
    SignedDistance(side, TotalQuantity(orders), WeightedEntry(orders), stop, LadderLoss(orders, stop));
  }

  lemma {:induction false} SignedDistance(side: Side, qty: real, weighted: real, stop: real, loss: real)
    requires qty > 0.0 && loss > 0.0
    requires loss
         == if side.Long? then Value(qty, weighted) - Value(qty, stop) else Value(qty, stop) - Value(qty, weighted)
    ensures Gain(side, weighted, stop) > 0.0
    ensures loss == Value(qty, Abs(weighted - stop))
  {
    var gain := Gain(side, weighted, stop);
    assert loss == gain * qty;
    if gain <= 0.0 {
      MulMono(gain, 0.0, qty);
    }
  }

  // ----- plan

  lemma {:induction false} SharesOfBudget(budget: real, s: Strategy)
    requires ValidStrategy(s) && budget > 0.0
    ensures Share(budget, s.risks.0) > 0.0 && Share(budget, s.risks.1) > 0.0 && Share(budget, s.risks.2) > 0.0
    ensures Share(budget, s.risks.0) + Share(budget, s.risks.1) + Share(budget, s.risks.2) == budget
    ensures Share(budget, s.risks.0) + ScaleInBudget(budget, s) == budget
    ensures Share(budget, s.risks.1) + Share(budget, s.risks.2) == ScaleInBudget(budget, s)
  {
    MulPositive(budget, s.risks.0);
    MulPositive(budget, s.risks.1);
    MulPositive(budget, s.risks.2);
    assert budget * s.risks.0 + budget * s.risks.1 + budget * s.risks.2 == budget * 100.0;
    assert budget * (s.risks.1 + s.risks.2) == budget * s.risks.1 + budget * s.risks.2;
  }

  lemma {:induction false} CheckedLevelsAreOrdered(side: Side, l: Levels, stop: real)
    requires CheckedLevels(side, l, stop).Ok?
    ensures CheckedLevels(side, l, stop).value == l && BeyondStop(side, l, stop) && TowardStop(side, l)
  {
  }

  /** Every leg uses its own share of the budget as far as the quantity step allows. */
  ghost predicate UsesShares(orders: seq<Order>, l: Levels, budget: real, s: Strategy, stop: real, step: real) {
    && |orders| == 3
    && orders[0].reference == l.first && orders[1].reference == l.second && orders[2].reference == l.third
    && Sized(orders[0], Share(budget, s.risks.0), stop, step)
    && Sized(orders[1], Share(budget, s.risks.1), stop, step)
    && Sized(orders[2], Share(budget, s.risks.2), stop, step)
  }

  lemma {:induction false} SizedLegsUseShares(
    budget: real, l: Levels, s: Strategy, first: OrderType, stop: real, i: Instrument)
    requires ValidStrategy(s) && budget > 0.0 && SizedLegs(budget, l, s, first, stop, i).Ok?
    ensures UsesShares(SizedLegs(budget, l, s, first, stop, i).value, l, budget, s, stop, i.qtyStep)
  {
    SharesOfBudget(budget, s);
    SizedOrderFits(Leg("E1", first, l.first, s.risks.0), Share(budget, s.risks.0), stop, i);
    SizedOrderFits(Leg("E2", LimitOrder, l.second, s.risks.1), Share(budget, s.risks.1), stop, i);
    SizedOrderFits(Leg("E3", LimitOrder, l.third, s.risks.2), Share(budget, s.risks.2), stop, i);
  }

  lemma {:induction false} SizedLegsFit(
    budget: real, l: Levels, s: Strategy, first: OrderType, side: Side, stop: real, i: Instrument)
    requires ValidStrategy(s) && budget > 0.0 && BeyondStop(side, l, stop)
    requires SizedLegs(budget, l, s, first, stop, i).Ok?
    ensures
      var orders := SizedLegs(budget, l, s, first, stop, i).value;
      && PositiveLegs(orders) && LegsBeyond(side, orders, stop)
      && LadderLoss(orders, stop) <= budget
      && LegLoss(orders[0], stop) <= Share(budget, s.risks.0)
  {
    SharesOfBudget(budget, s);
    SizedLegsUseShares(budget, l, s, first, stop, i);
  }

  /** A ladder's loss is what it would lose at the stop, positive and within the budget. */
  ghost predicate Affordable(side: Side, orders: seq<Order>, stop: real, loss: real, budget: real) {
    && |orders| == 3 && PositiveLegs(orders) && LegsBeyond(side, orders, stop)
    && loss == LadderLoss(orders, stop)
    && loss == Value(TotalQuantity(orders), Abs(WeightedEntry(orders) - stop))
    && 0.0 < loss <= budget
  }

  lemma {:induction false} PlanLadderIsAffordable(intent: Intent, policy: Policy, i: Instrument, l: Levels, stop: real)
    requires ValidPolicy(policy) && BeyondStop(intent.side, l, stop)
    ensures PlanLadder(intent, policy, i, l, stop) != Err(LossNotPositive)
    ensures PlanLadder(intent, policy, i, l, stop) != Err(OverBudget)
    ensures
      var r := PlanLadder(intent, policy, i, l, stop);
      r.Ok? ==>
        && RiskBudget(policy).Ok?
        && Affordable(intent.side, r.value.orders, stop, r.value.loss, RiskBudget(policy).value)
  {
    if RiskBudget(policy).Ok? {
      BudgetIsPositive(policy);
      var budget := RiskBudget(policy).value;
      var first := if intent.entry.AtMarket? then MarketOrder else LimitOrder;
      var sized := SizedLegs(budget, l, policy.strategy, first, stop, i);
      if sized.Ok? {
        SizedLegsFit(budget, l, policy.strategy, first, intent.side, stop, i);
        LossIsWeighted(intent.side, sized.value, stop);
      }
    }
  }

  /** The intermediate results of an accepted plan. */
  lemma {:induction false} PlanParts(intent: Intent, policy: Policy, i: Instrument)
    returns (p: Protective, l: Levels, ladder: Ladder, exits: Exits, leverage: real)
    requires ValidInstrument(i) && MakePlan(intent, policy, i).Ok?
    ensures i.tick > 0.0 && i.qtyStep > 0.0
    ensures ResolveStop(intent, policy.strategy, i) == Ok(p)
    ensures PlanLevels(intent, policy.strategy, i, p.stop) == Ok(l)
    ensures PlanLadder(intent, policy, i, l, p.stop) == Ok(ladder)
    ensures LadderExits(intent.side, policy.strategy, ladder.orders, p.stop, i, intent.takeProfit) == Ok(exits)
    ensures PlanLeverage(intent, i) == Ok(leverage) && |exits.targets| > 0
    ensures MakePlan(intent, policy, i).value == AssembledPlan(intent, policy, leverage, p, ladder, exits)
    ensures ValidPlan(MakePlan(intent, policy, i).value)
  {
    p := ResolveStop(intent, policy.strategy, i).value;
    l := PlanLevels(intent, policy.strategy, i, p.stop).value;
    ladder := PlanLadder(intent, policy, i, l, p.stop).value;
    exits := LadderExits(intent.side, policy.strategy, ladder.orders, p.stop, i, intent.takeProfit).value;
    leverage := PlanLeverage(intent, i).value;
  }

  lemma {:induction false} PlanLevelsAreOrdered(intent: Intent, s: Strategy, i: Instrument, stop: real)
    requires i.tick > 0.0 && PlanLevels(intent, s, i, stop).Ok?
    ensures EntryLevels(intent, s, i, stop) == PlanLevels(intent, s, i, stop)
    ensures BeyondStop(intent.side, PlanLevels(intent, s, i, stop).value, stop)
    ensures TowardStop(intent.side, PlanLevels(intent, s, i, stop).value)
  {
    CheckedLevelsAreOrdered(intent.side, EntryLevels(intent, s, i, stop).value, stop);
  }

  /** The budget of a plan whose policy carries a capital snapshot. */
  function BudgetOf(p: Plan): real
    requires RiskBudget(p.policy).Ok?
  {
    RiskBudget(p.policy).value
  }

  ghost predicate AffordablePlan(p: Plan) {
    RiskBudget(p.policy).Ok? && Affordable(p.side, p.orders, p.stop, p.plannedLoss, BudgetOf(p))
  }

  /**
   Budget safety of planning: the planned loss of every accepted plan is its total quantity times the
   distance from the weighted entry to the stop, and never exceeds the risk budget.
   */
  lemma {:induction false} PlanIsAffordable(intent: Intent, policy: Policy, i: Instrument)
    requires ValidPolicy(policy) && ValidInstrument(i) && MakePlan(intent, policy, i).Ok?
    ensures AffordablePlan(MakePlan(intent, policy, i).value)
  {
    var p, l, ladder, exits, leverage := PlanParts(intent, policy, i);
    PlanLevelsAreOrdered(intent, policy.strategy, i, p.stop);
    PlanLadderIsAffordable(intent, policy, i, l, p.stop);
  }

  /** Every leg of an accepted plan sits at its level and fills its own share of the budget to within one step. */
  lemma {:induction false} PlanUsesShares(intent: Intent, policy: Policy, i: Instrument)
    requires ValidPolicy(policy) && ValidInstrument(i) && MakePlan(intent, policy, i).Ok?
    ensures i.tick > 0.0 && RiskBudget(policy).Ok?
    ensures
      var p := MakePlan(intent, policy, i).value;
      && PlanLevels(intent, policy.strategy, i, p.stop).Ok?
      && UsesShares(p.orders, PlanLevels(intent, policy.strategy, i, p.stop).value, RiskBudget(policy).value,
                    policy.strategy, p.stop, i.qtyStep)
  {
    var p, l, ladder, exits, leverage := PlanParts(intent, policy, i);
    BudgetIsPositive(policy);
    var first := if intent.entry.AtMarket? then MarketOrder else LimitOrder;
    SizedLegsUseShares(RiskBudget(policy).value, l, policy.strategy, first, p.stop, i);
  }

  // ----- rebase

  lemma {:induction false} ScaleIsFraction(budget: real, s: Strategy, primaryRisk: real)
    requires ValidStrategy(s) && budget > 0.0 && ScaleInBudget(budget, s) > 0.0
    ensures RemainingScale(budget, s, primaryRisk).Ok? <==> primaryRisk < budget
    ensures RemainingScale(budget, s, primaryRisk) != Err(NoBudgetLeft)
    ensures
      var r := RemainingScale(budget, s, primaryRisk);
      r.Ok? ==> 0.0 < r.value <= 1.0 && Value(ScaleInBudget(budget, s), r.value) <= budget - primaryRisk
    ensures RemainingScale(budget, s, primaryRisk) == Ok(1.0) <==> primaryRisk <= Share(budget, s.risks.0)
  {
    var nominal := ScaleInBudget(budget, s);
    var available := budget - primaryRisk;
    SharesOfBudget(budget, s);
    if available > 0.0 {
      DivPositive(available, nominal);
      DivTimes(available, nominal);
      DivAtMost(available, nominal, 1.0);
      var scale := Min(1.0, available / nominal);
      MulMono(scale, available / nominal, nominal);
    }
  }

  lemma {:induction false} ScaledShares(budget: real, s: Strategy, scale: real)
    requires ValidStrategy(s) && budget > 0.0 && scale > 0.0
    ensures Value(Share(budget, s.risks.1), scale) >= 0.0 && Value(Share(budget, s.risks.2), scale) >= 0.0
    ensures Value(Share(budget, s.risks.1), scale) + Value(Share(budget, s.risks.2), scale)
         == Value(ScaleInBudget(budget, s), scale)
  {
    SharesOfBudget(budget, s);
    MulPositive(Share(budget, s.risks.1), scale);
    MulPositive(Share(budget, s.risks.2), scale);
    var a, b := Share(budget, s.risks.1), Share(budget, s.risks.2);
    assert a * scale + b * scale == (a + b) * scale;
  }

  lemma {:induction false} RebasedLegsFit(
    plan: Plan, fillPrice: real, filled: real, l: Levels, budget: real, scale: real, i: Instrument)
    requires |plan.orders| == 3 && filled > 0.0 && ValidStrategy(plan.policy.strategy) && budget > 0.0 && scale > 0.0
    requires BeyondStop(plan.side, l, plan.stop) && l.first == fillPrice
    requires Value(ScaleInBudget(budget, plan.policy.strategy), scale)
         <= budget - Value(filled, Abs(fillPrice - plan.stop))
    requires RebasedLegs(plan, fillPrice, filled, l, budget, scale, i).Ok?
    ensures
      var orders := RebasedLegs(plan, fillPrice, filled, l, budget, scale, i).value;
      PositiveLegs(orders) && LegsBeyond(plan.side, orders, plan.stop) && LadderLoss(orders, plan.stop) <= budget
  {
    var s := plan.policy.strategy;
    ScaledShares(budget, s, scale);
    SizedOrderFits(Leg("E2", LimitOrder, l.second, s.risks.1), Value(Share(budget, s.risks.1), scale), plan.stop, i);
    SizedOrderFits(Leg("E3", LimitOrder, l.third, s.risks.2), Value(Share(budget, s.risks.2), scale), plan.stop, i);
  }

  /** Rebasing never runs out of scale-in budget without saying so, and never plans over the budget. */
  lemma {:induction false} RebasedLadderIsAffordable(plan: Plan, fillPrice: real, filled: real, i: Instrument)
    requires ValidPolicy(plan.policy) && |plan.orders| == 3 && filled > 0.0 && i.tick > 0.0
    ensures RebasedLadder(plan, fillPrice, filled, i) != Err(OverBudget)
    ensures RebasedLadder(plan, fillPrice, filled, i) != Err(NoBudgetLeft)
    ensures
      var r := RebasedLadder(plan, fillPrice, filled, i);
      r.Ok? ==>
        && RiskBudget(plan.policy).Ok?
        && Affordable(plan.side, r.value.orders, plan.stop, r.value.loss, RiskBudget(plan.policy).value)
  {
    if RiskBudget(plan.policy).Err? { return; }
    BudgetIsPositive(plan.policy);
    var s, budget := plan.policy.strategy, RiskBudget(plan.policy).value;
    var l := LadderLevels(plan.side, s, fillPrice, plan.stop, i.tick);
    var risk := Value(filled, Abs(fillPrice - plan.stop));
    ScaleIsFraction(budget, s, risk);
    if CheckedLevels(plan.side, l, plan.stop).Err? || RemainingScale(budget, s, risk).Err? { return; }
    CheckedLevelsAreOrdered(plan.side, l, plan.stop);
    var scale := RemainingScale(budget, s, risk).value;
    var legs := RebasedLegs(plan, fillPrice, filled, l, budget, scale, i);
    if legs.Ok? {
      RebasedLegsFit(plan, fillPrice, filled, l, budget, scale, i);
      LossIsWeighted(plan.side, legs.value, plan.stop);
    }
  }

  lemma {:induction false} RebaseParts(plan: Plan, fillPrice: real, filled: real, i: Instrument)
    returns (ladder: Ladder, exits: Exits)
    requires ValidPolicy(plan.policy) && Rebase(plan, fillPrice, filled, i).Ok?
    ensures RebaseInputFault(plan, fillPrice, filled).None? && i.tick > 0.0 && i.qtyStep > 0.0
    ensures RebasedLadder(plan, fillPrice, filled, i) == Ok(ladder)
    ensures LadderExits(plan.side, plan.policy.strategy, ladder.orders, plan.stop, i, RebasedTarget(plan)) == Ok(exits)
    ensures |exits.targets| > 0
    ensures Rebase(plan, fillPrice, filled, i).value == RebasedPlan(plan, ladder, exits)
    ensures ValidPlan(Rebase(plan, fillPrice, filled, i).value)
  {
    ladder := RebasedLadder(plan, fillPrice, filled, i).value;
    exits := LadderExits(plan.side, plan.policy.strategy, ladder.orders, plan.stop, i, RebasedTarget(plan)).value;
  }

  /** Budget safety of rebasing: whatever the primary leg filled at, an accepted rebase stays within budget. */
  lemma {:induction false} RebaseIsAffordable(plan: Plan, fillPrice: real, filled: real, i: Instrument)
    requires ValidPolicy(plan.policy) && Rebase(plan, fillPrice, filled, i).Ok?
    ensures AffordablePlan(Rebase(plan, fillPrice, filled, i).value)
  {
    var ladder, exits := RebaseParts(plan, fillPrice, filled, i);
    RebasedLadderIsAffordable(plan, fillPrice, filled, i);
  }

  // ----- refresh

  /** The refreshed quantity is no larger than the planned one and risks no more than its share. */
  lemma {:induction false} RefreshedQuantityFits(plan: Plan, budget: real, price: real, step: real)
    requires |plan.orders| > 0 && plan.orders[0].quantity > 0.0 && step > 0.0 && price != plan.stop
    requires ValidStrategy(plan.policy.strategy) && budget > 0.0
    ensures 0.0 <= RefreshedQuantity(plan, budget, price, step) <= plan.orders[0].quantity
    ensures Value(RefreshedQuantity(plan, budget, price, step), Abs(price - plan.stop))
            <= Share(budget, plan.policy.strategy.risks.0)
  {
    var share, distance := Share(budget, plan.policy.strategy.risks.0), Abs(price - plan.stop);
    SharesOfBudget(budget, plan.policy.strategy);
    DivPositive(share, distance);
    DivTimes(share, distance);
    var raw := Min(plan.orders[0].quantity, share / distance);
    RoundDownBounds(raw, step);
    MulMono(RoundDown(raw, step), share / distance, distance);
  }

  lemma {:induction false} RefreshIsRebase(plan: Plan, i: Instrument) returns (budget: real, quantity: real)
    requires ValidPolicy(plan.policy) && |plan.orders| > 0 && Refresh(plan, i).Ok?
    ensures RiskBudget(plan.policy) == Ok(budget) && i.qtyStep > 0.0
    ensures Gain(plan.side, i.marketPrice, plan.stop) > 0.0
    ensures quantity == RefreshedQuantity(plan, budget, i.marketPrice, i.qtyStep)
    ensures Refresh(plan, i) == Rebase(plan, i.marketPrice, quantity, i)
  {
    budget := RiskBudget(plan.policy).value;
    quantity := RefreshedQuantity(plan, budget, i.marketPrice, i.qtyStep);
  }

  /** The primary leg of a rebased ladder is the fill. */
  lemma {:induction false} RebasedPrimary(plan: Plan, fillPrice: real, filled: real, i: Instrument)
    requires ValidPolicy(plan.policy) && |plan.orders| == 3 && filled > 0.0 && i.tick > 0.0
    requires RebasedLadder(plan, fillPrice, filled, i).Ok?
    ensures
      var primary := RebasedLadder(plan, fillPrice, filled, i).value.orders[0];
      primary.quantity == filled && primary.reference == fillPrice
  {
  }

  /** The primary leg fits its own share of the budget and leaves all of the scale-in budget. */
  ghost predicate LeavesScaleIns(primary: Order, stop: real, budget: real, s: Strategy) {
    && LegLoss(primary, stop) <= Share(budget, s.risks.0)
    && ScaleInBudget(budget, s) != 0.0
    && RemainingScale(budget, s, LegLoss(primary, stop)) == Ok(1.0)
  }

  lemma {:induction false} SmallPrimaryLeavesScaleIns(primary: Order, stop: real, budget: real, s: Strategy)
    requires ValidStrategy(s) && budget > 0.0 && ScaleInBudget(budget, s) > 0.0
    requires LegLoss(primary, stop) <= Share(budget, s.risks.0)
    ensures LeavesScaleIns(primary, stop, budget, s)
  {
    ScaleIsFraction(budget, s, LegLoss(primary, stop));
  }

  /** The primary leg of a refreshed plan: at the quote, no larger than planned. */
  ghost predicate Shrinks(plan: Plan, r: Plan, i: Instrument)
    requires |plan.orders| > 0 && |r.orders| > 0
  {
    && r.orders[0].quantity <= plan.orders[0].quantity
    && r.orders[0].reference == i.marketPrice
    && r.stop == plan.stop && r.policy == plan.policy && r.side == plan.side
  }

  /**
   A refresh never grows the primary leg, keeps the stop and the budget, and always rebases with the
   whole scale-in budget left.
   */
  lemma {:induction false} RefreshOnlyShrinks(plan: Plan, i: Instrument)
    requires ValidPolicy(plan.policy) && |plan.orders| > 0 && plan.orders[0].quantity > 0.0 && Refresh(plan, i).Ok?
    ensures AffordablePlan(Refresh(plan, i).value)
    ensures Shrinks(plan, Refresh(plan, i).value, i)
    ensures LeavesScaleIns(Refresh(plan, i).value.orders[0], plan.stop, BudgetOf(plan), plan.policy.strategy)
  {
    var budget, quantity := RefreshIsRebase(plan, i);
    RebaseIsAffordable(plan, i.marketPrice, quantity, i);
    BudgetIsPositive(plan.policy);
    RefreshedQuantityFits(plan, budget, i.marketPrice, i.qtyStep);
    RebaseShrinks(plan, i.marketPrice, quantity, i);
    SmallPrimaryLeavesScaleIns(Refresh(plan, i).value.orders[0], plan.stop, budget, plan.policy.strategy);
  }

  lemma {:induction false} RebaseShrinks(plan: Plan, fillPrice: real, filled: real, i: Instrument)
    requires ValidPolicy(plan.policy) && Rebase(plan, fillPrice, filled, i).Ok?
    ensures
      var r := Rebase(plan, fillPrice, filled, i).value;
      && |r.orders| == 3 && r.orders[0].quantity == filled && r.orders[0].reference == fillPrice
      && r.stop == plan.stop && r.policy == plan.policy && r.side == plan.side
  {
    var ladder, exits := RebaseParts(plan, fillPrice, filled, i);
    RebasedPrimary(plan, fillPrice, filled, i);
  }
}
