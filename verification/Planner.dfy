/** Planning, refreshing and rebasing a three-leg risk-budgeted ladder. Amounts are exact reals. */
module Planner {
  import opened Wrappers
  import opened Arithmetic
  import opened Trading
  import opened Rounding
  import opened PlanDomain
  import opened ExitLadder

  datatype Entry = AtMarket | AtPrice(price: real) | InRange(low: real, high: real)

  datatype Intent = Intent(
    side: Side,
    entry: Entry,
    stopLoss: Option<real>,
    takeProfit: Option<real>,
    leverage: Option<real>)

  datatype Protective = Protective(stop: real, origin: Origin)

  datatype Levels = Levels(first: real, second: real, third: real)

  datatype Ladder = Ladder(orders: seq<Order>, loss: real)

  /** The leg a request is sized for. */
  datatype Leg = Leg(name: string, orderType: OrderType, reference: real, riskPct: real)

  // ----- the stop

  function FallbackAnchor(intent: Intent, i: Instrument): real {
    match intent.entry
    case AtMarket => i.marketPrice
    case AtPrice(price) => price
    case InRange(low, high) => if intent.side.Long? then low else high
  }

  /** The policy's stop before rounding. */
  function RawFallback(intent: Intent, s: Strategy, i: Instrument): real {
    Value(FallbackAnchor(intent, i), Ahead(intent.side, 1.0, -(s.fallbackStopPct / 100.0)))
  }

  /** The trader's stop to the nearest tick, or the policy's, rounded away from the entry. */
  function RoundedStop(intent: Intent, s: Strategy, i: Instrument): Protective
    requires i.tick > 0.0
  {
    if intent.stopLoss.Some? then Protective(RoundPrice(intent.stopLoss.value, i.tick), Trader)
    else
      var raw := RawFallback(intent, s, i) / i.tick;
      Protective(Ticks(if intent.side.Long? then raw.Floor else Ceiling(raw), i.tick), PolicyRule)
  }

  function ResolveStop(intent: Intent, s: Strategy, i: Instrument): Result<Protective, PlanError>
    requires i.tick > 0.0
  {
    var protective := RoundedStop(intent, s, i);
    if protective.stop <= 0.0 then Err(StopNotPositive) else Ok(protective)
  }

  // ----- the entry levels

  predicate Distinct(l: Levels) {
    l.first != l.second && l.second != l.third && l.first != l.third
  }

  /** A scale-in level: a share of the primary distance closer to the stop. */
  function DepthLevel(side: Side, primary: real, depth: real, distance: real, tick: real): real
    requires tick > 0.0
  {
    RoundPrice(Ahead(side, primary, -Value(depth, distance)), tick)
  }

  function LadderLevels(side: Side, s: Strategy, primary: real, stop: real, tick: real): Levels
    requires tick > 0.0
  {
    var distance := Abs(primary - stop);
    Levels(primary,
           DepthLevel(side, primary, s.depths.0, distance, tick),
           DepthLevel(side, primary, s.depths.1, distance, tick))
  }

  function RangeLevels(side: Side, low: real, high: real, tick: real): Levels
    requires tick > 0.0
  {
    var near := if side.Long? then high else low;
    var far := if side.Long? then low else high;
    Levels(RoundPrice(near, tick), RoundPrice((low + high) / 2.0, tick), RoundPrice(far, tick))
  }

  function EntryLevels(intent: Intent, s: Strategy, i: Instrument, stop: real): Result<Levels, PlanError>
    requires i.tick > 0.0
  {
    if intent.entry.InRange? then
      var l := RangeLevels(intent.side, intent.entry.low, intent.entry.high, i.tick);
      if Distinct(l) then Ok(l) else Err(RangeTooNarrow)
    else
      var primary := if intent.entry.AtPrice? then RoundPrice(intent.entry.price, i.tick) else i.marketPrice;
      if primary == stop then Err(NoPrimaryDistance)
      else
        var l := LadderLevels(intent.side, s, primary, stop, i.tick);
        if Distinct(l) then Ok(l) else Err(LevelsCollapse)
  }

  /** Every level on the profitable side of the stop, each one closer to it than the one before. */
  predicate BeyondStop(side: Side, l: Levels, stop: real) {
    Gain(side, l.first, stop) > 0.0 && Gain(side, l.second, stop) > 0.0 && Gain(side, l.third, stop) > 0.0
  }

  predicate TowardStop(side: Side, l: Levels) {
    Gain(side, l.first, l.second) > 0.0 && Gain(side, l.second, l.third) > 0.0
  }

  function CheckedLevels(side: Side, l: Levels, stop: real): Result<Levels, PlanError> {
    if !BeyondStop(side, l, stop) then Err(StopGeometry)
    else if !TowardStop(side, l) then Err(NotTowardStop)
    else Ok(l)
  }

  predicate PassedThroughEntry(intent: Intent, first: real, marketPrice: real) {
    !intent.entry.AtMarket? && Gain(intent.side, marketPrice, first) < 0.0
  }

  // ----- sizing

  /** The largest stepped quantity whose loss at the stop stays within `budget`. */
  function SizedQuantity(budget: real, reference: real, stop: real, step: real): real
    requires step > 0.0 && reference != stop
  {
    RoundDown(budget / Abs(reference - stop), step)
  }

  /** A sized leg, or why it is too small to place. */
  function SizedOrder(leg: Leg, budget: real, stop: real, i: Instrument): Result<Order, PlanError> {
    if leg.reference == stop then Err(NoStopDistance(leg.name))
    else if i.qtyStep <= 0.0 then Err(QtyStep)
    else
      var quantity := SizedQuantity(budget, leg.reference, stop, i.qtyStep);
      if quantity <= 0.0 || quantity < i.minQty then Err(BelowMinimumQuantity(leg.name))
      else if BelowNotional(i, quantity, leg.reference) then Err(BelowMinimumNotional(leg.name))
      else if leg.reference <= 0.0 then Err(InvalidOrder(leg.name))
      else Ok(Order(leg.name, Some(leg.riskPct), leg.orderType, quantity,
                    if leg.orderType.LimitOrder? then Some(leg.reference) else None, leg.reference))
  }

  function LegLoss(o: Order, stop: real): real {
    Value(o.quantity, Abs(o.reference - stop))
  }

  /** What the three legs lose together at the stop. */
  function LadderLoss(orders: seq<Order>, stop: real): real
    requires |orders| == 3
  {
    LegLoss(orders[0], stop) + LegLoss(orders[1], stop) + LegLoss(orders[2], stop)
  }

  function TotalQuantity(orders: seq<Order>): real
    requires |orders| == 3
  {
    orders[0].quantity + orders[1].quantity + orders[2].quantity
  }

  function TotalValue(orders: seq<Order>): real
    requires |orders| == 3
  {
    Value(orders[0].quantity, orders[0].reference) + Value(orders[1].quantity, orders[1].reference)
    + Value(orders[2].quantity, orders[2].reference)
  }

  function WeightedEntry(orders: seq<Order>): real
    requires |orders| == 3 && TotalQuantity(orders) > 0.0
  {
    TotalValue(orders) / TotalQuantity(orders)
  }

  function SizedLegs(budget: real, l: Levels, s: Strategy, first: OrderType, stop: real, i: Instrument)
    : (r: Result<seq<Order>, PlanError>)
    ensures r.Ok? ==> |r.value| == 3 && TotalQuantity(r.value) > 0.0
  {
    var primary :- SizedOrder(Leg("E1", first, l.first, s.risks.0), Share(budget, s.risks.0), stop, i);
    var secondary :- SizedOrder(Leg("E2", LimitOrder, l.second, s.risks.1), Share(budget, s.risks.1), stop, i);
    var tertiary :- SizedOrder(Leg("E3", LimitOrder, l.third, s.risks.2), Share(budget, s.risks.2), stop, i);
    Ok([primary, secondary, tertiary])
  }

  function RiskChecked(orders: seq<Order>, stop: real, budget: real): Result<Ladder, PlanError>
    requires |orders| == 3
  {
    var loss := LadderLoss(orders, stop);
    if loss <= 0.0 then Err(LossNotPositive)
    else if loss > budget then Err(OverBudget)
    else Ok(Ladder(orders, loss))
  }

  // ----- exits

  /** Every target beyond the weighted entry. */
  predicate TargetsBeyond(side: Side, weighted: real, targets: seq<Target>) {
    forall t :: t in targets ==> Gain(side, t.price, weighted) > 0.0
  }

  function ExitRequest(side: Side, s: Strategy, weighted: real, stop: real, tick: real, target: Option<real>): Request
    requires tick > 0.0
  {
    Request(side, s, weighted, Abs(weighted - stop), tick,
            if target.Some? then Some(RoundPrice(target.value, tick)) else None)
  }

  /** Derives the exits of a ladder and checks them against its entry and its primary leg. */
  function LadderExits(side: Side, s: Strategy, orders: seq<Order>, stop: real, i: Instrument, target: Option<real>)
    : Result<Exits, PlanError>
    requires i.tick > 0.0 && i.qtyStep > 0.0 && |orders| == 3 && TotalQuantity(orders) > 0.0
  {
    var weighted := WeightedEntry(orders);
    if weighted == stop then Err(NoWeightedDistance)
    else
      var exits :- BuildExits(ExitRequest(side, s, weighted, stop, i.tick, target));
      if !TargetsBeyond(side, weighted, exits.targets) then Err(TargetGeometry)
      else
        var fault := ExitFault(side, orders[0], stop, exits.targets, i);
        if fault.Some? then Err(fault.value) else Ok(exits)
  }

  function PlanLeverage(intent: Intent, i: Instrument): Result<real, PlanError>
    requires ValidInstrument(i)
  {
    var requested := if intent.leverage.Some? then intent.leverage.value else 10.0;
    if i.leverage.None? then Ok(requested) else SelectLeverage(i.leverage.value, requested)
  }

  // ----- plan

  /** The checked levels of an intent. */
  function PlanLevels(intent: Intent, s: Strategy, i: Instrument, stop: real): Result<Levels, PlanError>
    requires i.tick > 0.0
  {
    var l :- EntryLevels(intent, s, i, stop);
    var checked :- CheckedLevels(intent.side, l, stop);
    if PassedThroughEntry(intent, l.first, i.marketPrice) then Err(PassedThrough) else Ok(checked)
  }

  function PlanLadder(
    intent: Intent, policy: Policy, i: Instrument, l: Levels, stop: real): (r: Result<Ladder, PlanError>)
    ensures r.Ok? ==> |r.value.orders| == 3 && TotalQuantity(r.value.orders) > 0.0 && i.qtyStep > 0.0
  {
    var budget :- RiskBudget(policy);
    var first := if intent.entry.AtMarket? then MarketOrder else LimitOrder;
    var orders :- SizedLegs(budget, l, policy.strategy, first, stop, i);
    RiskChecked(orders, stop, budget)
  }

  function AssembledPlan(
    intent: Intent, policy: Policy, leverage: real, p: Protective, ladder: Ladder, exits: Exits): Plan
    requires |exits.targets| > 0
  {
    Plan(2, intent.side, leverage, ladder.orders, [], p.stop, p.origin,
         exits.targets[|exits.targets| - 1].price, exits.targets, exits.origin, intent.takeProfit,
         policy.strategy.runnerPct, policy, ladder.loss)
  }

  /** Builds the plan for an intent on an instrument. */
  function MakePlan(intent: Intent, policy: Policy, i: Instrument): Result<Plan, PlanError>
    requires ValidInstrument(i)
  {
    if i.tick <= 0.0 then Err(TickSize)
    else
      var protective :- ResolveStop(intent, policy.strategy, i);
      var l :- PlanLevels(intent, policy.strategy, i, protective.stop);
      var ladder :- PlanLadder(intent, policy, i, l, protective.stop);
      var exits :- LadderExits(intent.side, policy.strategy, ladder.orders, protective.stop, i, intent.takeProfit);
      var leverage :- PlanLeverage(intent, i);
      if |exits.targets| == 0 then Err(NotThreeExits)
      else Checked(AssembledPlan(intent, policy, leverage, protective, ladder, exits))
  }

  // ----- rebase on the actual fill

  function RebaseInputFault(plan: Plan, fillPrice: real, filled: real): Option<PlanError> {
    if plan.version < 2 then Some(NotVersion2)
    else if |plan.orders| != 3 then Some(NotThreeLegs)
    else if !plan.orders[0].orderType.MarketOrder? then Some(NotMarketPrimary)
    else if !plan.orders[1].orderType.LimitOrder? || !plan.orders[2].orderType.LimitOrder? then Some(ScaleInsNotLimit)
    else if fillPrice <= 0.0 then Some(FillNotPositive)
    else if filled <= 0.0 then Some(QuantityNotPositive)
    else if Gain(plan.side, fillPrice, plan.stop) <= 0.0 then Some(FillOutsideStop)
    else None
  }

  function ScaleInBudget(budget: real, s: Strategy): real {
    Share(budget, s.risks.1 + s.risks.2)
  }

  /** How much of the scale-in budget the actual fill leaves, at most all of it. */
  function RemainingScale(budget: real, s: Strategy, primaryRisk: real): Result<real, PlanError>
    requires ScaleInBudget(budget, s) != 0.0
  {
    if primaryRisk >= budget then Err(BudgetConsumed)
    else
      var scale := Min(1.0, (budget - primaryRisk) / ScaleInBudget(budget, s));
      if scale <= 0.0 then Err(NoBudgetLeft) else Ok(scale)
  }

  function ScaleIn(name: string, reference: real, riskPct: real, budget: real, scale: real, stop: real, i: Instrument)
    : Result<Order, PlanError>
  {
    SizedOrder(Leg(name, LimitOrder, reference, riskPct), Value(Share(budget, riskPct), scale), stop, i)
  }

  /** The primary leg as filled, and the scale-ins sized again from what it leaves. */
  function RebasedLegs(plan: Plan, fillPrice: real, filled: real, l: Levels, budget: real, scale: real, i: Instrument)
    : (r: Result<seq<Order>, PlanError>)
    requires |plan.orders| == 3 && filled > 0.0
    ensures r.Ok? ==> |r.value| == 3 && TotalQuantity(r.value) > 0.0 && i.qtyStep > 0.0
  {
    var s := plan.policy.strategy;
    var primary := plan.orders[0].(quantity := filled, reference := fillPrice, price := None);
    var secondary :- ScaleIn("E2", l.second, s.risks.1, budget, scale, plan.stop, i);
    var tertiary :- ScaleIn("E3", l.third, s.risks.2, budget, scale, plan.stop, i);
    Ok([primary, secondary, tertiary])
  }

  function RebasedTarget(plan: Plan): Option<real> {
    if plan.traderTarget.Some? then plan.traderTarget
    else if plan.targetOrigin.Trader? then Some(plan.takeProfit)
    else None
  }

  /** The ladder rebuilt around the actual fill, within the frozen budget. */
  function RebasedLadder(plan: Plan, fillPrice: real, filled: real, i: Instrument): (r: Result<Ladder, PlanError>)
    requires ValidPolicy(plan.policy) && |plan.orders| == 3 && filled > 0.0 && i.tick > 0.0
    ensures r.Ok? ==> |r.value.orders| == 3 && TotalQuantity(r.value.orders) > 0.0 && i.qtyStep > 0.0
  {
    var s := plan.policy.strategy;
    var budget :- RiskBudget(plan.policy);
    BudgetIsPositive(plan.policy);
    var l :- CheckedLevels(plan.side, LadderLevels(plan.side, s, fillPrice, plan.stop, i.tick), plan.stop);
    var scale :- RemainingScale(budget, s, Value(filled, Abs(fillPrice - plan.stop)));
    var orders :- RebasedLegs(plan, fillPrice, filled, l, budget, scale, i);
    var loss := LadderLoss(orders, plan.stop);
    if loss > budget then Err(OverBudget) else Ok(Ladder(orders, loss))
  }

  function RebasedPlan(plan: Plan, ladder: Ladder, exits: Exits): Plan
    requires |exits.targets| > 0
  {
    plan.(orders := ladder.orders,
          takeProfit := exits.targets[|exits.targets| - 1].price,
          targets := exits.targets,
          targetOrigin := exits.origin,
          traderTarget := RebasedTarget(plan),
          plannedLoss := ladder.loss)
  }

  /** Rebuilds a MARKET plan around the price and quantity its primary leg actually filled at. */
  function Rebase(plan: Plan, fillPrice: real, filled: real, i: Instrument): Result<Plan, PlanError>
    requires ValidPolicy(plan.policy)
  {
    var fault := RebaseInputFault(plan, fillPrice, filled);
    if fault.Some? then Err(fault.value)
    else if i.tick <= 0.0 then Err(TickSize)
    else
      var ladder :- RebasedLadder(plan, fillPrice, filled, i);
      var exits :- LadderExits(plan.side, plan.policy.strategy, ladder.orders, plan.stop, i, RebasedTarget(plan));
      if |exits.targets| == 0 then Err(NotThreeExits) else Checked(RebasedPlan(plan, ladder, exits))
  }

  /** A constructed policy has a positive budget and positive shares of it. */
  lemma {:induction false} BudgetIsPositive(policy: Policy)
    requires ValidPolicy(policy) && RiskBudget(policy).Ok?
    ensures RiskBudget(policy).value > 0.0
    ensures ScaleInBudget(RiskBudget(policy).value, policy.strategy) > 0.0
  {
    MulPositive(policy.capital.value, policy.riskPct);
    var budget := RiskBudget(policy).value;
    MulPositive(budget, policy.strategy.risks.1 + policy.strategy.risks.2);
  }

  // ----- refresh at the submission quote

  function RefreshedQuantity(plan: Plan, budget: real, price: real, step: real): real
    requires |plan.orders| > 0 && step > 0.0 && price != plan.stop
  {
    RoundDown(Min(plan.orders[0].quantity, Share(budget, plan.policy.strategy.risks.0) / Abs(price - plan.stop)), step)
  }

  /** Downsizes the primary leg at the current quote and rebases the plan on it. */
  function Refresh(plan: Plan, i: Instrument): Result<Plan, PlanError>
    requires ValidPolicy(plan.policy) && |plan.orders| > 0
  {
    if plan.version != 2 || !plan.orders[0].orderType.MarketOrder? then Err(NotRefreshable)
    else if i.marketPrice <= 0.0 then Err(QuoteNotPositive)
    else if Gain(plan.side, i.marketPrice, plan.stop) <= 0.0 then Err(QuoteOutsideStop)
    else
      var budget :- RiskBudget(plan.policy);
      if i.qtyStep <= 0.0 then Err(QtyStep)
      else
        var quantity := RefreshedQuantity(plan, budget, i.marketPrice, i.qtyStep);
        if quantity <= 0.0 || quantity < i.minQty then Err(BelowMinimumQuantity("E1"))
        else if BelowNotional(i, quantity, i.marketPrice) then Err(BelowMinimumNotional("E1"))
        else Rebase(plan, i.marketPrice, quantity, i)
  }
}
