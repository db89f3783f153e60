/** What accepted plans and rebases come to, in prices and amounts: budgets, levels, stops and exits. */
module PlannerTerms {
  import opened Wrappers
  import opened Arithmetic
  import opened Trading
  import opened Rounding
  import opened PlanDomain
  import opened ExitLadder
  import opened Planner
  import opened PlannerBudget
  import opened PlannerExits
  import opened PlannerGuards

  /** A whole number of ticks or quantity steps. */
  ghost predicate OnGridOf(x: real, size: real) {
    exists n: int :: x == Ticks(n, size)
  }

  /** `value` rounded to a tick, within half of one. */
  ghost predicate Near(price: real, value: real, tick: real) {
    OnGridOf(price, tick) && value - tick / 2.0 <= price <= value + tick / 2.0
  }

  /** A stepped quantity that loses at most `amount` at the stop, while one step more would lose more. */
  ghost predicate Spends(o: Order, amount: real, stop: real, step: real) {
    && o.quantity > 0.0 && OnGridOf(o.quantity, step)
    && o.quantity * Abs(o.reference - stop) <= amount
    && amount < (o.quantity + step) * Abs(o.reference - stop)
  }

  lemma {:induction false} RoundedIsNear(value: real, tick: real)
    requires tick > 0.0
    ensures Near(RoundPrice(value, tick), value, tick)
  {
    RoundPriceIsNear(value, tick);
    assert RoundPrice(value, tick) == Ticks(HalfUp(value / tick), tick);
  }

  lemma {:induction false} SizedSpends(leg: Leg, amount: real, stop: real, i: Instrument)
    requires amount >= 0.0 && SizedOrder(leg, amount, stop, i).Ok?
    ensures Spends(SizedOrder(leg, amount, stop, i).value, amount, stop, i.qtyStep)
  {
    SizedOrderFits(leg, amount, stop, i);
    var o := SizedOrder(leg, amount, stop, i).value;
    var n := Truncated(amount / Abs(leg.reference - stop) / i.qtyStep);
    assert o.quantity == Ticks(n, i.qtyStep);
  }

  // ----- the budget of a plan

  /** The three legs of a ladder, each with its percentage of `budget`. */
  ghost predicate SpendsBudget(orders: seq<Order>, budget: real, s: Strategy, stop: real, step: real) {
    && |orders| == 3
    && Spends(orders[0], Share(budget, s.risks.0), stop, step)
    && Spends(orders[1], Share(budget, s.risks.1), stop, step)
    && Spends(orders[2], Share(budget, s.risks.2), stop, step)
  }

  lemma {:induction false} SizedLegsSpend(
    budget: real, l: Levels, s: Strategy, first: OrderType, stop: real, i: Instrument)
    requires ValidStrategy(s) && budget > 0.0 && SizedLegs(budget, l, s, first, stop, i).Ok?
    ensures SpendsBudget(SizedLegs(budget, l, s, first, stop, i).value, budget, s, stop, i.qtyStep)
  {
    SharesOfBudget(budget, s);
    SizedSpends(Leg("E1", first, l.first, s.risks.0), Share(budget, s.risks.0), stop, i);
    SizedSpends(Leg("E2", LimitOrder, l.second, s.risks.1), Share(budget, s.risks.1), stop, i);
    SizedSpends(Leg("E3", LimitOrder, l.third, s.risks.2), Share(budget, s.risks.2), stop, i);
  }

  /** The budget is the policy's percentage of the capital. */
  lemma {:induction false} BudgetIsPercentage(policy: Policy)
    requires RiskBudget(policy).Ok?
    ensures policy.capital.Some?
    ensures RiskBudget(policy).value == policy.capital.value * policy.riskPct / 100.0
  {
  }

  lemma {:induction false} PlanLadderSpends(
    intent: Intent, policy: Policy, i: Instrument, l: Levels, stop: real, budget: real)
    requires ValidPolicy(policy) && PlanLadder(intent, policy, i, l, stop).Ok? && RiskBudget(policy) == Ok(budget)
    ensures
      SpendsBudget(PlanLadder(intent, policy, i, l, stop).value.orders, budget, policy.strategy, stop, i.qtyStep)
  {
    BudgetIsPositive(policy);
    var first := if intent.entry.AtMarket? then MarketOrder else LimitOrder;
    SizedLegsSpend(budget, l, policy.strategy, first, stop, i);
  }

  /**
   Every leg of an accepted plan spends its own percentage of the budget, which is the policy's percentage of the
   capital, as far as the quantity step allows.
   */
  lemma {:induction false} PlanSpendsItsBudget(intent: Intent, policy: Policy, i: Instrument)
    requires ValidPolicy(policy) && ValidInstrument(i) && MakePlan(intent, policy, i).Ok?
    ensures policy.capital.Some?
    ensures
      var p := MakePlan(intent, policy, i).value;
      SpendsBudget(p.orders, policy.capital.value * policy.riskPct / 100.0, policy.strategy, p.stop, i.qtyStep)
  {
    var p, l, ladder, exits, leverage := PlanParts(intent, policy, i);
    BudgetIsPercentage(policy);
    PlanLadderSpends(intent, policy, i, l, p.stop, RiskBudget(policy).value);
  }

  // ----- the budget of a rebase

  /** What a fill leaves for the scale-ins, at most their own percentage of the budget. */
  function ScaleInsMaySpend(policy: Policy, filled: real, fillPrice: real, stop: real): real
    requires policy.capital.Some?
  {
    var budget := policy.capital.value * policy.riskPct / 100.0;
    Min(budget * (policy.strategy.risks.1 + policy.strategy.risks.2) / 100.0, budget - filled * Abs(fillPrice - stop))
  }

  /** The part of `amount` that goes to one of two legs which share it as `risk` is to `both`. */
  function PartOf(amount: real, risk: real, both: real): real
    requires both != 0.0
  {
    amount * risk / both
  }

  lemma {:induction false} PartOfScaled(budget: real, s: Strategy, risk: real, scale: real, amount: real)
    requires ValidStrategy(s) && budget > 0.0 && Value(ScaleInBudget(budget, s), scale) == amount
    ensures Value(Share(budget, risk), scale) == PartOf(amount, risk, s.risks.1 + s.risks.2)
  {
    var both := s.risks.1 + s.risks.2;
    assert (budget * both / 100.0) * scale == amount;
    assert (budget * risk / 100.0) * scale * both == amount * risk by {
      Commute(budget, risk, scale, both);
    }
    DivExact((budget * risk / 100.0) * scale, both, amount * risk);
  }

  lemma {:induction false} Commute(budget: real, risk: real, scale: real, both: real)
    ensures (budget * risk / 100.0) * scale * both == (budget * both / 100.0) * scale * risk
  {
    var x := budget * scale / 100.0;
    assert (budget * risk / 100.0) * scale == x * risk;
    assert (budget * both / 100.0) * scale == x * both;
    assert x * risk * both == x * both * risk;
  }

  lemma {:induction false} DivExact(q: real, b: real, a: real)
    requires b > 0.0 && q * b == a
    ensures a / b == q
  {
    DivTimes(a, b);
    DivAtMost(a, b, q);
  }

  /** A rebased ladder: the fill, and two scale-ins that spend their parts of `left`. */
  ghost predicate SpendsLeft(
    orders: seq<Order>, filled: real, fillPrice: real, left: real, s: Strategy, stop: real, step: real)
    requires s.risks.1 + s.risks.2 != 0.0
  {
    && |orders| == 3 && orders[0].quantity == filled && orders[0].reference == fillPrice
    && Spends(orders[1], PartOf(left, s.risks.1, s.risks.1 + s.risks.2), stop, step)
    && Spends(orders[2], PartOf(left, s.risks.2, s.risks.1 + s.risks.2), stop, step)
  }

  /** The scale-ins use all that the fill leaves, up to their own percentage. */
  lemma {:induction false} ScaleUsesWhatIsLeft(budget: real, s: Strategy, primaryRisk: real)
    requires ValidStrategy(s) && budget > 0.0 && ScaleInBudget(budget, s) > 0.0
    requires RemainingScale(budget, s, primaryRisk).Ok?
    ensures RemainingScale(budget, s, primaryRisk).value > 0.0
    ensures Value(ScaleInBudget(budget, s), RemainingScale(budget, s, primaryRisk).value)
         == Min(ScaleInBudget(budget, s), budget - primaryRisk)
  {
    ScaleIsFraction(budget, s, primaryRisk);
    var nominal, left := ScaleInBudget(budget, s), budget - primaryRisk;
    DivTimes(left, nominal);
    DivAtMost(left, nominal, 1.0);
  }

  lemma {:induction false} RebasedLegsSpend(
    plan: Plan, fillPrice: real, filled: real, l: Levels, budget: real, scale: real, part1: real, part2: real,
    i: Instrument)
    requires |plan.orders| == 3 && filled > 0.0 && part1 >= 0.0 && part2 >= 0.0
    requires Value(Share(budget, plan.policy.strategy.risks.1), scale) == part1
    requires Value(Share(budget, plan.policy.strategy.risks.2), scale) == part2
    requires RebasedLegs(plan, fillPrice, filled, l, budget, scale, i).Ok?
    ensures
      var orders := RebasedLegs(plan, fillPrice, filled, l, budget, scale, i).value;
      && orders[0].quantity == filled && orders[0].reference == fillPrice
      && Spends(orders[1], part1, plan.stop, i.qtyStep) && Spends(orders[2], part2, plan.stop, i.qtyStep)
  {
    var s := plan.policy.strategy;
    SizedSpends(Leg("E2", LimitOrder, l.second, s.risks.1), part1, plan.stop, i);
    SizedSpends(Leg("E3", LimitOrder, l.third, s.risks.2), part2, plan.stop, i);
  }

  /** The two parts of what the fill leaves. */
  lemma {:induction false} RebasedParts(budget: real, s: Strategy, risk: real, left: real)
    requires ValidStrategy(s) && budget > 0.0 && ScaleInBudget(budget, s) > 0.0
    requires RemainingScale(budget, s, risk).Ok?
    requires left == Min(ScaleInBudget(budget, s), budget - risk)
    ensures
      var scale := RemainingScale(budget, s, risk).value;
      && Value(Share(budget, s.risks.1), scale) == PartOf(left, s.risks.1, s.risks.1 + s.risks.2) >= 0.0
      && Value(Share(budget, s.risks.2), scale) == PartOf(left, s.risks.2, s.risks.1 + s.risks.2) >= 0.0
  {
    var scale := RemainingScale(budget, s, risk).value;
    ScaleUsesWhatIsLeft(budget, s, risk);
    ScaledShares(budget, s, scale);
    PartOfScaled(budget, s, s.risks.1, scale, left);
    PartOfScaled(budget, s, s.risks.2, scale, left);
  }

  /** The legs of a rebased ladder. */
  lemma {:induction false} RebasedLadderLegs(
    plan: Plan, fillPrice: real, filled: real, i: Instrument, budget: real) returns (l: Levels, scale: real)
    requires ValidPolicy(plan.policy) && |plan.orders| == 3 && filled > 0.0 && i.tick > 0.0
    requires RebasedLadder(plan, fillPrice, filled, i).Ok? && RiskBudget(plan.policy) == Ok(budget)
    ensures ScaleInBudget(budget, plan.policy.strategy) > 0.0 && budget > 0.0
    ensures RemainingScale(budget, plan.policy.strategy, Value(filled, Abs(fillPrice - plan.stop))) == Ok(scale)
    ensures l == LadderLevels(plan.side, plan.policy.strategy, fillPrice, plan.stop, i.tick)
    ensures RebasedLegs(plan, fillPrice, filled, l, budget, scale, i)
         == Ok(RebasedLadder(plan, fillPrice, filled, i).value.orders)
  {
    BudgetIsPositive(plan.policy);
    l := LadderLevels(plan.side, plan.policy.strategy, fillPrice, plan.stop, i.tick);
    scale := RemainingScale(budget, plan.policy.strategy, Value(filled, Abs(fillPrice - plan.stop))).value;
  }

  lemma {:induction false} RebasedLadderSpends(
    plan: Plan, fillPrice: real, filled: real, i: Instrument, budget: real, left: real)
    requires ValidPolicy(plan.policy) && |plan.orders| == 3 && filled > 0.0 && i.tick > 0.0
    requires RebasedLadder(plan, fillPrice, filled, i).Ok? && RiskBudget(plan.policy) == Ok(budget)
    requires left
          == Min(ScaleInBudget(budget, plan.policy.strategy), budget - Value(filled, Abs(fillPrice - plan.stop)))
    ensures
      SpendsLeft(RebasedLadder(plan, fillPrice, filled, i).value.orders, filled, fillPrice, left,
                 plan.policy.strategy, plan.stop, i.qtyStep)
  {
    var s := plan.policy.strategy;
    var l, scale := RebasedLadderLegs(plan, fillPrice, filled, i, budget);
    RebasedParts(budget, s, Value(filled, Abs(fillPrice - plan.stop)), left);
    RebasedLegsSpend(plan, fillPrice, filled, l, budget, scale, PartOf(left, s.risks.1, s.risks.1 + s.risks.2),
                     PartOf(left, s.risks.2, s.risks.1 + s.risks.2), i);
  }

  lemma {:induction false} LeftWrittenOut(plan: Plan, filled: real, fillPrice: real, budget: real)
    requires plan.policy.capital.Some? && budget == plan.policy.capital.value * plan.policy.riskPct / 100.0
    ensures ScaleInsMaySpend(plan.policy, filled, fillPrice, plan.stop)
         == Min(ScaleInBudget(budget, plan.policy.strategy), budget - Value(filled, Abs(fillPrice - plan.stop)))
  {
  }

  /**
   The scale-ins of every accepted rebase spend exactly what the fill leaves of the budget, or their own percentage of
   it where the fill leaves more, each its part, as far as the quantity step allows.
   */
  lemma {:induction false} RebaseSpendsWhatIsLeft(plan: Plan, fillPrice: real, filled: real, i: Instrument)
    requires ValidPolicy(plan.policy) && Rebase(plan, fillPrice, filled, i).Ok?
    ensures plan.policy.capital.Some?
    ensures
      SpendsLeft(Rebase(plan, fillPrice, filled, i).value.orders, filled, fillPrice,
                 ScaleInsMaySpend(plan.policy, filled, fillPrice, plan.stop), plan.policy.strategy, plan.stop,
                 i.qtyStep)
  {
    var ladder, exits := RebaseParts(plan, fillPrice, filled, i);
    BudgetIsPercentage(plan.policy);
    var budget := RiskBudget(plan.policy).value;
    var left := Min(ScaleInBudget(budget, plan.policy.strategy), budget - Value(filled, Abs(fillPrice - plan.stop)));
    LeftWrittenOut(plan, filled, fillPrice, budget);
    RebasedLadderSpends(plan, fillPrice, filled, i, budget, left);
  }

  // ----- refresh

  /** One step more than the refreshed primary leg would pass the planned quantity or its percentage of the budget. */
  ghost predicate Refills(primary: Order, planned: real, share: real, stop: real, step: real) {
    && OnGridOf(primary.quantity, step) && primary.quantity <= planned
    && Value(primary.quantity, Abs(primary.reference - stop)) <= share
    && (primary.quantity + step > planned || Value(primary.quantity + step, Abs(primary.reference - stop)) > share)
  }

  lemma {:induction false} LargestWithin(planned: real, share: real, distance: real, step: real)
    requires planned > 0.0 && share > 0.0 && distance > 0.0 && step > 0.0
    ensures
      var quantity := RoundDown(Min(planned, share / distance), step);
      && OnGridOf(quantity, step) && quantity <= planned && Value(quantity, distance) <= share
      && (quantity + step > planned || Value(quantity + step, distance) > share)
  {
    DivPositive(share, distance);
    var raw := Min(planned, share / distance);
    var quantity := RoundDown(raw, step);
    RoundDownBounds(raw, step);
    assert quantity == Ticks(Truncated(raw / step), step);
    DivAtMost(share, distance, quantity);
    DivAtMost(share, distance, quantity + step);
    assert Value(quantity, distance) == quantity * distance;
    assert Value(quantity + step, distance) == (quantity + step) * distance;
  }

  lemma {:induction false} RefreshRefills(plan: Plan, primary: Order, budget: real, price: real, step: real)
    requires ValidStrategy(plan.policy.strategy) && |plan.orders| > 0 && plan.orders[0].quantity > 0.0
    requires budget > 0.0 && step > 0.0 && price != plan.stop
    requires primary.quantity == RefreshedQuantity(plan, budget, price, step) && primary.reference == price
    ensures Refills(primary, plan.orders[0].quantity, Share(budget, plan.policy.strategy.risks.0), plan.stop, step)
  {
    SharesOfBudget(budget, plan.policy.strategy);
    LargestWithin(plan.orders[0].quantity, Share(budget, plan.policy.strategy.risks.0), Abs(price - plan.stop), step);
  }

  /** A refresh keeps as much of the primary leg as the plan and its percentage of the budget allow at the quote. */
  lemma {:induction false} RefreshKeepsWhatFits(plan: Plan, i: Instrument) returns (budget: real)
    requires ValidPolicy(plan.policy) && |plan.orders| > 0 && plan.orders[0].quantity > 0.0 && Refresh(plan, i).Ok?
    ensures plan.policy.capital.Some? && |Refresh(plan, i).value.orders| == 3
    ensures budget == plan.policy.capital.value * plan.policy.riskPct / 100.0
    ensures
      var primary := Refresh(plan, i).value.orders[0];
      && primary.reference == i.marketPrice
      && Refills(primary, plan.orders[0].quantity, budget * plan.policy.strategy.risks.0 / 100.0, plan.stop, i.qtyStep)
  {
    var found, quantity := RefreshIsRebase(plan, i);
    budget := found;
    BudgetIsPercentage(plan.policy);
    BudgetIsPositive(plan.policy);
    RebaseShrinks(plan, i.marketPrice, quantity, i);
    RefreshRefills(plan, Refresh(plan, i).value.orders[0], budget, i.marketPrice, i.qtyStep);
  }

  // ----- stops and levels

  /** The policy's stop: its percentage below the reference for LONG, above it for SHORT. */
  function PolicyStop(side: Side, reference: real, pct: real): real {
    if side.Long? then reference * (1.0 - pct / 100.0) else reference * (1.0 + pct / 100.0)
  }

  /** What a policy's stop is measured from: the quote, the limit price, or the far end of the range. */
  function StopReference(intent: Intent, i: Instrument): real {
    if intent.entry.AtMarket? then i.marketPrice
    else if intent.entry.AtPrice? then intent.entry.price
    else if intent.side.Long? then intent.entry.low
    else intent.entry.high
  }

  /** The trader's stop to the nearest tick, or the policy's, moved away from the entry by less than a tick. */
  ghost predicate StopAsAsked(intent: Intent, s: Strategy, i: Instrument, stop: real, origin: Origin) {
    && stop > 0.0 && OnGridOf(stop, i.tick)
    && (intent.stopLoss.Some? ==> origin.Trader? && Near(stop, intent.stopLoss.value, i.tick))
    && (intent.stopLoss.None? ==>
          && origin.PolicyRule?
          && 0.0 <= Gain(intent.side, PolicyStop(intent.side, StopReference(intent, i), s.fallbackStopPct), stop)
                 < i.tick)
  }

  lemma {:induction false} StopInTerms(intent: Intent, s: Strategy, i: Instrument)
    requires i.tick > 0.0 && ResolveStop(intent, s, i).Ok?
    ensures
      StopAsAsked(intent, s, i, ResolveStop(intent, s, i).value.stop, ResolveStop(intent, s, i).value.origin)
  {
    if intent.stopLoss.Some? {
      RoundedIsNear(intent.stopLoss.value, i.tick);
    } else {
      FallbackStopIsNoTighter(intent, s, i);
      var raw := RawFallback(intent, s, i) / i.tick;
      assert RoundedStop(intent, s, i).stop == Ticks(if intent.side.Long? then raw.Floor else Ceiling(raw), i.tick);
    }
  }

  /** The price `depth` of the way from `first` to the stop. */
  function AtDepth(first: real, stop: real, depth: real): real {
    first + depth * (stop - first)
  }

  /** Where the three entries of an intent belong, before rounding. */
  ghost predicate EntriesInTerms(intent: Intent, s: Strategy, marketPrice: real, l: Levels, stop: real, tick: real) {
    match intent.entry
    case AtMarket =>
      && l.first == marketPrice
      && Near(l.second, AtDepth(l.first, stop, s.depths.0), tick)
      && Near(l.third, AtDepth(l.first, stop, s.depths.1), tick)
    case AtPrice(price) =>
      && Near(l.first, price, tick)
      && Near(l.second, AtDepth(l.first, stop, s.depths.0), tick)
      && Near(l.third, AtDepth(l.first, stop, s.depths.1), tick)
    case InRange(low, high) =>
      && Near(l.first, if intent.side.Long? then high else low, tick)
      && Near(l.second, (low + high) / 2.0, tick)
      && Near(l.third, if intent.side.Long? then low else high, tick)
  }

  lemma {:induction false} DepthInTerms(side: Side, first: real, depth: real, stop: real, tick: real)
    requires tick > 0.0 && Gain(side, first, stop) > 0.0
    ensures Near(DepthLevel(side, first, depth, Abs(first - stop), tick), AtDepth(first, stop, depth), tick)
  {
    RoundedIsNear(Ahead(side, first, -Value(depth, Abs(first - stop))), tick);
    assert Ahead(side, first, -Value(depth, Abs(first - stop))) == AtDepth(first, stop, depth) by {
      DepthMoves(side, first, depth, stop);
    }
  }

  lemma {:induction false} DepthMoves(side: Side, first: real, depth: real, stop: real)
    requires Gain(side, first, stop) > 0.0
    ensures Ahead(side, first, -Value(depth, Abs(first - stop))) == AtDepth(first, stop, depth)
  {
    assert depth * (stop - first) == -(depth * (first - stop));
  }

  lemma {:induction false} LevelsInTerms(intent: Intent, s: Strategy, i: Instrument, stop: real)
    requires i.tick > 0.0 && PlanLevels(intent, s, i, stop).Ok?
    ensures EntriesInTerms(intent, s, i.marketPrice, PlanLevels(intent, s, i, stop).value, stop, i.tick)
  {
    PlanLevelsAreOrdered(intent, s, i, stop);
    var l := PlanLevels(intent, s, i, stop).value;
    match intent.entry
    case InRange(low, high) =>
      RoundedIsNear(low, i.tick);
      RoundedIsNear(high, i.tick);
      RoundedIsNear((low + high) / 2.0, i.tick);
    case AtPrice(price) =>
      RoundedIsNear(price, i.tick);
      DepthInTerms(intent.side, l.first, s.depths.0, stop, i.tick);
      DepthInTerms(intent.side, l.first, s.depths.1, stop, i.tick);
    case AtMarket =>
      DepthInTerms(intent.side, l.first, s.depths.0, stop, i.tick);
      DepthInTerms(intent.side, l.first, s.depths.1, stop, i.tick);
  }

  /** The three orders as placed: the primary at the quote for a MARKET entry, everything else limited at its level. */
  ghost predicate PlacedAt(orders: seq<Order>, l: Levels, atMarket: bool) {
    && |orders| == 3
    && orders[0].reference == l.first && orders[1].reference == l.second && orders[2].reference == l.third
    && (if atMarket then orders[0].orderType.MarketOrder? && orders[0].price.None?
        else orders[0].orderType.LimitOrder? && orders[0].price == Some(l.first))
    && orders[1].orderType.LimitOrder? && orders[1].price == Some(l.second)
    && orders[2].orderType.LimitOrder? && orders[2].price == Some(l.third)
  }

  lemma {:induction false} LadderIsPlaced(intent: Intent, policy: Policy, i: Instrument, l: Levels, stop: real)
    requires PlanLadder(intent, policy, i, l, stop).Ok?
    ensures PlacedAt(PlanLadder(intent, policy, i, l, stop).value.orders, l, intent.entry.AtMarket?)
  {
  }

  /** An accepted plan has the stop and the entries its intent and policy ask for, each rounded to a tick. */
  lemma {:induction false} PlanSitsAsAsked(intent: Intent, policy: Policy, i: Instrument) returns (l: Levels)
    requires ValidPolicy(policy) && ValidInstrument(i) && MakePlan(intent, policy, i).Ok?
    ensures
      var p := MakePlan(intent, policy, i).value;
      && p.side == intent.side && p.policy == policy && p.runnerPct == policy.strategy.runnerPct
      && p.traderTarget == intent.takeProfit
      && PlacedAt(p.orders, l, intent.entry.AtMarket?)
      && EntriesInTerms(intent, policy.strategy, i.marketPrice, l, p.stop, i.tick)
      && StopAsAsked(intent, policy.strategy, i, p.stop, p.stopOrigin)
  {
    var p, levels, ladder, exits, leverage := PlanParts(intent, policy, i);
    l := levels;
    StopInTerms(intent, policy.strategy, i);
    LevelsInTerms(intent, policy.strategy, i, p.stop);
    LadderIsPlaced(intent, policy, i, l, p.stop);
  }

  // ----- exits

  /** The multiples of the risk at which a ladder takes profit; a trader's target short of the last one caps them. */
  function Multiples(side: Side, s: Strategy, weighted: real, stop: real, cap: Option<real>): (real, real, real)
    requires weighted != stop
  {
    if cap.None? || Gain(side, cap.value, weighted) / Abs(weighted - stop) >= s.targetRs.2 then s.targetRs
    else
      var reach := Gain(side, cap.value, weighted) / Abs(weighted - stop);
      (s.targetRs.0, (s.targetRs.0 + reach) / 2.0, reach)
  }

  ghost predicate ExitAt(t: Target, price: real, pct: real, r: real, tick: real) {
    Near(t.price, price, tick) && t.closePct == pct && t.rMultiple == r
  }

  /** Three exits, each its multiple of the risk beyond the weighted entry and with its own percentage. */
  ghost predicate ExitsAt(
    side: Side, s: Strategy, weighted: real, stop: real, cap: Option<real>, tick: real, targets: seq<Target>)
    requires weighted != stop
  {
    var (r1, r2, r3) := Multiples(side, s, weighted, stop, cap);
    var risk := Abs(weighted - stop);
    && |targets| == 3
    && ExitAt(targets[0], Ahead(side, weighted, Value(risk, r1)), s.targetPcts.0, r1, tick)
    && ExitAt(targets[1], Ahead(side, weighted, Value(risk, r2)), s.targetPcts.1, r2, tick)
    && ExitAt(targets[2], Ahead(side, weighted, Value(risk, r3)), s.targetPcts.2, r3, tick)
  }

  lemma {:induction false} LadderExitsInTerms(
    side: Side, s: Strategy, orders: seq<Order>, stop: real, i: Instrument, target: Option<real>)
    requires i.tick > 0.0 && i.qtyStep > 0.0 && |orders| == 3 && TotalQuantity(orders) > 0.0 && ValidStrategy(s)
    requires LadderExits(side, s, orders, stop, i, target).Ok?
    ensures WeightedEntry(orders) != stop
    ensures
      ExitsAt(side, s, WeightedEntry(orders), stop,
              if target.Some? then Some(RoundPrice(target.value, i.tick)) else None, i.tick,
              LadderExits(side, s, orders, stop, i, target).value.targets)
  {
    var q := ExitRequest(side, s, WeightedEntry(orders), stop, i.tick, target);
    var chosen := ExitParts(q);
    RuleIsNear(q, chosen.rules[0].r);
    RuleIsNear(q, chosen.rules[1].r);
    RuleIsNear(q, chosen.rules[2].r);
  }

  lemma {:induction false} RuleIsNear(q: ExitLadder.Request, r: real)
    requires q.tick > 0.0
    ensures Near(PriceAt(q, r), Ahead(q.side, q.weighted, Value(q.distance, r)), q.tick)
  {
    RoundedIsNear(Ahead(q.side, q.weighted, Value(q.distance, r)), q.tick);
  }

  /** The average price of the three legs by quantity. */
  ghost predicate AverageOf(weighted: real, orders: seq<Order>) {
    && |orders| == 3
    && weighted * (orders[0].quantity + orders[1].quantity + orders[2].quantity)
       == orders[0].quantity * orders[0].reference + orders[1].quantity * orders[1].reference
          + orders[2].quantity * orders[2].reference
  }

  lemma {:induction false} WeightedIsAverage(orders: seq<Order>)
    requires |orders| == 3 && TotalQuantity(orders) > 0.0
    ensures AverageOf(WeightedEntry(orders), orders)
  {
    WeightedWorth(orders);
  }

  /** The exits of every accepted plan stand at their multiples of the risk beyond its average entry. */
  lemma {:induction false} PlanExitsStand(intent: Intent, policy: Policy, i: Instrument) returns (weighted: real)
    requires ValidPolicy(policy) && ValidInstrument(i) && MakePlan(intent, policy, i).Ok?
    ensures i.tick > 0.0
    ensures
      var p := MakePlan(intent, policy, i).value;
      && AverageOf(weighted, p.orders) && weighted != p.stop
      && ExitsAt(p.side, policy.strategy, weighted, p.stop,
                 if intent.takeProfit.Some? then Some(RoundPrice(intent.takeProfit.value, i.tick)) else None, i.tick,
                 p.targets)
  {
    var p, l, ladder, exits, leverage := PlanParts(intent, policy, i);
    weighted := WeightedEntry(ladder.orders);
    WeightedIsAverage(ladder.orders);
    LadderExitsInTerms(intent.side, policy.strategy, ladder.orders, p.stop, i, intent.takeProfit);
  }

  /** A rebase recalls the trader's target of the plan, also of plans that kept it only as their last exit. */
  function TargetToKeep(plan: Plan): Option<real> {
    if plan.traderTarget.Some? then plan.traderTarget
    else if plan.targetOrigin.Trader? then Some(plan.takeProfit)
    else None
  }

  /** A rebase stands around the fill: scale-ins at their depths from it, exits beyond the new average. */
  lemma {:induction false} RebaseStandsAroundFill(plan: Plan, fillPrice: real, filled: real, i: Instrument)
    returns (weighted: real)
    requires ValidPolicy(plan.policy) && Rebase(plan, fillPrice, filled, i).Ok?
    ensures i.tick > 0.0
    ensures
      var p := Rebase(plan, fillPrice, filled, i).value;
      && AverageOf(weighted, p.orders) && weighted != p.stop && p.stop == plan.stop && p.side == plan.side
      && Near(p.orders[1].reference, AtDepth(fillPrice, plan.stop, plan.policy.strategy.depths.0), i.tick)
      && Near(p.orders[2].reference, AtDepth(fillPrice, plan.stop, plan.policy.strategy.depths.1), i.tick)
      && ExitsAt(p.side, plan.policy.strategy, weighted, p.stop,
                 if TargetToKeep(plan).Some? then Some(RoundPrice(TargetToKeep(plan).value, i.tick)) else None, i.tick,
                 p.targets)
  {
    var ladder, exits := RebaseParts(plan, fillPrice, filled, i);
    weighted := WeightedEntry(ladder.orders);
    WeightedIsAverage(ladder.orders);
    LadderExitsInTerms(plan.side, plan.policy.strategy, ladder.orders, plan.stop, i, RebasedTarget(plan));
    RebasedLevels(plan, fillPrice, filled, i);
  }

  lemma {:induction false} RebasedLevels(plan: Plan, fillPrice: real, filled: real, i: Instrument)
    requires ValidPolicy(plan.policy) && |plan.orders| == 3 && filled > 0.0 && i.tick > 0.0
    requires Gain(plan.side, fillPrice, plan.stop) > 0.0 && RebasedLadder(plan, fillPrice, filled, i).Ok?
    ensures
      var orders := RebasedLadder(plan, fillPrice, filled, i).value.orders;
      && Near(orders[1].reference, AtDepth(fillPrice, plan.stop, plan.policy.strategy.depths.0), i.tick)
      && Near(orders[2].reference, AtDepth(fillPrice, plan.stop, plan.policy.strategy.depths.1), i.tick)
  {
    var l, scale := RebasedLadderLegs(plan, fillPrice, filled, i, RiskBudget(plan.policy).value);
    DepthInTerms(plan.side, fillPrice, plan.policy.strategy.depths.0, plan.stop, i.tick);
    DepthInTerms(plan.side, fillPrice, plan.policy.strategy.depths.1, plan.stop, i.tick);
  }
}
