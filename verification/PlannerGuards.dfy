/** Guards of the planner that cannot fire, and what each accepted plan is known to be. */
module PlannerGuards {
  import opened Wrappers
  import opened Sequences
  import opened Arithmetic
  import opened Trading
  import opened Rounding
  import opened PlanDomain
  import opened ExitLadder
  import opened Planner
  import opened PlannerBudget
  import opened PlannerExits

  // ----- the runner

  ghost predicate PositivePcts(targets: seq<Target>) {
    forall t :: t in targets ==> t.closePct >= 0.0
  }

  lemma {:induction false} PlaceableFits(side: Side, primary: Order, distance: real, t: Target, i: Instrument)
    requires i.qtyStep > 0.0 && i.tick > 0.0 && primary.quantity > 0.0 && t.closePct >= 0.0
    ensures Share(primary.quantity, t.closePct) >= 0.0
    ensures
      var placed := Placeable(side, primary, distance, t, i);
      placed.Some? ==> placed.value <= Share(primary.quantity, t.closePct)
  {
    MulNonNegative(primary.quantity, t.closePct);
    RoundDownBounds(Share(primary.quantity, t.closePct), i.qtyStep);
  }

  lemma {:induction false} SharesAdd(qty: real, p: real, r: real)
    ensures Share(qty, p + r) == Share(qty, p) + Share(qty, r)
  {
    assert qty * (p + r) == qty * p + qty * r;
  }

  /** What the targets can place never exceeds their share of the primary leg. */
  lemma {:induction false} PlaceableIsShare(
    side: Side, primary: Order, distance: real, targets: seq<Target>, i: Instrument)
    requires i.qtyStep > 0.0 && i.tick > 0.0 && primary.quantity > 0.0 && PositivePcts(targets)
    ensures TotalPlaceable(side, primary, distance, targets, i).quantity <= Share(primary.quantity, TotalPct(targets))
  {
    if targets == [] {
      assert Share(primary.quantity, 0.0) == 0.0;
    } else {
      var init, last := Init(targets), Last(targets);
      PlaceableIsShare(side, primary, distance, init, i);
      PlaceableFits(side, primary, distance, last, i);
      assert targets == init + [last];
      SumConcat(init, [last], (t: Target) => t.closePct);
      assert TotalPct(targets) == TotalPct(init) + last.closePct;
      SharesAdd(primary.quantity, TotalPct(init), last.closePct);
    }
  }

  /** With percentages below a hundred a runner is always left; only the instrument's minimum can refuse it. */
  lemma {:induction false} RunnerIsPositive(side: Side, primary: Order, stop: real, targets: seq<Target>, i: Instrument)
    requires i.qtyStep > 0.0 && i.tick > 0.0 && primary.quantity > 0.0 && PositivePcts(targets)
    requires TotalPct(targets) < 100.0
    ensures ExitFault(side, primary, stop, targets, i) != Some(NoConfiguredRunner)
    ensures TotalPlaceable(side, primary, Abs(primary.reference - stop), targets, i).quantity < primary.quantity
    ensures
      var placed := TotalPlaceable(side, primary, Abs(primary.reference - stop), targets, i);
      var runner := primary.quantity - placed.quantity;
      ExitFault(side, primary, stop, targets, i) == Some(NoRunner) ==> 0.0 < runner < i.minQty
  {
    PlaceableIsShare(side, primary, Abs(primary.reference - stop), targets, i);
    ShareIsPart(primary.quantity, TotalPct(targets));
  }

  lemma {:induction false} ShareIsPart(qty: real, pct: real)
    requires qty > 0.0 && pct < 100.0
    ensures Share(qty, pct) < qty
  {
    MulStrict(pct, 100.0, qty);
  }

  lemma {:induction false} DerivedPcts(q: Request, rules: seq<Rule>)
    requires q.tick > 0.0 && ValidStrategy(q.strategy) && q.distance > 0.0 && ChosenRules(q).Ok?
    requires rules == ChosenRules(q).value.rules
    ensures PositivePcts(TargetsOf(q, rules))
    ensures TotalPct(TargetsOf(q, rules)) == 100.0 - q.strategy.runnerPct
    ensures |TargetsOf(q, rules)| == 3
    ensures forall t :: t in TargetsOf(q, rules) ==> 0.0 < t.closePct <= 100.0 && t.rMultiple > 0.0
  {
    var ts := TargetsOf(q, rules);
    var pct := (t: Target) => t.closePct;
    assert ts == [ts[0]] + ([ts[1]] + [ts[2]]);
    SumConcat([ts[0]], [ts[1]] + [ts[2]], pct);
    SumConcat([ts[1]], [ts[2]], pct);
    assert Sum([ts[0]], pct) == ts[0].closePct && Sum([ts[1]], pct) == ts[1].closePct
        && Sum([ts[2]], pct) == ts[2].closePct;
    forall t | t in ts ensures 0.0 < t.closePct <= 100.0 && t.rMultiple > 0.0 {
      var k :| 0 <= k < 3 && ts[k] == t;
      assert k == 0 || k == 1 || k == 2;
    }
  }

  // ----- guards that cannot fire

  /** The errors no valid policy can provoke. */
  predicate Unreachable(e: PlanError) {
    || e.NoStopDistance? || e.LossNotPositive? || e.OverBudget? || e.NoWeightedDistance?
    || e.NotThreeExits? || e.NoConfiguredRunner? || e.NoBudgetLeft?
  }

  lemma {:induction false} LadderExitsErrors(
    side: Side, s: Strategy, orders: seq<Order>, stop: real, i: Instrument, target: Option<real>)
    requires i.tick > 0.0 && i.qtyStep > 0.0 && |orders| == 3 && TotalQuantity(orders) > 0.0 && ValidStrategy(s)
    requires WeightedEntry(orders) != stop && orders[0].quantity > 0.0
    ensures
      var r := LadderExits(side, s, orders, stop, i, target);
      r.Err? ==> !Unreachable(r.error)
  {
    var q := ExitRequest(side, s, WeightedEntry(orders), stop, i.tick, target);
    ThreeRules(q);
    if ChosenRules(q).Ok? {
      var rules := ChosenRules(q).value.rules;
      FaultIsPriceFault(q, rules, 0);
      DerivedPcts(q, rules);
      RunnerIsPositive(side, orders[0], stop, TargetsOf(q, rules), i);
    }
  }

  lemma {:induction false} SizedOrderErrors(leg: Leg, budget: real, stop: real, i: Instrument)
    requires leg.reference != stop
    ensures SizedOrder(leg, budget, stop, i).Err? ==> !Unreachable(SizedOrder(leg, budget, stop, i).error)
  {
  }

  lemma {:induction false} PlanLadderErrors(intent: Intent, policy: Policy, i: Instrument, l: Levels, stop: real)
    requires ValidPolicy(policy) && BeyondStop(intent.side, l, stop)
    ensures
      var r := PlanLadder(intent, policy, i, l, stop);
      r.Err? ==> !Unreachable(r.error)
  {
    PlanLadderIsAffordable(intent, policy, i, l, stop);
    if RiskBudget(policy).Ok? {
      var s, budget := policy.strategy, RiskBudget(policy).value;
      var first := if intent.entry.AtMarket? then MarketOrder else LimitOrder;
      SizedOrderErrors(Leg("E1", first, l.first, s.risks.0), Share(budget, s.risks.0), stop, i);
      SizedOrderErrors(Leg("E2", LimitOrder, l.second, s.risks.1), Share(budget, s.risks.1), stop, i);
      SizedOrderErrors(Leg("E3", LimitOrder, l.third, s.risks.2), Share(budget, s.risks.2), stop, i);
    }
  }

  /** Planning never reaches its defensive guards: levels in order already make every one of them hold. */
  lemma {:induction false} PlanGuardsAreUnreachable(intent: Intent, policy: Policy, i: Instrument)
    requires ValidPolicy(policy) && ValidInstrument(i)
    ensures MakePlan(intent, policy, i).Err? ==> !Unreachable(MakePlan(intent, policy, i).error)
  {
    var s := policy.strategy;
    if i.tick <= 0.0 || ResolveStop(intent, s, i).Err? { return; }
    var stop := ResolveStop(intent, s, i).value.stop;
    if PlanLevels(intent, s, i, stop).Err? { return; }
    PlanLevelsAreOrdered(intent, s, i, stop);
    var l := PlanLevels(intent, s, i, stop).value;
    PlanLadderErrors(intent, policy, i, l, stop);
    var ladder := PlanLadder(intent, policy, i, l, stop);
    if ladder.Ok? {
      PlanExitsErrors(intent, policy, i, l, stop);
    }
  }

  lemma {:induction false} PlanExitsErrors(intent: Intent, policy: Policy, i: Instrument, l: Levels, stop: real)
    requires ValidPolicy(policy) && i.tick > 0.0 && BeyondStop(intent.side, l, stop)
    requires PlanLadder(intent, policy, i, l, stop).Ok?
    ensures
      var orders := PlanLadder(intent, policy, i, l, stop).value.orders;
      var r := LadderExits(intent.side, policy.strategy, orders, stop, i, intent.takeProfit);
      if r.Err? then !Unreachable(r.error) else |r.value.targets| == 3
  {
    PlanLadderIsAffordable(intent, policy, i, l, stop);
    var orders := PlanLadder(intent, policy, i, l, stop).value.orders;
    LossIsWeighted(intent.side, orders, stop);
    LadderExitsErrors(intent.side, policy.strategy, orders, stop, i, intent.takeProfit);
  }

  lemma {:induction false} RebasedLadderErrors(plan: Plan, fillPrice: real, filled: real, i: Instrument)
    requires ValidPolicy(plan.policy) && |plan.orders| == 3 && filled > 0.0 && i.tick > 0.0
    ensures
      var r := RebasedLadder(plan, fillPrice, filled, i);
      r.Err? ==> !Unreachable(r.error)
  {
    RebasedLadderIsAffordable(plan, fillPrice, filled, i);
    if RiskBudget(plan.policy).Err? { return; }
    BudgetIsPositive(plan.policy);
    var s, budget := plan.policy.strategy, RiskBudget(plan.policy).value;
    var l := LadderLevels(plan.side, s, fillPrice, plan.stop, i.tick);
    var risk := Value(filled, Abs(fillPrice - plan.stop));
    if CheckedLevels(plan.side, l, plan.stop).Err? || RemainingScale(budget, s, risk).Err? { return; }
    var scale := RemainingScale(budget, s, risk).value;
    SizedOrderErrors(Leg("E2", LimitOrder, l.second, s.risks.1), Value(Share(budget, s.risks.1), scale), plan.stop, i);
    SizedOrderErrors(Leg("E3", LimitOrder, l.third, s.risks.2), Value(Share(budget, s.risks.2), scale), plan.stop, i);
  }

  /** Rebasing never reaches its defensive guards either, whatever plan and fill it is given. */
  lemma {:induction false} RebaseGuardsAreUnreachable(plan: Plan, fillPrice: real, filled: real, i: Instrument)
    requires ValidPolicy(plan.policy)
    ensures Rebase(plan, fillPrice, filled, i).Err? ==> !Unreachable(Rebase(plan, fillPrice, filled, i).error)
  {
    if RebaseInputFault(plan, fillPrice, filled).Some? || i.tick <= 0.0 { return; }
    RebasedLadderErrors(plan, fillPrice, filled, i);
    var ladder := RebasedLadder(plan, fillPrice, filled, i);
    if ladder.Ok? {
      RebasedLadderIsAffordable(plan, fillPrice, filled, i);
      LossIsWeighted(plan.side, ladder.value.orders, plan.stop);
      LadderExitsErrors(plan.side, plan.policy.strategy, ladder.value.orders, plan.stop, i, RebasedTarget(plan));
    }
  }

  // ----- leverage and fallback stop

  /** The selected leverage is the largest on the grid that neither the request nor the instrument forbids. */
  lemma {:induction false} SelectedLeverageIsLargest(f: LeverageFilter, requested: real)
    requires ValidFilter(f)
    ensures SelectLeverage(f, requested).Ok? <==> f.minimum <= requested
    ensures
      var r := SelectLeverage(f, requested);
      r.Ok? ==>
        && f.minimum <= r.value <= Min(requested, f.maximum)
        && OnGrid(f, r.value)
        && forall n: int :: 0 <= n && f.minimum + Ticks(n, f.step) <= Min(requested, f.maximum) ==>
             f.minimum + Ticks(n, f.step) <= r.value
  {
    if f.minimum <= requested {
      var room := Min(requested, f.maximum) - f.minimum;
      RoundDownBounds(room, f.step);
      DivNonNegative(room, f.step);
      assert SelectLeverage(f, requested).value == f.minimum + Ticks(Truncated(room / f.step), f.step);
      forall n: int | 0 <= n && f.minimum + Ticks(n, f.step) <= Min(requested, f.maximum)
        ensures f.minimum + Ticks(n, f.step) <= SelectLeverage(f, requested).value
      {
        RoundDownIsLargest(room, f.step, n);
      }
    }
  }

  /** A stop chosen by policy is rounded away from the entry, by less than a tick. */
  lemma {:induction false} FallbackStopIsNoTighter(intent: Intent, s: Strategy, i: Instrument)
    requires i.tick > 0.0 && intent.stopLoss.None?
    ensures 0.0 <= Gain(intent.side, RawFallback(intent, s, i), RoundedStop(intent, s, i).stop) < i.tick
  {
    var x := RawFallback(intent, s, i);
    var q := x / i.tick;
    DivTimes(x, i.tick);
    if intent.side.Long? {
      TicksBelow(q.Floor, q, i.tick);
    } else {
      TicksAbove(Ceiling(q), q, i.tick);
    }
  }

  /** A scale-in level lies its depth of the primary distance closer to the stop, to within half a tick. */
  lemma {:induction false} LevelsKeepDepth(side: Side, primary: real, depth: real, stop: real, tick: real)
    requires tick > 0.0 && Gain(side, primary, stop) > 0.0
    ensures
      var level := DepthLevel(side, primary, depth, Abs(primary - stop), tick);
      -(tick / 2.0) <= Gain(side, level, stop) - Value(1.0 - depth, Gain(side, primary, stop)) <= tick / 2.0
  {
    var distance := Abs(primary - stop);
    RoundPriceIsNear(Ahead(side, primary, -Value(depth, distance)), tick);
    assert Value(1.0 - depth, distance) == distance - Value(depth, distance);
  }

  lemma {:induction false} TicksBelow(n: int, q: real, size: real)
    requires size > 0.0 && n as real <= q < n as real + 1.0
    ensures 0.0 <= q * size - Ticks(n, size) < size
  {
    OneMore(n as real, q, size);
    Between(n as real, n as real, q, size);
  }

  lemma {:induction false} TicksAbove(n: int, q: real, size: real)
    requires size > 0.0 && n as real - 1.0 < q <= n as real
    ensures 0.0 <= Ticks(n, size) - q * size < size
  {
    Between(n as real, q, n as real, size);
    var rest := q - n as real + 1.0;
    MulPositive(rest, size);
    Rest(n as real, q, size);
  }

  lemma {:induction false} Rest(n: real, q: real, size: real)
    ensures (q - n + 1.0) * size == q * size - Times(n, size) + size
  {
  }
}
