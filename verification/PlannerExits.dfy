/** The three exits of every accepted plan: strictly ordered, beyond the entry, never beyond the trader's target. */
module PlannerExits {
  import opened Wrappers
  import opened Arithmetic
  import opened Trading
  import opened Rounding
  import opened PlanDomain
  import opened ExitLadder
  import opened Planner
  import opened PlannerBudget

  // ----- rounded prices keep their order

  lemma {:induction false} RoundingKeepsOrder(side: Side, further: real, nearer: real, tick: real)
    requires tick > 0.0 && Gain(side, further, nearer) >= 0.0
    ensures Gain(side, RoundPrice(further, tick), RoundPrice(nearer, tick)) >= 0.0
  {
    if side.Long? {
      RoundPriceIsMonotone(nearer, further, tick);
    } else {
      RoundPriceIsMonotone(further, nearer, tick);
    }
  }

  /** A price already on a tick bounds the rounding of everything short of it. */
  lemma {:induction false} RoundingStaysBehind(side: Side, target: real, nearer: real, tick: real)
    requires tick > 0.0 && Gain(side, RoundPrice(target, tick), nearer) >= 0.0
    ensures Gain(side, RoundPrice(target, tick), RoundPrice(nearer, tick)) >= 0.0
  {
    RoundPriceIsIdempotent(target, tick);
    RoundingKeepsOrder(side, RoundPrice(target, tick), nearer, tick);
  }

  // ----- the rules under a trader target

  /** A target `r` multiples away reaches the trader's target exactly when `r` equals its own multiple. */
  lemma {:induction false} MultipleReaches(q: Request, target: real, r: real)
    requires q.distance > 0.0
    ensures Gain(q.side, target, Ahead(q.side, q.weighted, Value(q.distance, r)))
         == Value(q.distance, TraderR(q, target) - r)
    ensures r == TraderR(q, target) ==> Ahead(q.side, q.weighted, Value(q.distance, r)) == target
    ensures r <= TraderR(q, target) ==> Gain(q.side, target, Ahead(q.side, q.weighted, Value(q.distance, r))) >= 0.0
  {
    var reach := TraderR(q, target);
    DivTimes(Gain(q.side, target, q.weighted), q.distance);
    assert Value(q.distance, reach) == Gain(q.side, target, q.weighted);
    assert Value(q.distance, reach - r) == Value(q.distance, reach) - Value(q.distance, r);
    if r <= reach {
      MulNonNegative(reach - r, q.distance);
    }
  }

  /** The rules chosen under a trader target never aim beyond it, and the last one aims at it when capped. */
  lemma {:induction false} ChosenRulesStayBehind(q: Request, target: real)
    requires q.distance > 0.0 && ValidStrategy(q.strategy) && q.traderTarget == Some(target)
    requires ChosenRules(q).Ok?
    ensures
      var rules := ChosenRules(q).value.rules;
      && |rules| == 3 && rules[2].r <= TraderR(q, target)
      && (ChosenRules(q).value.origin.Trader? <==> TraderR(q, target) < q.strategy.targetRs.2)
      && (ChosenRules(q).value.origin.Trader? ==> rules[2].r == TraderR(q, target))
  {
  }

  /** Derived exits: three, positive, strictly monotone, priced by the rules. */
  ghost predicate Monotone(side: Side, targets: seq<Target>) {
    && |targets| == 3
    && targets[0].price > 0.0 && targets[1].price > 0.0 && targets[2].price > 0.0
    && Gain(side, targets[1].price, targets[0].price) > 0.0
    && Gain(side, targets[2].price, targets[1].price) > 0.0
  }

  lemma {:induction false} DerivedIsMonotone(q: Request, rules: seq<Rule>)
    requires q.tick > 0.0 && |rules| == 3 && Derived(q, rules).Ok?
    ensures Monotone(q.side, Derived(q, rules).value)
    ensures Derived(q, rules).value == TargetsOf(q, rules)
  {
    AcceptedWhenStrict(q, rules);
  }

  lemma {:induction false} ThreeRules(q: Request)
    requires q.distance > 0.0 && q.tick > 0.0
    ensures BuildExits(q) != Err(NotThreeExits)
    ensures ChosenRules(q).Ok? ==> |ChosenRules(q).value.rules| == 3
  {
    if ChosenRules(q).Ok? {
      var rules := ChosenRules(q).value.rules;
      FaultIsPriceFault(q, rules, 0);
    }
  }

  lemma {:induction false} FaultIsPriceFault(q: Request, rules: seq<Rule>, i: nat)
    requires q.tick > 0.0 && i <= |rules|
    ensures FirstFault(q, rules, i) in [None, Some(TargetNotPositive), Some(TargetsCollapse)]
    decreases |rules| - i
  {
    if i < |rules| {
      FaultIsPriceFault(q, rules, i + 1);
    }
  }

  lemma {:induction false} ExitParts(q: Request) returns (chosen: Rules)
    requires q.tick > 0.0 && q.distance > 0.0 && BuildExits(q).Ok?
    ensures ChosenRules(q) == Ok(chosen) && |chosen.rules| == 3
    ensures Derived(q, chosen.rules).Ok?
    ensures BuildExits(q).value == Exits(TargetsOf(q, chosen.rules), chosen.origin)
    ensures Monotone(q.side, BuildExits(q).value.targets)
  {
    chosen := ChosenRules(q).value;
    DerivedIsMonotone(q, chosen.rules);
  }

  /** The last exit does not pass the trader's tick, and lands on it when the trader's target caps the ladder. */
  ghost predicate Behind(side: Side, cap: real, exits: Exits)
    requires |exits.targets| == 3
  {
    && Gain(side, cap, exits.targets[2].price) >= 0.0
    && (exits.origin.Trader? ==> exits.targets[2].price == cap)
  }

  lemma {:induction false} ExitsStayBehind(q: Request, target: real)
    requires q.tick > 0.0 && q.distance > 0.0 && ValidStrategy(q.strategy)
    requires q.traderTarget == Some(RoundPrice(target, q.tick)) && BuildExits(q).Ok?
    ensures |BuildExits(q).value.targets| == 3
    ensures Behind(q.side, RoundPrice(target, q.tick), BuildExits(q).value)
    ensures BuildExits(q).value.origin.Trader? <==> TraderR(q, RoundPrice(target, q.tick)) < q.strategy.targetRs.2
  {
    var cap := RoundPrice(target, q.tick);
    var chosen := ExitParts(q);
    ChosenRulesStayBehind(q, cap);
    MultipleReaches(q, cap, chosen.rules[2].r);
    var raw := Ahead(q.side, q.weighted, Value(q.distance, chosen.rules[2].r));
    RoundingStaysBehind(q.side, target, raw, q.tick);
    RoundPriceIsIdempotent(target, q.tick);
    LastPrice(q, chosen.rules);
  }

  lemma {:induction false} LastPrice(q: Request, rules: seq<Rule>)
    requires q.tick > 0.0 && |rules| == 3
    ensures TargetsOf(q, rules)[2].price == RoundPrice(Ahead(q.side, q.weighted, Value(q.distance, rules[2].r)), q.tick)
  {
  }

  // ----- exits of a whole ladder

  /** Exits a trader would accept: ordered, beyond the entry, at or short of the target where there is one. */
  ghost predicate RespectsTrader(side: Side, weighted: real, target: Option<real>, tick: real, exits: Exits)
    requires tick > 0.0
  {
    && Monotone(side, exits.targets)
    && TargetsBeyond(side, weighted, exits.targets)
    && (target.Some? ==> Behind(side, RoundPrice(target.value, tick), exits))
    && (target.None? ==> exits.origin.PolicyRule?)
  }

  lemma {:induction false} LadderExitsRespectTrader(
    side: Side, s: Strategy, orders: seq<Order>, stop: real, i: Instrument, target: Option<real>)
    requires i.tick > 0.0 && i.qtyStep > 0.0 && |orders| == 3 && TotalQuantity(orders) > 0.0 && ValidStrategy(s)
    requires LadderExits(side, s, orders, stop, i, target).Ok?
    ensures
      RespectsTrader(side, WeightedEntry(orders), target, i.tick,
                     LadderExits(side, s, orders, stop, i, target).value)
  {
    var q := ExitRequest(side, s, WeightedEntry(orders), stop, i.tick, target);
    var chosen := ExitParts(q);
    if target.Some? {
      ExitsStayBehind(q, target.value);
    }
  }

  /**
   Trader target respected, in planning: the three exits of every accepted plan are strictly monotone,
   beyond its weighted entry and never beyond the trader's target rounded to the tick, and the last
   one equals it when the trader's target caps the ladder.
   */
  lemma {:induction false} PlanRespectsTrader(intent: Intent, policy: Policy, i: Instrument)
    requires ValidPolicy(policy) && ValidInstrument(i) && MakePlan(intent, policy, i).Ok?
    ensures
      var p := MakePlan(intent, policy, i).value;
      && i.tick > 0.0 && |p.orders| == 3 && TotalQuantity(p.orders) > 0.0
      && RespectsTrader(p.side, WeightedEntry(p.orders), intent.takeProfit, i.tick, Exits(p.targets, p.targetOrigin))
      && p.takeProfit == p.targets[2].price
  {
    var p, l, ladder, exits, leverage := PlanParts(intent, policy, i);
    LadderExitsRespectTrader(intent.side, policy.strategy, ladder.orders, p.stop, i, intent.takeProfit);
  }

  /** Trader target respected, in every rebase on an actual fill. */
  lemma {:induction false} RebaseRespectsTrader(plan: Plan, fillPrice: real, filled: real, i: Instrument)
    requires ValidPolicy(plan.policy) && Rebase(plan, fillPrice, filled, i).Ok?
    ensures
      var p := Rebase(plan, fillPrice, filled, i).value;
      && i.tick > 0.0 && |p.orders| == 3 && TotalQuantity(p.orders) > 0.0
      && RespectsTrader(p.side, WeightedEntry(p.orders), RebasedTarget(plan), i.tick, Exits(p.targets, p.targetOrigin))
      && p.takeProfit == p.targets[2].price && p.traderTarget == RebasedTarget(plan)
  {
    var ladder, exits := RebaseParts(plan, fillPrice, filled, i);
    LadderExitsRespectTrader(plan.side, plan.policy.strategy, ladder.orders, plan.stop, i, RebasedTarget(plan));
  }
}
