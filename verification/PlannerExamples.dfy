/** Two plans worked out by hand, LONG and SHORT: the theorems about accepted plans speak of something. */
module PlannerExamples {
  import opened Wrappers
  import opened Sequences
  import opened Trading
  import opened Rounding
  import opened PlanDomain
  import opened ExitLadder
  import opened Planner

  function Halves(): Strategy {
    Strategy(2.0, (50.0, 25.0, 25.0), (0.25, 0.5), (1.0, 2.0, 3.0), (25.0, 25.0, 25.0), 25.0, 0.5, 0.3, 0.05)
  }

  function Capital(): Policy {
    Policy(Some(1_000_000.0), 1.0, Halves())
  }

  function Coin(): Instrument {
    Instrument(100.0, 1.0, 1.0, 1.0, 5.0, None)
  }

  /** The stop, 20 away on the losing side; levels a quarter and a half of the way towards it. */
  function StopOf(side: Side): real {
    Ahead(side, 100.0, -20.0)
  }

  function LevelsOf(side: Side): Levels {
    Levels(100.0, Ahead(side, 100.0, -5.0), Ahead(side, 100.0, -10.0))
  }

  function OrdersOf(side: Side): seq<Order> {
    var l := LevelsOf(side);
    [Order("E1", Some(50.0), MarketOrder, 250.0, None, l.first),
     Order("E2", Some(25.0), LimitOrder, 166.0, Some(l.second), l.second),
     Order("E3", Some(25.0), LimitOrder, 250.0, Some(l.third), l.third)]
  }

  lemma {:induction false} WholeTicks(x: real, n: int)
    requires n as real - 0.5 < x < n as real + 0.5
    ensures RoundPrice(x, 1.0) == n as real
  {
    assert x / 1.0 == x;
    assert HalfUp(x) == n;
    assert Ticks(n, 1.0) == n as real;
  }

  lemma {:induction false} WholeSteps(x: real, n: nat)
    requires n as real <= x < n as real + 1.0
    ensures RoundDown(x, 1.0) == n as real
  {
    assert x / 1.0 == x;
    assert Truncated(x) == n;
    assert Ticks(n, 1.0) == n as real;
  }

  lemma {:induction false} ExampleLevels(side: Side)
    ensures RoundPrice(StopOf(side), 1.0) == StopOf(side)
    ensures LadderLevels(side, Halves(), 100.0, StopOf(side), 1.0) == LevelsOf(side)
    ensures CheckedLevels(side, LevelsOf(side), StopOf(side)) == Ok(LevelsOf(side))
    ensures Distinct(LevelsOf(side))
  {
    WholeTicks(80.0, 80);
    WholeTicks(120.0, 120);
    WholeTicks(95.0, 95);
    WholeTicks(105.0, 105);
    WholeTicks(90.0, 90);
    WholeTicks(110.0, 110);
    assert Value(0.25, 20.0) == 5.0 && Value(0.5, 20.0) == 10.0;
  }

  lemma {:induction false} ExampleLeg(leg: Leg, budget: real, stop: real, quantity: nat)
    requires quantity >= 1 && leg.reference >= 5.0 && leg.reference != stop
    requires quantity as real <= budget / Abs(leg.reference - stop) < quantity as real + 1.0
    ensures SizedOrder(leg, budget, stop, Coin()) ==
      Ok(Order(leg.name, Some(leg.riskPct), leg.orderType, quantity as real,
               if leg.orderType.LimitOrder? then Some(leg.reference) else None, leg.reference))
  {
    WholeSteps(budget / Abs(leg.reference - stop), quantity);
    assert Value(quantity as real, leg.reference) >= 5.0 by {
      assert (quantity as real - 1.0) * leg.reference >= 0.0;
    }
  }

  lemma {:induction false} ExampleOrders(side: Side)
    ensures RiskBudget(Capital()) == Ok(10_000.0)
    ensures SizedLegs(10_000.0, LevelsOf(side), Halves(), MarketOrder, StopOf(side), Coin()) == Ok(OrdersOf(side))
    ensures LadderLoss(OrdersOf(side), StopOf(side)) == 9_990.0
    ensures TotalQuantity(OrdersOf(side)) == 666.0
    ensures WeightedEntry(OrdersOf(side)) == Ahead(side, 100.0, -5.0)
  {
    var l := LevelsOf(side);
    assert Share(1_000_000.0, 1.0) == 10_000.0;
    assert Share(10_000.0, 50.0) == 5_000.0 && Share(10_000.0, 25.0) == 2_500.0;
    ExampleLeg(Leg("E1", MarketOrder, l.first, 50.0), 5_000.0, StopOf(side), 250);
    ExampleLeg(Leg("E2", LimitOrder, l.second, 25.0), 2_500.0, StopOf(side), 166);
    ExampleLeg(Leg("E3", LimitOrder, l.third, 25.0), 2_500.0, StopOf(side), 250);
  }

  // ----- exits

  /** LONG without a trader target: one, two and three times the weighted risk of 15. */
  function LongExits(): Exits {
    Exits([Target("TP1", 110.0, 25.0, 1.0), Target("TP2", 125.0, 25.0, 2.0), Target("TP3", 140.0, 25.0, 3.0)],
          PolicyRule)
  }

  /** SHORT with a trader target at 66, 2.6 times the weighted risk: the ladder is squeezed under it. */
  function ShortExits(): Exits {
    Exits([Target("TP1", 90.0, 25.0, 1.0), Target("TP2", 78.0, 25.0, 1.8), Target("TP3", 66.0, 25.0, 2.6)], Trader)
  }

  lemma {:induction false} DerivedFrom(q: Request, rules: seq<Rule>, targets: seq<Target>)
    requires q.tick > 0.0 && |rules| == |targets|
    requires forall k :: 0 <= k < |rules| ==> TargetOf(q, rules[k]) == targets[k]
    requires forall k :: 0 <= k < |targets| ==>
      targets[k].price > 0.0 && (k > 0 ==> Gain(q.side, targets[k].price, targets[k - 1].price) > 0.0)
    ensures Derived(q, rules) == Ok(targets)
  {
    forall k | 0 <= k < |rules| ensures PriceAt(q, rules[k].r) == targets[k].price {
      assert TargetOf(q, rules[k]) == targets[k];
    }
    assert Strict(q, rules, 0);
    AcceptedWhenStrict(q, rules);
    assert TargetsOf(q, rules) == targets;
  }

  lemma {:induction false} LongTargets()
    ensures BuildExits(Request(Long, Halves(), 95.0, 15.0, 1.0, None)) == Ok(LongExits())
  {
    var q := Request(Long, Halves(), 95.0, 15.0, 1.0, None);
    WholeTicks(110.0, 110);
    WholeTicks(125.0, 125);
    WholeTicks(140.0, 140);
    assert Value(15.0, 1.0) == 15.0 && Value(15.0, 2.0) == 30.0 && Value(15.0, 3.0) == 45.0;
    DerivedFrom(q, PolicyRules(Halves()), LongExits().targets);
  }

  lemma {:induction false} ShortTargets()
    ensures BuildExits(Request(Short, Halves(), 105.0, 15.0, 1.0, Some(66.0))) == Ok(ShortExits())
  {
    var q := Request(Short, Halves(), 105.0, 15.0, 1.0, Some(66.0));
    WholeTicks(90.0, 90);
    WholeTicks(78.0, 78);
    WholeTicks(66.0, 66);
    assert Value(15.0, 1.0) == 15.0 && Value(15.0, 1.8) == 27.0 && Value(15.0, 2.6) == 39.0;
    assert TraderR(q, 66.0) == 2.6;
    DerivedFrom(q, RulesOf(Halves(), 1.8, 2.6), ShortExits().targets);
  }

  lemma {:induction false} ExamplePlaceable(side: Side, t: Target)
    requires t.closePct == 25.0 && 1.0 <= t.rMultiple <= 3.0
    ensures Placeable(side, OrdersOf(side)[0], 20.0, t, Coin()) == Some(62.0)
  {
    assert Share(250.0, 25.0) == 62.5;
    WholeSteps(62.5, 62);
    var raw := Ahead(side, 100.0, Value(20.0, t.rMultiple));
    assert 40.0 <= raw;
    RoundPriceIsNear(raw, 1.0);
    var price := RoundPrice(raw, 1.0);
    assert Value(62.0, price) >= 5.0;
  }

  lemma {:induction false} ExampleCapacity(side: Side, targets: seq<Target>)
    requires |targets| == 3
    requires forall k :: 0 <= k < 3 ==> targets[k].closePct == 25.0 && 1.0 <= targets[k].rMultiple <= 3.0
    ensures ExitFault(side, OrdersOf(side)[0], StopOf(side), targets, Coin()).None?
  {
    var a, b, c := targets[0], targets[1], targets[2];
    var primary := OrdersOf(side)[0];
    ExamplePlaceable(side, a);
    ExamplePlaceable(side, b);
    ExamplePlaceable(side, c);
    assert targets == ([a] + [b]) + [c] && [a] == [] + [a];
    InitSnoc([a] + [b], c);
    InitSnoc([a], b);
    InitSnoc([], a);
    assert TotalPlaceable(side, primary, 20.0, [], Coin()) == Capacity(0, 0.0);
    assert TotalPlaceable(side, primary, 20.0, [a], Coin()) == Capacity(1, 62.0);
    assert TotalPlaceable(side, primary, 20.0, [a] + [b], Coin()) == Capacity(2, 124.0);
    assert TotalPlaceable(side, primary, 20.0, targets, Coin()) == Capacity(3, 186.0);
    var pct := (t: Target) => t.closePct;
    assert targets == [a] + ([b] + [c]);
    SumConcat([a], [b] + [c], pct);
    SumConcat([b], [c], pct);
    assert Sum([a], pct) == 25.0 && Sum([b], pct) == 25.0 && Sum([c], pct) == 25.0;
    assert TotalPct(targets) == 75.0;
  }

  lemma {:induction false} ExampleExits(side: Side, target: Option<real>, exits: Exits)
    requires target.Some? ==> RoundPrice(target.value, 1.0) == target.value
    requires BuildExits(Request(side, Halves(), Ahead(side, 100.0, -5.0), 15.0, 1.0, target)) == Ok(exits)
    requires |exits.targets| == 3 && TargetsBeyond(side, Ahead(side, 100.0, -5.0), exits.targets)
    requires forall k :: 0 <= k < 3 ==> exits.targets[k].closePct == 25.0 && 1.0 <= exits.targets[k].rMultiple <= 3.0
    ensures TotalQuantity(OrdersOf(side)) > 0.0
    ensures LadderExits(side, Halves(), OrdersOf(side), StopOf(side), Coin(), target) == Ok(exits)
  {
    ExampleOrders(side);
    ExampleCapacity(side, exits.targets);
    assert ExitRequest(side, Halves(), Ahead(side, 100.0, -5.0), StopOf(side), 1.0, target)
        == Request(side, Halves(), Ahead(side, 100.0, -5.0), 15.0, 1.0, target);
  }

  // ----- the plans

  function PlanOf(side: Side, target: Option<real>, exits: Exits): Plan
    requires |exits.targets| == 3
  {
    Plan(2, side, 10.0, OrdersOf(side), [], StopOf(side), Trader, exits.targets[2].price, exits.targets, exits.origin,
         target, 25.0, Capital(), 9_990.0)
  }

  function IntentOf(side: Side, target: Option<real>): Intent {
    Intent(side, AtMarket, Some(StopOf(side)), target, None)
  }

  lemma {:induction false} ExampleStop(side: Side, target: Option<real>)
    ensures ResolveStop(IntentOf(side, target), Halves(), Coin()) == Ok(Protective(StopOf(side), Trader))
    ensures PlanLevels(IntentOf(side, target), Halves(), Coin(), StopOf(side)) == Ok(LevelsOf(side))
  {
    ExampleLevels(side);
  }

  lemma {:induction false} ExampleLadder(side: Side, target: Option<real>)
    ensures PlanLadder(IntentOf(side, target), Capital(), Coin(), LevelsOf(side), StopOf(side))
         == Ok(Ladder(OrdersOf(side), 9_990.0))
  {
    ExampleOrders(side);
  }

  lemma {:induction false} ExampleIsValid(side: Side, target: Option<real>, exits: Exits)
    requires target.Some? ==> target.value > 0.0
    requires |exits.targets| == 3
    requires forall k :: 0 <= k < 3 ==> ValidTarget(exits.targets[k]) && exits.targets[k].closePct == 25.0
    ensures ValidPlan(PlanOf(side, target, exits))
  {
    ExampleOrders(side);
  }

  lemma {:induction false} ExamplePlan(side: Side, target: Option<real>, exits: Exits)
    requires target.Some? ==> target.value > 0.0
    requires TotalQuantity(OrdersOf(side)) > 0.0
    requires LadderExits(side, Halves(), OrdersOf(side), StopOf(side), Coin(), target) == Ok(exits)
    requires |exits.targets| == 3
    requires forall k :: 0 <= k < 3 ==> ValidTarget(exits.targets[k]) && exits.targets[k].closePct == 25.0
    ensures MakePlan(IntentOf(side, target), Capital(), Coin()) == Ok(PlanOf(side, target, exits))
  {
    ExampleStop(side, target);
    ExampleLadder(side, target);
    ExampleIsValid(side, target, exits);
    Assembles(IntentOf(side, target), Capital(), Coin(), Protective(StopOf(side), Trader), LevelsOf(side),
              Ladder(OrdersOf(side), 9_990.0), exits, 10.0);
  }

  /** A plan is made of its accepted parts. */
  lemma {:induction false} Assembles(
    intent: Intent, policy: Policy, i: Instrument, p: Protective, l: Levels, ladder: Ladder, exits: Exits,
    leverage: real)
    requires ValidInstrument(i) && i.tick > 0.0
    requires ResolveStop(intent, policy.strategy, i) == Ok(p)
    requires PlanLevels(intent, policy.strategy, i, p.stop) == Ok(l)
    requires PlanLadder(intent, policy, i, l, p.stop) == Ok(ladder)
    requires LadderExits(intent.side, policy.strategy, ladder.orders, p.stop, i, intent.takeProfit) == Ok(exits)
    requires PlanLeverage(intent, i) == Ok(leverage) && |exits.targets| > 0
    requires ValidPlan(AssembledPlan(intent, policy, leverage, p, ladder, exits))
    ensures MakePlan(intent, policy, i) == Ok(AssembledPlan(intent, policy, leverage, p, ladder, exits))
  {
  }

  /** LONG at 100 with a stop at 80: legs at 100, 95 and 90, exits at 110, 125 and 140. */
  lemma {:induction false} LongPlanWorkedOut()
    ensures MakePlan(Intent(Long, AtMarket, Some(80.0), None, None), Capital(), Coin())
         == Ok(PlanOf(Long, None, LongExits()))
  {
    LongTargets();
    ExampleExits(Long, None, LongExits());
    ExamplePlan(Long, None, LongExits());
  }

  /** SHORT at 100 with a stop at 120 and a trader target at 66: legs at 100, 105 and 110, exits at 90, 78 and 66. */
  lemma {:induction false} ShortPlanWorkedOut()
    ensures MakePlan(Intent(Short, AtMarket, Some(120.0), Some(66.0), None), Capital(), Coin())
         == Ok(PlanOf(Short, Some(66.0), ShortExits()))
  {
    ShortTargets();
    WholeTicks(66.0, 66);
    ExampleExits(Short, Some(66.0), ShortExits());
    ExamplePlan(Short, Some(66.0), ShortExits());
  }
}
