/** When a plan or a rebase is accepted: the exact conditions, in prices and amounts. */
module PlannerDecision {
  import opened Wrappers
  import opened Sequences
  import opened Arithmetic
  import opened Trading
  import opened Rounding
  import opened PlanDomain
  import opened ExitLadder
  import opened Planner
  import opened PlannerBudget
  import opened PlannerExits
  import opened PlannerGuards
  import opened PlannerFixpoint
  import opened PlannerTerms

  /** An order the instrument takes. */
  predicate Takes(i: Instrument, quantity: real, price: real) {
    quantity > 0.0 && quantity >= i.minQty && (i.minNotional == 0.0 || Value(quantity, price) >= i.minNotional)
  }

  // ----- the stop

  /** The trader's stop to the nearest tick, or the first tick at or beyond the policy's. */
  ghost predicate StopIs(intent: Intent, s: Strategy, i: Instrument, stop: real)
    requires i.tick > 0.0
  {
    if intent.stopLoss.Some? then stop == RoundPrice(intent.stopLoss.value, i.tick)
    else
      && OnGridOf(stop, i.tick)
      && 0.0 <= Gain(intent.side, PolicyStop(intent.side, StopReference(intent, i), s.fallbackStopPct), stop) < i.tick
  }

  lemma {:induction false} NextTick(n: int, tick: real)
    ensures Ticks(n + 1, tick) == Ticks(n, tick) + tick
  {
  }

  lemma {:induction false} OneTick(n: int, m: int, tick: real)
    requires tick > 0.0 && -tick < Ticks(n, tick) - Ticks(m, tick) < tick
    ensures n == m
  {
    NextTick(n, tick);
    NextTick(m, tick);
    if n < m {
      TicksAreMonotone(n + 1, m, tick);
    } else if m < n {
      TicksAreMonotone(m + 1, n, tick);
    }
  }

  lemma {:induction false} RoundedStopIs(intent: Intent, s: Strategy, i: Instrument)
    requires i.tick > 0.0
    ensures StopIs(intent, s, i, RoundedStop(intent, s, i).stop)
  {
    if intent.stopLoss.None? {
      FallbackStopIsNoTighter(intent, s, i);
      var raw := RawFallback(intent, s, i) / i.tick;
      assert RoundedStop(intent, s, i).stop == Ticks(if intent.side.Long? then raw.Floor else Ceiling(raw), i.tick);
    }
  }

  lemma {:induction false} OneStop(intent: Intent, s: Strategy, i: Instrument, stop: real, other: real)
    requires i.tick > 0.0 && StopIs(intent, s, i, stop) && StopIs(intent, s, i, other)
    ensures stop == other
  {
    if intent.stopLoss.None? {
      var n: int :| stop == Ticks(n, i.tick);
      var m: int :| other == Ticks(m, i.tick);
      OneTick(n, m, i.tick);
    }
  }

  // ----- the entries

  /** The entry itself and the two depths of the way to the stop. */
  function DepthsFrom(first: real, s: Strategy, stop: real, tick: real): Levels
    requires tick > 0.0
  {
    Levels(first,
           RoundPrice(AtDepth(first, stop, s.depths.0), tick), RoundPrice(AtDepth(first, stop, s.depths.1), tick))
  }

  /** The three entry prices an intent asks for. */
  function EntriesAsked(intent: Intent, s: Strategy, i: Instrument, stop: real): Levels
    requires i.tick > 0.0
  {
    match intent.entry
    case AtMarket => DepthsFrom(i.marketPrice, s, stop, i.tick)
    case AtPrice(price) => DepthsFrom(RoundPrice(price, i.tick), s, stop, i.tick)
    case InRange(low, high) =>
      var near, far := if intent.side.Long? then high else low, if intent.side.Long? then low else high;
      Levels(RoundPrice(near, i.tick), RoundPrice((low + high) / 2.0, i.tick), RoundPrice(far, i.tick))
  }

  /** From the entry each level is strictly closer to the stop, and none reaches it. */
  predicate Descends(side: Side, l: Levels, stop: real) {
    if side.Long? then stop < l.third < l.second < l.first else stop > l.third > l.second > l.first
  }

  /** The market has not passed through the entry. */
  predicate EntryIsAhead(intent: Intent, first: real, marketPrice: real) {
    intent.entry.AtMarket? || (if intent.side.Long? then marketPrice >= first else marketPrice <= first)
  }

  lemma {:induction false} DepthsAreLevels(side: Side, s: Strategy, first: real, stop: real, tick: real)
    requires tick > 0.0 && Gain(side, first, stop) > 0.0
    ensures LadderLevels(side, s, first, stop, tick) == DepthsFrom(first, s, stop, tick)
  {
    DepthMoves(side, first, s.depths.0, stop);
    DepthMoves(side, first, s.depths.1, stop);
  }

  lemma {:induction false} LevelsDecide(intent: Intent, s: Strategy, i: Instrument, stop: real)
    requires i.tick > 0.0
    ensures
      var l := EntriesAsked(intent, s, i, stop);
      && (PlanLevels(intent, s, i, stop).Ok?
          <==> Descends(intent.side, l, stop) && EntryIsAhead(intent, l.first, i.marketPrice))
      && (PlanLevels(intent, s, i, stop).Ok? ==> PlanLevels(intent, s, i, stop).value == l)
  {
    var l := EntriesAsked(intent, s, i, stop);
    if !intent.entry.InRange? && Gain(intent.side, l.first, stop) > 0.0 {
      DepthsAreLevels(intent.side, s, l.first, stop, i.tick);
    }
  }

  // ----- the legs

  /** Three orders at their levels that spend their percentages of the budget and that the instrument takes. */
  ghost predicate Ladders(orders: seq<Order>, l: Levels, budget: real, s: Strategy, stop: real, i: Instrument) {
    && SpendsBudget(orders, budget, s, stop, i.qtyStep)
    && orders[0].reference == l.first && orders[1].reference == l.second && orders[2].reference == l.third
    && l.first > 0.0 && l.second > 0.0 && l.third > 0.0
    && Takes(i, orders[0].quantity, l.first) && Takes(i, orders[1].quantity, l.second)
    && Takes(i, orders[2].quantity, l.third)
  }

  lemma {:induction false} SmallerFactor(x: real, y: real, distance: real)
    requires distance > 0.0 && Value(x, distance) < Value(y, distance)
    ensures x < y
  {
    if y <= x { MulMono(y, x, distance); }
  }

  lemma {:induction false} SizedIsStepped(amount: real, reference: real, stop: real, step: real) returns (m: int)
    requires step > 0.0 && reference != stop
    ensures SizedQuantity(amount, reference, stop, step) == Ticks(m, step)
  {
    m := Truncated(amount / Abs(reference - stop) / step);
  }

  lemma {:induction false} SpendsValue(o: Order, amount: real, stop: real, step: real) returns (n: int)
    requires Spends(o, amount, stop, step)
    ensures Value(o.quantity, Abs(o.reference - stop)) <= amount < Value(o.quantity + step, Abs(o.reference - stop))
    ensures o.quantity == Ticks(n, step)
  {
    n :| o.quantity == Ticks(n, step);
  }

  lemma {:induction false} OneBetween(n: int, m: int, amount: real, distance: real, step: real)
    requires step > 0.0 && distance > 0.0
    requires Value(Ticks(n, step), distance) <= amount < Value(Ticks(n, step) + step, distance)
    requires Value(Ticks(m, step), distance) <= amount < Value(Ticks(m, step) + step, distance)
    ensures n == m
  {
    SmallerFactor(Ticks(n, step), Ticks(m, step) + step, distance);
    SmallerFactor(Ticks(m, step), Ticks(n, step) + step, distance);
    OneTick(n, m, step);
  }

  /** Only one stepped quantity spends an amount. */
  lemma {:induction false} OneQuantity(o: Order, amount: real, stop: real, i: Instrument)
    requires i.qtyStep > 0.0 && o.reference != stop && amount >= 0.0 && Spends(o, amount, stop, i.qtyStep)
    ensures o.quantity == SizedQuantity(amount, o.reference, stop, i.qtyStep)
  {
    var n := SpendsValue(o, amount, stop, i.qtyStep);
    SizedQuantityFits(amount, o.reference, stop, i.qtyStep);
    var m := SizedIsStepped(amount, o.reference, stop, i.qtyStep);
    OneBetween(n, m, amount, Abs(o.reference - stop), i.qtyStep);
  }

  lemma {:induction false} LegDecides(leg: Leg, o: Order, amount: real, stop: real, i: Instrument)
    requires i.qtyStep > 0.0 && leg.reference != stop && amount >= 0.0 && leg.reference > 0.0
    requires Spends(o, amount, stop, i.qtyStep) && o.reference == leg.reference && Takes(i, o.quantity, leg.reference)
    ensures SizedOrder(leg, amount, stop, i).Ok? && SizedOrder(leg, amount, stop, i).value.quantity == o.quantity
  {
    OneQuantity(o, amount, stop, i);
  }

  lemma {:induction false} SizedIsTaken(leg: Leg, amount: real, stop: real, i: Instrument)
    requires amount >= 0.0 && SizedOrder(leg, amount, stop, i).Ok?
    ensures
      var o := SizedOrder(leg, amount, stop, i).value;
      && Spends(o, amount, stop, i.qtyStep) && o.reference == leg.reference > 0.0
      && Takes(i, o.quantity, leg.reference)
  {
    SizedSpends(leg, amount, stop, i);
  }

  ghost predicate SameQuantities(orders: seq<Order>, others: seq<Order>) {
    && |orders| == |others| == 3
    && orders[0].quantity == others[0].quantity && orders[1].quantity == others[1].quantity
    && orders[2].quantity == others[2].quantity
    && orders[0].reference == others[0].reference && orders[1].reference == others[1].reference
    && orders[2].reference == others[2].reference
  }

  lemma {:induction false} LegsAreSized(
    orders: seq<Order>, l: Levels, budget: real, s: Strategy, first: OrderType, stop: real, i: Instrument)
    requires ValidStrategy(s) && budget > 0.0 && i.qtyStep > 0.0 && Ladders(orders, l, budget, s, stop, i)
    requires l.first != stop && l.second != stop && l.third != stop
    ensures SizedLegs(budget, l, s, first, stop, i).Ok?
    ensures SameQuantities(orders, SizedLegs(budget, l, s, first, stop, i).value)
  {
    SharesOfBudget(budget, s);
    LegDecides(Leg("E1", first, l.first, s.risks.0), orders[0], Share(budget, s.risks.0), stop, i);
    LegDecides(Leg("E2", LimitOrder, l.second, s.risks.1), orders[1], Share(budget, s.risks.1), stop, i);
    LegDecides(Leg("E3", LimitOrder, l.third, s.risks.2), orders[2], Share(budget, s.risks.2), stop, i);
  }

  lemma {:induction false} SizedLegsLadder(
    l: Levels, budget: real, s: Strategy, first: OrderType, stop: real, i: Instrument)
    requires ValidStrategy(s) && budget > 0.0 && SizedLegs(budget, l, s, first, stop, i).Ok?
    ensures Ladders(SizedLegs(budget, l, s, first, stop, i).value, l, budget, s, stop, i)
  {
    SharesOfBudget(budget, s);
    SizedIsTaken(Leg("E1", first, l.first, s.risks.0), Share(budget, s.risks.0), stop, i);
    SizedIsTaken(Leg("E2", LimitOrder, l.second, s.risks.1), Share(budget, s.risks.1), stop, i);
    SizedIsTaken(Leg("E3", LimitOrder, l.third, s.risks.2), Share(budget, s.risks.2), stop, i);
  }

  /** Sized legs always make a ladder within the budget. */
  lemma {:induction false} LegsMakeLadder(intent: Intent, policy: Policy, i: Instrument, l: Levels, stop: real)
    requires ValidPolicy(policy) && Descends(intent.side, l, stop) && policy.capital.Some?
    ensures
      var legs := SizedLegs(Share(policy.capital.value, policy.riskPct), l, policy.strategy,
                            if intent.entry.AtMarket? then MarketOrder else LimitOrder, stop, i);
      var ladder := PlanLadder(intent, policy, i, l, stop);
      && (ladder.Ok? <==> legs.Ok?)
      && (ladder.Ok? ==> ladder.value.orders == legs.value)
  {
    PlanLadderErrors(intent, policy, i, l, stop);
    BudgetIsPercentage(policy);
  }

  /** A ladder is built exactly when some three orders spend the budget and are taken; there is only one choice. */
  lemma {:induction false} LadderDecides(
    intent: Intent, policy: Policy, i: Instrument, l: Levels, stop: real, orders: seq<Order>)
    requires ValidPolicy(policy) && Descends(intent.side, l, stop)
    ensures PlanLadder(intent, policy, i, l, stop).Ok? ==>
              && policy.capital.Some? && i.qtyStep > 0.0
              && Ladders(PlanLadder(intent, policy, i, l, stop).value.orders, l,
                         Share(policy.capital.value, policy.riskPct), policy.strategy, stop, i)
    ensures policy.capital.Some? && i.qtyStep > 0.0
            && Ladders(orders, l, Share(policy.capital.value, policy.riskPct), policy.strategy, stop, i) ==>
              && PlanLadder(intent, policy, i, l, stop).Ok?
              && SameQuantities(orders, PlanLadder(intent, policy, i, l, stop).value.orders)
  {
    if policy.capital.Some? {
      BudgetIsPositive(policy);
      BudgetIsPercentage(policy);
      var s, budget := policy.strategy, Share(policy.capital.value, policy.riskPct);
      var first := if intent.entry.AtMarket? then MarketOrder else LimitOrder;
      LegsMakeLadder(intent, policy, i, l, stop);
      if PlanLadder(intent, policy, i, l, stop).Ok? {
        SizedLegsLadder(l, budget, s, first, stop, i);
      }
      if i.qtyStep > 0.0 && Ladders(orders, l, budget, s, stop, i) {
        LegsAreSized(orders, l, budget, s, first, stop, i);
      }
    }
  }

  // ----- the exits

  /** What a percentage of the primary leg comes to on its own, if the instrument takes it. */
  function Placed(i: Instrument, share: real, price: real): real
    requires i.tick > 0.0 && i.qtyStep > 0.0
  {
    var quantity := RoundDown(share, i.qtyStep);
    if Takes(i, quantity, RoundPrice(price, i.tick)) then quantity else 0.0
  }

  /** The primary leg alone can place some exit, and then leaves a runner the instrument takes. */
  ghost predicate Carries(
    side: Side, quantity: real, entry: real, stop: real, r: (real, real, real), pcts: (real, real, real), i: Instrument)
    requires i.tick > 0.0 && i.qtyStep > 0.0
  {
    var risk := Abs(entry - stop);
    var one := Placed(i, Share(quantity, pcts.0), Ahead(side, entry, Value(risk, r.0)));
    var two := Placed(i, Share(quantity, pcts.1), Ahead(side, entry, Value(risk, r.1)));
    var three := Placed(i, Share(quantity, pcts.2), Ahead(side, entry, Value(risk, r.2)));
    var runner := quantity - one - two - three;
    (one > 0.0 || two > 0.0 || three > 0.0) && runner > 0.0 && runner >= i.minQty
  }

  /** Positive prices that lie one beyond the other, starting from the average entry. */
  predicate Rises(side: Side, weighted: real, p1: real, p2: real, p3: real) {
    && p1 > 0.0 && p2 > 0.0 && p3 > 0.0
    && if side.Long? then weighted < p1 < p2 < p3 else weighted > p1 > p2 > p3
  }

  /**
   Exits that can be placed: a trader's target lies beyond the first multiple, the rounded prices rise strictly from the
   average entry, and the primary leg carries them.
   */
  ghost predicate Exitable(
    side: Side, s: Strategy, quantity: real, entry: real, weighted: real, stop: real, cap: Option<real>, i: Instrument)
    requires i.tick > 0.0 && i.qtyStep > 0.0 && weighted != stop
  {
    var risk, r := Abs(weighted - stop), Multiples(side, s, weighted, stop, cap);
    var p1 := RoundPrice(Ahead(side, weighted, Value(risk, r.0)), i.tick);
    var p2 := RoundPrice(Ahead(side, weighted, Value(risk, r.1)), i.tick);
    var p3 := RoundPrice(Ahead(side, weighted, Value(risk, r.2)), i.tick);
    && (cap.Some? ==> Gain(side, cap.value, weighted) > Value(s.targetRs.0, risk))
    && Rises(side, weighted, p1, p2, p3)
    && Carries(side, quantity, entry, stop, r, s.targetPcts, i)
  }

  lemma {:induction false} PlaceableIsPlaced(side: Side, primary: Order, distance: real, t: Target, i: Instrument)
    requires i.qtyStep > 0.0 && i.tick > 0.0
    ensures
      var found := Placeable(side, primary, distance, t, i);
      var placed := Placed(i, Share(primary.quantity, t.closePct),
                           Ahead(side, primary.reference, Value(distance, t.rMultiple)));
      && (found.Some? <==> placed > 0.0)
      && placed == if found.Some? then found.value else 0.0
  {
  }

  lemma {:induction false} ThreePlaced(side: Side, primary: Order, distance: real, ts: seq<Target>, i: Instrument)
    requires i.qtyStep > 0.0 && i.tick > 0.0 && |ts| == 3
    ensures
      TotalPlaceable(side, primary, distance, ts, i)
        == Place(Place(Place(Capacity(0, 0.0), Placeable(side, primary, distance, ts[0], i)),
                       Placeable(side, primary, distance, ts[1], i)),
                 Placeable(side, primary, distance, ts[2], i))
  {
    var one, two := ts[..1], ts[..2];
    assert Init(ts) == two && Last(ts) == ts[2];
    assert Init(two) == one && Last(two) == ts[1];
    assert Init(one) == [] && Last(one) == ts[0];
    assert TotalPlaceable(side, primary, distance, one, i)
        == Place(Capacity(0, 0.0), Placeable(side, primary, distance, ts[0], i));
  }

  /** The capacity rule, for three targets with their multiples and percentages. */
  lemma {:induction false} CapacityDecides(
    side: Side, primary: Order, stop: real, ts: seq<Target>, r: (real, real, real), pcts: (real, real, real),
    i: Instrument)
    requires i.qtyStep > 0.0 && i.tick > 0.0 && |ts| == 3 && TotalPct(ts) < 100.0
    requires ts[0].rMultiple == r.0 && ts[1].rMultiple == r.1 && ts[2].rMultiple == r.2
    requires ts[0].closePct == pcts.0 && ts[1].closePct == pcts.1 && ts[2].closePct == pcts.2
    ensures ExitFault(side, primary, stop, ts, i).None?
            <==> Carries(side, primary.quantity, primary.reference, stop, r, pcts, i)
  {
    var distance := Abs(primary.reference - stop);
    ThreePlaced(side, primary, distance, ts, i);
    PlaceableIsPlaced(side, primary, distance, ts[0], i);
    PlaceableIsPlaced(side, primary, distance, ts[1], i);
    PlaceableIsPlaced(side, primary, distance, ts[2], i);
  }

  function RoundedCap(target: Option<real>, tick: real): Option<real>
    requires tick > 0.0
  {
    if target.Some? then Some(RoundPrice(target.value, tick)) else None
  }

  ghost predicate RuleAt(rule: Rule, r: real, pct: real) {
    rule.r == r && rule.pct == pct
  }

  /** The rules are chosen unless a trader target is too close, with the declared multiples and percentages. */
  lemma {:induction false} RulesDecide(q: ExitLadder.Request, stop: real)
    requires q.distance == Abs(q.weighted - stop) > 0.0 && q.tick > 0.0 && ValidStrategy(q.strategy)
    ensures
      var r := Multiples(q.side, q.strategy, q.weighted, stop, q.traderTarget);
      var pcts, first := q.strategy.targetPcts, Value(q.strategy.targetRs.0, q.distance);
      && (ChosenRules(q).Ok?
          <==> (q.traderTarget.Some? ==> Gain(q.side, q.traderTarget.value, q.weighted) > first))
      && (ChosenRules(q).Ok? ==>
            var rules := ChosenRules(q).value.rules;
            && |rules| == 3
            && RuleAt(rules[0], r.0, pcts.0) && RuleAt(rules[1], r.1, pcts.1) && RuleAt(rules[2], r.2, pcts.2))
  {
    if q.traderTarget.Some? {
      DivAtMost(Gain(q.side, q.traderTarget.value, q.weighted), q.distance, q.strategy.targetRs.0);
    }
  }

  lemma {:induction false} PricesDecide(q: ExitLadder.Request, rules: seq<Rule>)
    requires q.tick > 0.0 && |rules| == 3
    ensures
      Derived(q, rules).Ok? && TargetsBeyond(q.side, q.weighted, Derived(q, rules).value)
      <==> Rises(q.side, q.weighted, PriceAt(q, rules[0].r), PriceAt(q, rules[1].r), PriceAt(q, rules[2].r))
  {
    AcceptedWhenStrict(q, rules);
    if Derived(q, rules).Ok? {
      var ts := TargetsOf(q, rules);
      assert ts[0] in ts && ts[0].price == PriceAt(q, rules[0].r);
      forall t | t in ts
        ensures t.price == PriceAt(q, rules[0].r) || t.price == PriceAt(q, rules[1].r)
             || t.price == PriceAt(q, rules[2].r)
      {
        var k :| 0 <= k < 3 && ts[k] == t;
        assert k == 0 || k == 1 || k == 2;
      }
    }
  }

  /** The exits of a ladder are accepted exactly when they can be placed. */
  lemma {:induction false} ExitsDecide(
    side: Side, s: Strategy, orders: seq<Order>, stop: real, i: Instrument, target: Option<real>)
    requires i.tick > 0.0 && i.qtyStep > 0.0 && |orders| == 3 && TotalQuantity(orders) > 0.0 && ValidStrategy(s)
    requires WeightedEntry(orders) != stop
    ensures LadderExits(side, s, orders, stop, i, target).Ok?
            <==> Exitable(side, s, orders[0].quantity, orders[0].reference, WeightedEntry(orders), stop,
                          RoundedCap(target, i.tick), i)
  {
    var q := ExitRequest(side, s, WeightedEntry(orders), stop, i.tick, target);
    var r := Multiples(side, s, q.weighted, stop, q.traderTarget);
    RulesDecide(q, stop);
    ThreeRules(q);
    if ChosenRules(q).Ok? {
      var rules := ChosenRules(q).value.rules;
      PricesDecide(q, rules);
      DerivedPcts(q, rules);
      CapacityDecides(side, orders[0], stop, TargetsOf(q, rules), r, s.targetPcts, i);
    }
  }

  // ----- the plan

  /** The leverage an intent asks for, ten when it names none. */
  function LeverageAsked(intent: Intent): real {
    if intent.leverage.Some? then intent.leverage.value else 10.0
  }

  /** A stop, three orders and their average entry that make an acceptable plan. */
  ghost predicate Acceptable(
    intent: Intent, policy: Policy, i: Instrument, stop: real, orders: seq<Order>, weighted: real)
    requires i.tick > 0.0 && i.qtyStep > 0.0 && policy.capital.Some?
  {
    var s, l := policy.strategy, EntriesAsked(intent, policy.strategy, i, stop);
    && StopIs(intent, s, i, stop) && stop > 0.0
    && Descends(intent.side, l, stop) && EntryIsAhead(intent, l.first, i.marketPrice)
    && Ladders(orders, l, Share(policy.capital.value, policy.riskPct), s, stop, i)
    && AverageOf(weighted, orders) && weighted != stop
    && Exitable(intent.side, s, orders[0].quantity, orders[0].reference, weighted, stop,
                RoundedCap(intent.takeProfit, i.tick), i)
  }

  lemma {:induction false} OneAverage(orders: seq<Order>, others: seq<Order>, weighted: real)
    requires SameQuantities(orders, others) && TotalQuantity(others) > 0.0 && AverageOf(weighted, orders)
    ensures weighted == WeightedEntry(others)
  {
    WeightedIsAverage(others);
    SameFactor(weighted, WeightedEntry(others), TotalQuantity(others));
  }

  lemma {:induction false} SameFactor(x: real, y: real, q: real)
    requires q != 0.0 && x * q == y * q
    ensures x == y
  {
    assert (x - y) * q == 0.0;
  }

  lemma {:induction false} AcceptedIsAcceptable(intent: Intent, policy: Policy, i: Instrument)
    returns (stop: real, orders: seq<Order>, weighted: real)
    requires ValidPolicy(policy) && ValidInstrument(i) && MakePlan(intent, policy, i).Ok?
    ensures i.tick > 0.0 && i.qtyStep > 0.0 && policy.capital.Some?
    ensures Acceptable(intent, policy, i, stop, orders, weighted)
    ensures MakePlan(intent, policy, i).value.stop == stop && MakePlan(intent, policy, i).value.orders == orders
    ensures i.leverage.Some? ==> LeverageAsked(intent) >= i.leverage.value.minimum
  {
    var p, l, ladder, exits, leverage := PlanParts(intent, policy, i);
    stop, orders, weighted := p.stop, ladder.orders, WeightedEntry(ladder.orders);
    RoundedStopIs(intent, policy.strategy, i);
    LevelsDecide(intent, policy.strategy, i, stop);
    LadderDecides(intent, policy, i, l, stop, orders);
    WeightedIsAverage(orders);
    ExitsDecide(intent.side, policy.strategy, orders, stop, i, intent.takeProfit);
  }

  lemma {:induction false} AcceptableParts(
    intent: Intent, policy: Policy, i: Instrument, stop: real, orders: seq<Order>, weighted: real)
    requires ValidPolicy(policy) && i.tick > 0.0 && i.qtyStep > 0.0 && policy.capital.Some?
    requires Acceptable(intent, policy, i, stop, orders, weighted)
    ensures ResolveStop(intent, policy.strategy, i).Ok? && ResolveStop(intent, policy.strategy, i).value.stop == stop
    ensures PlanLevels(intent, policy.strategy, i, stop).Ok?
    ensures
      var l := PlanLevels(intent, policy.strategy, i, stop).value;
      var ladder := PlanLadder(intent, policy, i, l, stop);
      && ladder.Ok?
      && LadderExits(intent.side, policy.strategy, ladder.value.orders, stop, i, intent.takeProfit).Ok?
  {
    RoundedStopIs(intent, policy.strategy, i);
    OneStop(intent, policy.strategy, i, stop, RoundedStop(intent, policy.strategy, i).stop);
    LevelsDecide(intent, policy.strategy, i, stop);
    var l := EntriesAsked(intent, policy.strategy, i, stop);
    LadderDecides(intent, policy, i, l, stop, orders);
    var others := PlanLadder(intent, policy, i, l, stop).value.orders;
    OneAverage(orders, others, weighted);
    ExitsDecide(intent.side, policy.strategy, others, stop, i, intent.takeProfit);
  }

  /**
   A plan is accepted if and only if the instrument has a tick and a step, the policy has capital, the leverage asked
   for is available, and there are a stop, three orders that spend the budget and exits that can all be placed.
   */
  lemma {:induction false} PlanAcceptedExactlyWhen(intent: Intent, policy: Policy, i: Instrument)
    requires ValidPolicy(policy) && ValidInstrument(i) && WellFormedIntent(intent)
    ensures MakePlan(intent, policy, i).Ok?
            <==> && i.tick > 0.0 && i.qtyStep > 0.0 && policy.capital.Some?
                 && (i.leverage.Some? ==> LeverageAsked(intent) >= i.leverage.value.minimum)
                 && exists stop, orders, weighted :: Acceptable(intent, policy, i, stop, orders, weighted)
  {
    if MakePlan(intent, policy, i).Ok? {
      var stop, orders, weighted := AcceptedIsAcceptable(intent, policy, i);
    }
    if i.tick > 0.0 && i.qtyStep > 0.0 && policy.capital.Some?
       && (i.leverage.Some? ==> LeverageAsked(intent) >= i.leverage.value.minimum)
    {
      if stop, orders, weighted :| Acceptable(intent, policy, i, stop, orders, weighted) {
        AcceptableParts(intent, policy, i, stop, orders, weighted);
        PlanIsInLine(intent, policy, i);
        AcceptableIsPlanned(intent, policy, i, stop);
      }
    }
  }

  /** With every part accepted, nothing else refuses the plan. */
  lemma {:induction false} AcceptableIsPlanned(intent: Intent, policy: Policy, i: Instrument, stop: real)
    requires ValidPolicy(policy) && ValidInstrument(i) && WellFormedIntent(intent) && i.tick > 0.0
    requires ResolveStop(intent, policy.strategy, i).Ok? && ResolveStop(intent, policy.strategy, i).value.stop == stop
    requires PlanLevels(intent, policy.strategy, i, stop).Ok?
    requires
      var ladder := PlanLadder(intent, policy, i, PlanLevels(intent, policy.strategy, i, stop).value, stop);
      && ladder.Ok?
      && LadderExits(intent.side, policy.strategy, ladder.value.orders, stop, i, intent.takeProfit).Ok?
    requires i.leverage.Some? ==> LeverageAsked(intent) >= i.leverage.value.minimum
    ensures MakePlan(intent, policy, i).Ok?
  {
    PlanGuardsAreUnreachable(intent, policy, i);
    PlanIsInLine(intent, policy, i);
  }

  /** A plan takes the leverage asked for, or the highest step of the instrument below it. */
  lemma {:induction false} PlanTakesLeverage(intent: Intent, policy: Policy, i: Instrument)
    requires ValidPolicy(policy) && ValidInstrument(i) && MakePlan(intent, policy, i).Ok?
    ensures
      var p, asked := MakePlan(intent, policy, i).value, LeverageAsked(intent);
      && (i.leverage.None? ==> p.leverage == asked)
      && (i.leverage.Some? ==>
            var f := i.leverage.value;
            && OnGrid(f, p.leverage) && p.leverage <= asked && p.leverage <= f.maximum
            && forall n: int :: 0 <= n && f.minimum + Ticks(n, f.step) <= Min(asked, f.maximum) ==>
                 f.minimum + Ticks(n, f.step) <= p.leverage)
  {
    var p, l, ladder, exits, leverage := PlanParts(intent, policy, i);
    if i.leverage.Some? {
      SelectedLeverageIsLargest(i.leverage.value, LeverageAsked(intent));
    }
  }

  // ----- the rebase

  /** A fill of the MARKET primary leg of a ladder, on the profitable side of the stop. */
  predicate Fillable(plan: Plan, fillPrice: real, filled: real) {
    && |plan.orders| == 3 && plan.orders[0].orderType.MarketOrder?
    && plan.orders[1].orderType.LimitOrder? && plan.orders[2].orderType.LimitOrder?
    && fillPrice > 0.0 && filled > 0.0
    && if plan.side.Long? then fillPrice > plan.stop else fillPrice < plan.stop
  }

  predicate ScaleInsTaken(orders: seq<Order>, l: Levels, i: Instrument)
    requires |orders| == 3
  {
    && orders[1].reference == l.second > 0.0 && orders[2].reference == l.third > 0.0
    && Takes(i, orders[1].quantity, l.second) && Takes(i, orders[2].quantity, l.third)
  }

  /** The fill leaves budget, and the orders hold it and two scale-ins that spend what it leaves. */
  ghost predicate SpendsRest(plan: Plan, fillPrice: real, filled: real, i: Instrument, orders: seq<Order>)
    requires ValidPolicy(plan.policy) && i.tick > 0.0 && plan.policy.capital.Some?
  {
    var s, stop, l := plan.policy.strategy, plan.stop, DepthsFrom(fillPrice, plan.policy.strategy, plan.stop, i.tick);
    && Descends(plan.side, l, stop)
    && Value(filled, Abs(fillPrice - stop)) < Share(plan.policy.capital.value, plan.policy.riskPct)
    && SpendsLeft(orders, filled, fillPrice, ScaleInsMaySpend(plan.policy, filled, fillPrice, stop), s, stop, i.qtyStep)
    && ScaleInsTaken(orders, l, i)
  }

  /** Such orders, with the exits beyond their average entry, that make an acceptable rebase. */
  ghost predicate Rebasable(
    plan: Plan, fillPrice: real, filled: real, i: Instrument, orders: seq<Order>, weighted: real)
    requires ValidPolicy(plan.policy) && i.tick > 0.0 && i.qtyStep > 0.0 && plan.policy.capital.Some?
  {
    && SpendsRest(plan, fillPrice, filled, i, orders)
    && AverageOf(weighted, orders) && weighted != plan.stop
    && Exitable(plan.side, plan.policy.strategy, filled, fillPrice, weighted, plan.stop,
                RoundedCap(TargetToKeep(plan), i.tick), i)
  }

  lemma {:induction false} ScaleInsAreSized(
    plan: Plan, fillPrice: real, filled: real, l: Levels, budget: real, scale: real, part1: real, part2: real,
    i: Instrument, orders: seq<Order>)
    requires |plan.orders| == 3 && |orders| == 3 && filled > 0.0 && part1 >= 0.0 && part2 >= 0.0 && i.qtyStep > 0.0
    requires Value(Share(budget, plan.policy.strategy.risks.1), scale) == part1
    requires Value(Share(budget, plan.policy.strategy.risks.2), scale) == part2
    requires l.second != plan.stop && l.third != plan.stop && ScaleInsTaken(orders, l, i)
    requires orders[0].quantity == filled && orders[0].reference == fillPrice
    requires Spends(orders[1], part1, plan.stop, i.qtyStep) && Spends(orders[2], part2, plan.stop, i.qtyStep)
    ensures RebasedLegs(plan, fillPrice, filled, l, budget, scale, i).Ok?
    ensures SameQuantities(orders, RebasedLegs(plan, fillPrice, filled, l, budget, scale, i).value)
  {
    var s := plan.policy.strategy;
    LegDecides(Leg("E2", LimitOrder, l.second, s.risks.1), orders[1], part1, plan.stop, i);
    LegDecides(Leg("E3", LimitOrder, l.third, s.risks.2), orders[2], part2, plan.stop, i);
  }

  lemma {:induction false} ScaleInsWereTaken(
    plan: Plan, fillPrice: real, filled: real, l: Levels, budget: real, scale: real, part1: real, part2: real,
    i: Instrument)
    requires |plan.orders| == 3 && filled > 0.0 && part1 >= 0.0 && part2 >= 0.0
    requires Value(Share(budget, plan.policy.strategy.risks.1), scale) == part1
    requires Value(Share(budget, plan.policy.strategy.risks.2), scale) == part2
    requires RebasedLegs(plan, fillPrice, filled, l, budget, scale, i).Ok?
    ensures ScaleInsTaken(RebasedLegs(plan, fillPrice, filled, l, budget, scale, i).value, l, i)
  {
    var s := plan.policy.strategy;
    SizedIsTaken(Leg("E2", LimitOrder, l.second, s.risks.1), part1, plan.stop, i);
    SizedIsTaken(Leg("E3", LimitOrder, l.third, s.risks.2), part2, plan.stop, i);
  }

  /** An accepted rebase is its own witness. */
  lemma {:induction false} RebasedIsRebasable(plan: Plan, fillPrice: real, filled: real, i: Instrument)
    returns (orders: seq<Order>, weighted: real)
    requires ValidPolicy(plan.policy) && Rebase(plan, fillPrice, filled, i).Ok?
    ensures Fillable(plan, fillPrice, filled) && i.tick > 0.0 && i.qtyStep > 0.0 && plan.policy.capital.Some?
    ensures Rebasable(plan, fillPrice, filled, i, orders, weighted)
    ensures Rebase(plan, fillPrice, filled, i).value.orders == orders
  {
    var ladder, exits := RebaseParts(plan, fillPrice, filled, i);
    orders, weighted := ladder.orders, WeightedEntry(ladder.orders);
    RebaseSpendsWhatIsLeft(plan, fillPrice, filled, i);
    RebasedLadderTakes(plan, fillPrice, filled, i);
    WeightedIsAverage(orders);
    ExitsDecide(plan.side, plan.policy.strategy, orders, plan.stop, i, TargetToKeep(plan));
  }

  lemma {:induction false} RebasedLadderTakes(plan: Plan, fillPrice: real, filled: real, i: Instrument)
    requires ValidPolicy(plan.policy) && |plan.orders| == 3 && filled > 0.0 && i.tick > 0.0
    requires Gain(plan.side, fillPrice, plan.stop) > 0.0 && RebasedLadder(plan, fillPrice, filled, i).Ok?
    ensures plan.policy.capital.Some?
    ensures
      var l := DepthsFrom(fillPrice, plan.policy.strategy, plan.stop, i.tick);
      && Descends(plan.side, l, plan.stop)
      && Value(filled, Abs(fillPrice - plan.stop)) < Share(plan.policy.capital.value, plan.policy.riskPct)
      && ScaleInsTaken(RebasedLadder(plan, fillPrice, filled, i).value.orders, l, i)
  {
    var s, budget := plan.policy.strategy, RiskBudget(plan.policy).value;
    var risk := Value(filled, Abs(fillPrice - plan.stop));
    var l, scale := RebasedLadderLegs(plan, fillPrice, filled, i, budget);
    DepthsAreLevels(plan.side, s, fillPrice, plan.stop, i.tick);
    ScaleIsFraction(budget, s, risk);
    var left := Min(ScaleInBudget(budget, s), budget - risk);
    RebasedParts(budget, s, risk, left);
    ScaleInsWereTaken(plan, fillPrice, filled, l, budget, scale, PartOf(left, s.risks.1, s.risks.1 + s.risks.2),
                      PartOf(left, s.risks.2, s.risks.1 + s.risks.2), i);
  }

  /** Rebased legs always make a ladder within the budget. */
  lemma {:induction false} LegsMakeRebase(
    plan: Plan, fillPrice: real, filled: real, i: Instrument, budget: real, scale: real)
    requires ValidPolicy(plan.policy) && |plan.orders| == 3 && filled > 0.0 && i.tick > 0.0
    requires RiskBudget(plan.policy) == Ok(budget) && ScaleInBudget(budget, plan.policy.strategy) != 0.0
    requires Gain(plan.side, fillPrice, plan.stop) > 0.0
    requires Descends(plan.side, DepthsFrom(fillPrice, plan.policy.strategy, plan.stop, i.tick), plan.stop)
    requires RemainingScale(budget, plan.policy.strategy, Value(filled, Abs(fillPrice - plan.stop))) == Ok(scale)
    ensures
      var legs := RebasedLegs(plan, fillPrice, filled, DepthsFrom(fillPrice, plan.policy.strategy, plan.stop, i.tick),
                              budget, scale, i);
      legs.Ok? ==> RebasedLadder(plan, fillPrice, filled, i).Ok?
                   && RebasedLadder(plan, fillPrice, filled, i).value.orders == legs.value
  {
    DepthsAreLevels(plan.side, plan.policy.strategy, fillPrice, plan.stop, i.tick);
    RebasedLadderIsAffordable(plan, fillPrice, filled, i);
  }

  lemma {:induction false} RefilledLegs(
    plan: Plan, fillPrice: real, filled: real, i: Instrument, orders: seq<Order>, budget: real, scale: real, left: real)
    requires ValidStrategy(plan.policy.strategy) && i.tick > 0.0 && i.qtyStep > 0.0 && |plan.orders| == 3
    requires filled > 0.0 && budget > 0.0 && ScaleInBudget(budget, plan.policy.strategy) > 0.0
    requires RemainingScale(budget, plan.policy.strategy, Value(filled, Abs(fillPrice - plan.stop))) == Ok(scale)
    requires left
          == Min(ScaleInBudget(budget, plan.policy.strategy), budget - Value(filled, Abs(fillPrice - plan.stop)))
    requires SpendsLeft(orders, filled, fillPrice, left, plan.policy.strategy, plan.stop, i.qtyStep)
    requires Descends(plan.side, DepthsFrom(fillPrice, plan.policy.strategy, plan.stop, i.tick), plan.stop)
    requires ScaleInsTaken(orders, DepthsFrom(fillPrice, plan.policy.strategy, plan.stop, i.tick), i)
    ensures
      var legs := RebasedLegs(plan, fillPrice, filled, DepthsFrom(fillPrice, plan.policy.strategy, plan.stop, i.tick),
                              budget, scale, i);
      legs.Ok? && SameQuantities(orders, legs.value)
  {
    var s := plan.policy.strategy;
    var both := s.risks.1 + s.risks.2;
    RebasedParts(budget, s, Value(filled, Abs(fillPrice - plan.stop)), left);
    ScaleInsAreSized(plan, fillPrice, filled, DepthsFrom(fillPrice, s, plan.stop, i.tick), budget, scale,
                     PartOf(left, s.risks.1, both), PartOf(left, s.risks.2, both), i, orders);
  }

  /** Such orders are what a rebase builds. */
  lemma {:induction false} RefilledLadder(
    plan: Plan, fillPrice: real, filled: real, i: Instrument, orders: seq<Order>)
    requires ValidPolicy(plan.policy) && i.tick > 0.0 && i.qtyStep > 0.0 && plan.policy.capital.Some?
    requires Fillable(plan, fillPrice, filled) && SpendsRest(plan, fillPrice, filled, i, orders)
    ensures RebasedLadder(plan, fillPrice, filled, i).Ok?
    ensures SameQuantities(orders, RebasedLadder(plan, fillPrice, filled, i).value.orders)
  {
    var s, budget := plan.policy.strategy, Share(plan.policy.capital.value, plan.policy.riskPct);
    var risk := Value(filled, Abs(fillPrice - plan.stop));
    BudgetIsPositive(plan.policy);
    ScaleIsFraction(budget, s, risk);
    var scale := RemainingScale(budget, s, risk).value;
    LeftWrittenOut(plan, filled, fillPrice, budget);
    RefilledLegs(plan, fillPrice, filled, i, orders, budget, scale, Min(ScaleInBudget(budget, s), budget - risk));
    LegsMakeRebase(plan, fillPrice, filled, i, budget, scale);
  }

  lemma {:induction false} RebasableExits(
    plan: Plan, fillPrice: real, filled: real, i: Instrument, orders: seq<Order>, weighted: real)
    requires ValidPolicy(plan.policy) && i.tick > 0.0 && i.qtyStep > 0.0 && plan.policy.capital.Some?
    requires Fillable(plan, fillPrice, filled) && Rebasable(plan, fillPrice, filled, i, orders, weighted)
    ensures RebasedLadder(plan, fillPrice, filled, i).Ok?
    ensures
      var others := RebasedLadder(plan, fillPrice, filled, i).value.orders;
      LadderExits(plan.side, plan.policy.strategy, others, plan.stop, i, RebasedTarget(plan)).Ok?
  {
    RefilledLadder(plan, fillPrice, filled, i, orders);
    var others := RebasedLadder(plan, fillPrice, filled, i).value.orders;
    OneAverage(orders, others, weighted);
    ExitsDecide(plan.side, plan.policy.strategy, others, plan.stop, i, TargetToKeep(plan));
  }

  /**
   A rebase is accepted if and only if the fill is one of a MARKET ladder beyond its stop, the instrument has a tick and
   a step, the policy has capital, and there are scale-ins that spend what the fill leaves and exits that can be placed.
   */
  lemma {:induction false} RebaseAcceptedExactlyWhen(plan: Plan, fillPrice: real, filled: real, i: Instrument)
    requires ValidPolicy(plan.policy) && ValidPlan(plan) && InLine(plan) && plan.slices == []
    ensures Rebase(plan, fillPrice, filled, i).Ok?
            <==> && Fillable(plan, fillPrice, filled) && i.tick > 0.0 && i.qtyStep > 0.0 && plan.policy.capital.Some?
                 && exists orders, weighted :: Rebasable(plan, fillPrice, filled, i, orders, weighted)
  {
    if Rebase(plan, fillPrice, filled, i).Ok? {
      var orders, weighted := RebasedIsRebasable(plan, fillPrice, filled, i);
    }
    if Fillable(plan, fillPrice, filled) && i.tick > 0.0 && i.qtyStep > 0.0 && plan.policy.capital.Some? {
      if orders, weighted :| Rebasable(plan, fillPrice, filled, i, orders, weighted) {
        RebasableExits(plan, fillPrice, filled, i, orders, weighted);
        RebaseStaysInLine(plan, fillPrice, filled, i);
        RebaseGuardsAreUnreachable(plan, fillPrice, filled, i);
      }
    }
  }

  /** A rebase takes up a fill if and only if the plan is of the second version or later and can be filled so. */
  lemma {:induction false} FitForRebase(plan: Plan, fillPrice: real, filled: real)
    ensures RebaseInputFault(plan, fillPrice, filled).None? <==> plan.version >= 2 && Fillable(plan, fillPrice, filled)
    ensures plan.version < 2 ==> RebaseInputFault(plan, fillPrice, filled) == Some(NotVersion2)
  {
  }

  // ----- the refresh

  /** The most steps of the planned primary leg that spend no more than its percentage of the budget at the quote. */
  ghost predicate Keeps(plan: Plan, i: Instrument, quantity: real)
    requires |plan.orders| > 0 && plan.policy.capital.Some?
  {
    var share := Share(Share(plan.policy.capital.value, plan.policy.riskPct), plan.policy.strategy.risks.0);
    var planned, distance := plan.orders[0].quantity, Abs(i.marketPrice - plan.stop);
    && OnGridOf(quantity, i.qtyStep) && quantity <= planned && Value(quantity, distance) <= share
    && (quantity + i.qtyStep > planned || Value(quantity + i.qtyStep, distance) > share)
  }

  lemma {:induction false} RefreshedIsKept(plan: Plan, budget: real, i: Instrument)
    requires ValidPolicy(plan.policy) && |plan.orders| > 0 && plan.orders[0].quantity > 0.0 && i.qtyStep > 0.0
    requires RiskBudget(plan.policy) == Ok(budget) && i.marketPrice != plan.stop
    ensures plan.policy.capital.Some? && Keeps(plan, i, RefreshedQuantity(plan, budget, i.marketPrice, i.qtyStep))
  {
    var s, price := plan.policy.strategy, i.marketPrice;
    BudgetIsPositive(plan.policy);
    SharesOfBudget(budget, s);
    LargestWithin(plan.orders[0].quantity, Share(budget, s.risks.0), Abs(price - plan.stop), i.qtyStep);
  }

  lemma {:induction false} WithinAStep(
    planned: real, share: real, distance: real, step: real, quantity: real, other: real)
    requires distance > 0.0 && quantity <= planned && Value(quantity, distance) <= share
    requires other + step > planned || Value(other + step, distance) > share
    ensures quantity < other + step
  {
    if quantity >= other + step { MulMono(other + step, quantity, distance); }
  }

  lemma {:induction false} OneKept(plan: Plan, i: Instrument, quantity: real, other: real)
    requires |plan.orders| > 0 && plan.policy.capital.Some? && i.qtyStep > 0.0 && i.marketPrice != plan.stop
    requires Keeps(plan, i, quantity) && Keeps(plan, i, other)
    ensures quantity == other
  {
    var share := Share(Share(plan.policy.capital.value, plan.policy.riskPct), plan.policy.strategy.risks.0);
    var planned, distance := plan.orders[0].quantity, Abs(i.marketPrice - plan.stop);
    WithinAStep(planned, share, distance, i.qtyStep, quantity, other);
    WithinAStep(planned, share, distance, i.qtyStep, other, quantity);
    var n: int :| quantity == Ticks(n, i.qtyStep);
    var m: int :| other == Ticks(m, i.qtyStep);
    OneTick(n, m, i.qtyStep);
  }

  /** A MARKET plan of the second version, and a quote on the profitable side of its stop. */
  predicate Quotable(plan: Plan, i: Instrument)
    requires |plan.orders| > 0
  {
    && plan.version == 2 && plan.orders[0].orderType.MarketOrder? && i.marketPrice > 0.0
    && (if plan.side.Long? then i.marketPrice > plan.stop else i.marketPrice < plan.stop)
    && plan.policy.capital.Some? && i.qtyStep > 0.0
  }

  lemma {:induction false} RefreshDecides(plan: Plan, i: Instrument, budget: real, quantity: real)
    requires ValidPolicy(plan.policy) && |plan.orders| > 0 && Quotable(plan, i)
    requires RiskBudget(plan.policy) == Ok(budget)
    requires quantity == RefreshedQuantity(plan, budget, i.marketPrice, i.qtyStep)
    ensures Takes(i, quantity, i.marketPrice) ==> Refresh(plan, i) == Rebase(plan, i.marketPrice, quantity, i)
    ensures !Takes(i, quantity, i.marketPrice) ==> Refresh(plan, i).Err?
  {
  }

  /**
   A refresh is the rebase on the most steps of the primary leg that the plan and its percentage of the budget allow at
   the quote, and is refused where that is not a quantity the instrument takes.
   */
  lemma {:induction false} RefreshIsLargestRebase(plan: Plan, i: Instrument, quantity: real)
    requires ValidPolicy(plan.policy) && |plan.orders| > 0 && plan.orders[0].quantity > 0.0
    ensures !Quotable(plan, i) ==> Refresh(plan, i).Err?
    ensures Quotable(plan, i) && Keeps(plan, i, quantity) ==>
              if Takes(i, quantity, i.marketPrice) then Refresh(plan, i) == Rebase(plan, i.marketPrice, quantity, i)
              else Refresh(plan, i).Err?
  {
    if Quotable(plan, i) && Keeps(plan, i, quantity) {
      var budget := RiskBudget(plan.policy).value;
      var found := RefreshedQuantity(plan, budget, i.marketPrice, i.qtyStep);
      RefreshedIsKept(plan, budget, i);
      OneKept(plan, i, quantity, found);
      RefreshDecides(plan, i, budget, quantity);
    }
  }
}
