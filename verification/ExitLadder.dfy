/** Deriving the three fixed exits and checking that the primary leg can carry them. */
module ExitLadder {
  import opened Wrappers
  import opened Sequences
  import opened Trading
  import opened Rounding
  import opened PlanDomain

  /** What the exits are derived from. */
  datatype Request = Request(
    side: Side,
    strategy: Strategy,
    weighted: real,
    distance: real,
    tick: real,
    traderTarget: Option<real>)

  datatype Rule = Rule(name: string, r: real, pct: real)

  datatype Rules = Rules(rules: seq<Rule>, origin: Origin)

  datatype Exits = Exits(targets: seq<Target>, origin: Origin)

  function RulesOf(s: Strategy, r2: real, r3: real): seq<Rule> {
    [Rule("TP1", s.targetRs.0, s.targetPcts.0), Rule("TP2", r2, s.targetPcts.1), Rule("TP3", r3, s.targetPcts.2)]
  }

  function PolicyRules(s: Strategy): seq<Rule> {
    RulesOf(s, s.targetRs.1, s.targetRs.2)
  }

  /** The trader's target in multiples of the risk distance. */
  function TraderR(q: Request, target: real): real
    requires q.distance > 0.0
  {
    Gain(q.side, target, q.weighted) / q.distance
  }

  /** The policy's multiples, or those squeezed under a trader target closer than the last one. */
  function CappedRules(q: Request, target: real): Result<Rules, PlanError>
    requires q.distance > 0.0
  {
    var r := TraderR(q, target);
    if r <= q.strategy.targetRs.0 then Err(TraderTargetTooClose)
    else if r >= q.strategy.targetRs.2 then Ok(Rules(PolicyRules(q.strategy), PolicyRule))
    else Ok(Rules(RulesOf(q.strategy, (q.strategy.targetRs.0 + r) / 2.0, r), Trader))
  }

  function ChosenRules(q: Request): Result<Rules, PlanError>
    requires q.distance > 0.0
  {
    if q.traderTarget.None? then Ok(Rules(PolicyRules(q.strategy), PolicyRule))
    else CappedRules(q, q.traderTarget.value)
  }

  /** The price of a rule: its multiple of the risk beyond the weighted entry, to the nearest tick. */
  function PriceAt(q: Request, r: real): real
    requires q.tick > 0.0
  {
    RoundPrice(Ahead(q.side, q.weighted, Value(q.distance, r)), q.tick)
  }

  function TargetOf(q: Request, rule: Rule): Target
    requires q.tick > 0.0
  {
    Target(rule.name, PriceAt(q, rule.r), rule.pct, rule.r)
  }

  function TargetsOf(q: Request, rules: seq<Rule>): (ts: seq<Target>)
    requires q.tick > 0.0
    ensures |ts| == |rules|
    ensures forall i :: 0 <= i < |ts| ==> ts[i] == TargetOf(q, rules[i])
  {
    seq(|rules|, i requires 0 <= i < |rules| => TargetOf(q, rules[i]))
  }

  /** What is wrong with a target price after the previous one, if anything. */
  function PriceFault(q: Request, price: real, previous: Option<real>): Option<PlanError> {
    if price <= 0.0 then Some(TargetNotPositive)
    else if previous.Some? && Gain(q.side, price, previous.value) <= 0.0 then Some(TargetsCollapse)
    else None
  }

  function PreviousPrice(q: Request, rules: seq<Rule>, i: nat): Option<real>
    requires q.tick > 0.0 && i <= |rules|
  {
    if i == 0 then None else Some(PriceAt(q, rules[i - 1].r))
  }

  function FaultAt(q: Request, rules: seq<Rule>, i: nat): Option<PlanError>
    requires q.tick > 0.0 && i < |rules|
  {
    PriceFault(q, PriceAt(q, rules[i].r), PreviousPrice(q, rules, i))
  }

  /** The first fault among the rules from `i` on. */
  function FirstFault(q: Request, rules: seq<Rule>, i: nat): Option<PlanError>
    requires q.tick > 0.0 && i <= |rules|
    decreases |rules| - i
  {
    if i == |rules| then None
    else if FaultAt(q, rules, i).Some? then FaultAt(q, rules, i)
    else FirstFault(q, rules, i + 1)
  }

  function Derived(q: Request, rules: seq<Rule>): Result<seq<Target>, PlanError>
    requires q.tick > 0.0
  {
    var fault := FirstFault(q, rules, 0);
    if fault.Some? then Err(fault.value) else Ok(TargetsOf(q, rules))
  }

  /** The loop over the rules, remembering the previous price. */
  method DeriveTakeProfits(q: Request, rules: seq<Rule>) returns (r: Result<seq<Target>, PlanError>)
    requires q.tick > 0.0
    ensures r == Derived(q, rules)
  {
    var targets: seq<Target> := [];
    var previous: Option<real> := None;
    for i := 0 to |rules|
      invariant |targets| == i && forall j :: 0 <= j < i ==> targets[j] == TargetOf(q, rules[j])
      invariant previous == PreviousPrice(q, rules, i)
      invariant FirstFault(q, rules, 0) == FirstFault(q, rules, i)
    {
      var price := PriceAt(q, rules[i].r);
      assert FaultAt(q, rules, i) == PriceFault(q, price, previous);
      if price <= 0.0 {
        return Err(TargetNotPositive);
      }
      if previous.Some? && Gain(q.side, price, previous.value) <= 0.0 {
        return Err(TargetsCollapse);
      }
      targets := targets + [Target(rules[i].name, price, rules[i].pct, rules[i].r)];
      previous := Some(price);
    }
    assert targets == TargetsOf(q, rules);
    r := Ok(targets);
  }

  /** Each price is positive and strictly beyond the one before. */
  ghost predicate Strict(q: Request, rules: seq<Rule>, i: nat)
    requires q.tick > 0.0
  {
    forall j :: i <= j < |rules| ==>
      PriceAt(q, rules[j].r) > 0.0 && (j > 0 ==> Gain(q.side, PriceAt(q, rules[j].r), PriceAt(q, rules[j - 1].r)) > 0.0)
  }

  lemma {:induction false} FaultlessFrom(q: Request, rules: seq<Rule>, i: nat)
    requires q.tick > 0.0 && i <= |rules|
    ensures FirstFault(q, rules, i).None? <==> Strict(q, rules, i)
    decreases |rules| - i
  {
    if i < |rules| {
      FaultlessFrom(q, rules, i + 1);
      assert FaultAt(q, rules, i).None? <==>
        && PriceAt(q, rules[i].r) > 0.0
        && (i > 0 ==> Gain(q.side, PriceAt(q, rules[i].r), PriceAt(q, rules[i - 1].r)) > 0.0);
    }
  }

  /** The exits are accepted exactly when their rounded prices are positive and strictly monotone. */
  lemma {:induction false} AcceptedWhenStrict(q: Request, rules: seq<Rule>)
    requires q.tick > 0.0
    ensures Derived(q, rules).Ok? <==> Strict(q, rules, 0)
  {
    FaultlessFrom(q, rules, 0);
  }

  function BuildExits(q: Request): Result<Exits, PlanError>
    requires q.tick > 0.0 && q.distance > 0.0
  {
    var chosen :- ChosenRules(q);
    var targets :- Derived(q, chosen.rules);
    if |targets| != 3 then Err(NotThreeExits) else Ok(Exits(targets, chosen.origin))
  }

  // ----- capacity of the primary leg

  datatype Capacity = Capacity(count: nat, quantity: real)

  /** The quantity a target would close of the primary leg alone, if an order that small is accepted. */
  function Placeable(side: Side, primary: Order, distance: real, t: Target, i: Instrument): Option<real>
    requires i.qtyStep > 0.0 && i.tick > 0.0
  {
    var quantity := RoundDown(Share(primary.quantity, t.closePct), i.qtyStep);
    var price := RoundPrice(Ahead(side, primary.reference, Value(distance, t.rMultiple)), i.tick);
    if quantity <= 0.0 || quantity < i.minQty || BelowNotional(i, quantity, price) then None else Some(quantity)
  }

  function Place(c: Capacity, quantity: Option<real>): Capacity {
    if quantity.None? then c else Capacity(c.count + 1, c.quantity + quantity.value)
  }

  function TotalPlaceable(side: Side, primary: Order, distance: real, targets: seq<Target>, i: Instrument): Capacity
    requires i.qtyStep > 0.0 && i.tick > 0.0
  {
    if targets == [] then Capacity(0, 0.0)
    else Place(TotalPlaceable(side, primary, distance, Init(targets), i),
               Placeable(side, primary, distance, Last(targets), i))
  }

  function CapacityFault(primary: Order, placed: Capacity, totalPct: real, i: Instrument): Option<PlanError> {
    var runner := primary.quantity - placed.quantity;
    if placed.count == 0 then Some(NoFixedExit)
    else if runner <= 0.0 || runner < i.minQty then Some(NoRunner)
    else if totalPct >= 100.0 then Some(NoConfiguredRunner)
    else None
  }

  function ExitFault(side: Side, primary: Order, stop: real, targets: seq<Target>, i: Instrument): Option<PlanError>
    requires i.qtyStep > 0.0 && i.tick > 0.0
  {
    var placed := TotalPlaceable(side, primary, Abs(primary.reference - stop), targets, i);
    CapacityFault(primary, placed, TotalPct(targets), i)
  }

  /** The loop over the targets, with its running totals. */
  method ValidateExitCapacity(side: Side, primary: Order, stop: real, targets: seq<Target>, i: Instrument)
    returns (fault: Option<PlanError>)
    requires i.qtyStep > 0.0 && i.tick > 0.0
    ensures fault == ExitFault(side, primary, stop, targets, i)
  {
    var distance := Abs(primary.reference - stop);
    var placed := 0.0;
    var count: nat := 0;
    var totalPct := 0.0;
    for k := 0 to |targets|
      invariant Capacity(count, placed) == TotalPlaceable(side, primary, distance, targets[..k], i)
      invariant totalPct == TotalPct(targets[..k])
    {
      var t := targets[k];
      assert targets[..k + 1] == targets[..k] + [t];
      InitSnoc(targets[..k], t);
      SumConcat(targets[..k], [t], (u: Target) => u.closePct);
      totalPct := totalPct + t.closePct;
      var quantity := RoundDown(Share(primary.quantity, t.closePct), i.qtyStep);
      if quantity <= 0.0 || quantity < i.minQty {
        continue;
      }
      var price := RoundPrice(Ahead(side, primary.reference, Value(distance, t.rMultiple)), i.tick);
      if BelowNotional(i, quantity, price) {
        continue;
      }
      count := count + 1;
      placed := placed + quantity;
    }
    assert targets[..|targets|] == targets;
    var runner := primary.quantity - placed;
    if count == 0 {
      return Some(NoFixedExit);
    }
    if runner <= 0.0 || runner < i.minQty {
      return Some(NoRunner);
    }
    if totalPct >= 100.0 {
      return Some(NoConfiguredRunner);
    }
    return None;
  }
}
