/** Policies, instruments, orders and execution plans, with the checks their constructors make. */
module PlanDomain {
  import opened Wrappers
  import opened Sequences
  import opened Trading
  import opened Rounding

  /** Who chose a stop or a target. */
  datatype Origin = Trader | PolicyRule

  datatype OrderType = MarketOrder | LimitOrder

  datatype Strategy = Strategy(
    fallbackStopPct: real,
    risks: (real, real, real),
    depths: (real, real),
    targetRs: (real, real, real),
    targetPcts: (real, real, real),
    runnerPct: real,
    trailAt: real,
    trailBy: real,
    lockedR: real)

  datatype Policy = Policy(capital: Option<real>, riskPct: real, strategy: Strategy)

  datatype LeverageFilter = LeverageFilter(minimum: real, maximum: real, step: real)

  datatype Instrument = Instrument(
    marketPrice: real,
    tick: real,
    qtyStep: real,
    minQty: real,
    minNotional: real,
    leverage: Option<LeverageFilter>)

  datatype Target = Target(name: string, price: real, closePct: real, rMultiple: real)

  datatype Order = Order(
    name: string,
    riskPct: Option<real>,
    orderType: OrderType,
    quantity: real,
    price: Option<real>,
    reference: real)

  /** One physical request under a logical leg. */
  datatype Slice = Slice(leg: string, index: nat, quantity: real, filled: Option<real>)

  datatype Plan = Plan(
    version: int,
    side: Side,
    leverage: real,
    orders: seq<Order>,
    slices: seq<Slice>,
    stop: real,
    stopOrigin: Origin,
    takeProfit: real,
    targets: seq<Target>,
    targetOrigin: Origin,
    traderTarget: Option<real>,
    runnerPct: real,
    policy: Policy,
    plannedLoss: real)

  datatype PlanError =
    | TickSize | QtyStep | NoCapital
    | StopNotPositive | RangeTooNarrow | NoPrimaryDistance | LevelsCollapse
    | StopGeometry | NotTowardStop | PassedThrough
    | NoStopDistance(leg: string) | BelowMinimumQuantity(leg: string) | BelowMinimumNotional(leg: string)
    | InvalidOrder(leg: string)
    | LossNotPositive | OverBudget
    | NoWeightedDistance | TraderTargetTooClose | TargetNotPositive | TargetsCollapse | NotThreeExits | TargetGeometry
    | NoFixedExit | NoRunner | NoConfiguredRunner
    | LeverageTooLow | InvalidPlan
    | NotVersion2 | NotThreeLegs | NotMarketPrimary | ScaleInsNotLimit
    | FillNotPositive | QuantityNotPositive | FillOutsideStop | BudgetConsumed | NoBudgetLeft
    | NotRefreshable | QuoteNotPositive | QuoteOutsideStop

  predicate Percentage(x: real) {
    0.0 < x < 100.0
  }

  /** What a Strategy V2 policy guarantees once constructed. */
  predicate ValidStrategy(s: Strategy) {
    && Percentage(s.fallbackStopPct)
    && Percentage(s.risks.0) && Percentage(s.risks.1) && Percentage(s.risks.2)
    && s.risks.0 + s.risks.1 + s.risks.2 == 100.0
    && 0.0 < s.depths.0 < s.depths.1 < 1.0
    && 0.0 < s.targetRs.0 < s.targetRs.1 < s.targetRs.2
    && Percentage(s.targetPcts.0) && Percentage(s.targetPcts.1) && Percentage(s.targetPcts.2) && Percentage(s.runnerPct)
    && s.targetPcts.0 + s.targetPcts.1 + s.targetPcts.2 + s.runnerPct == 100.0
    && 0.0 < s.trailBy < s.trailAt
    && 0.0 <= s.lockedR <= s.trailAt - s.trailBy
  }

  predicate ValidPolicy(p: Policy) {
    && (p.capital.Some? ==> p.capital.value > 0.0)
    && 0.0 < p.riskPct <= 10.0
    && ValidStrategy(p.strategy)
  }

  predicate ValidFilter(f: LeverageFilter) {
    1.0 <= f.minimum <= f.maximum && f.step > 0.0
  }

  predicate ValidInstrument(i: Instrument) {
    i.marketPrice > 0.0 && (i.leverage.Some? ==> ValidFilter(i.leverage.value))
  }

  /** The instrument's minimum notional is set, and the order falls short of it. */
  predicate BelowNotional(i: Instrument, quantity: real, price: real) {
    i.minNotional != 0.0 && Value(quantity, price) < i.minNotional
  }

  function RiskBudget(p: Policy): Result<real, PlanError> {
    if p.capital.None? then Err(NoCapital) else Ok(Share(p.capital.value, p.riskPct))
  }

  /** The largest leverage on the instrument's grid that does not exceed the request. */
  function SelectLeverage(f: LeverageFilter, requested: real): Result<real, PlanError>
    requires ValidFilter(f)
  {
    if requested < f.minimum then Err(LeverageTooLow)
    else Ok(f.minimum + RoundDown(Min(requested, f.maximum) - f.minimum, f.step))
  }

  ghost predicate OnGrid(f: LeverageFilter, leverage: real) {
    exists n: nat :: leverage == f.minimum + Ticks(n, f.step)
  }

  // ----- plan validation

  function TotalPct(targets: seq<Target>): real {
    Sum(targets, (t: Target) => t.closePct)
  }

  predicate ValidOrder(o: Order) {
    && o.quantity > 0.0 && o.reference > 0.0
    && (o.riskPct.Some? ==> 0.0 < o.riskPct.value <= 100.0)
    && (o.price.Some? ==> o.price.value > 0.0)
    && (o.orderType.MarketOrder? <==> o.price.None?)
  }

  predicate ValidTarget(t: Target) {
    t.price > 0.0 && 0.0 < t.closePct <= 100.0 && t.rMultiple > 0.0
  }

  /** Fill evidence is bounded and only on the primary leg. */
  predicate ValidSlice(s: Slice) {
    && s.leg in ["E1", "E2", "E3"] && s.index <= 9999 && s.quantity > 0.0
    && (s.filled.Some? ==> s.leg == "E1" && 0.0 <= s.filled.value <= s.quantity)
  }

  predicate ValidLadder(p: Plan) {
    && |p.orders| == 3
    && p.orders[0].name == "E1" && p.orders[1].name == "E2" && p.orders[2].name == "E3"
    && p.orders[0].riskPct.Some? && p.orders[1].riskPct.Some? && p.orders[2].riskPct.Some?
    && p.orders[0].riskPct.value + p.orders[1].riskPct.value + p.orders[2].riskPct.value == 100.0
    && |p.targets| == 3
    && p.targets[0].closePct + p.targets[1].closePct + p.targets[2].closePct + p.runnerPct == 100.0
  }

  function Children(slices: seq<Slice>, leg: string): seq<Slice> {
    Filter(slices, (s: Slice) => s.leg == leg)
  }

  /** One unsplit slice, or numbered consecutively from one. */
  predicate Contiguous(children: seq<Slice>) {
    && children != []
    && ((|children| == 1 && children[0].index == 0)
        || forall i :: 0 <= i < |children| ==> children[i].index == i + 1)
  }

  /** What a slice contributes to its leg: its fill where there is evidence. */
  function Contribution(s: Slice): real {
    if s.filled.None? then s.quantity else s.filled.value
  }

  function Contributed(children: seq<Slice>): real {
    Sum(children, (s: Slice) => Contribution(s))
  }

  predicate EvidenceComplete(order: Order, children: seq<Slice>) {
    (exists s :: s in children && s.filled.Some?) ==>
      (forall s :: s in children ==> s.filled.Some?) && order.orderType.MarketOrder?
  }

  predicate ValidChildren(order: Order, children: seq<Slice>) {
    && Contiguous(children)
    && EvidenceComplete(order, children)
    && Contributed(children) == order.quantity
  }

  /** The slices of every order, order by order. */
  function InLegOrder(orders: seq<Order>, slices: seq<Slice>): seq<Slice> {
    if orders == [] then [] else InLegOrder(Init(orders), slices) + Children(slices, Last(orders).name)
  }

  predicate ValidSlices(p: Plan) {
    p.slices == [] ||
    (&& p.version == 2
     && (forall o :: o in p.orders ==> ValidChildren(o, Children(p.slices, o.name)))
     && InLegOrder(p.orders, p.slices) == p.slices)
  }

  predicate ValidFields(p: Plan) {
    && p.version >= 1 && p.leverage >= 1.0 && 1 <= |p.orders| <= 20 && |p.slices| <= 500
    && p.stop > 0.0 && p.takeProfit > 0.0
    && (p.traderTarget.Some? ==> p.traderTarget.value > 0.0)
    && 0.0 <= p.runnerPct < 100.0 && p.plannedLoss >= 0.0
    && (forall o :: o in p.orders ==> ValidOrder(o))
    && (forall t :: t in p.targets ==> ValidTarget(t))
    && (forall s :: s in p.slices ==> ValidSlice(s))
  }

  predicate WithinBudget(p: Plan) {
    RiskBudget(p.policy).Ok? && p.plannedLoss <= RiskBudget(p.policy).value
  }

  /** What constructing an execution plan checks. */
  predicate ValidPlan(p: Plan) {
    && ValidFields(p)
    && WithinBudget(p)
    && (p.version >= 2 ==> ValidLadder(p))
    && (p.version < 2 && p.targets != [] ==> TotalPct(p.targets) == 100.0)
    && ValidSlices(p)
  }

  function Checked(p: Plan): Result<Plan, PlanError> {
    if ValidPlan(p) then Ok(p) else Err(InvalidPlan)
  }
}
