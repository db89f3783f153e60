/**
 The candle-by-candle replay of one position: scale-in fills, protective stop, lifecycle events,
 risk trim, partial exits, time stop and trailing stop. Amounts are exact reals, in units of R.
 Every entry, exit and funding payment is also written to a ledger, which the engine never reads.
 */
module ReplayModel {
  import opened Wrappers
  import opened Arithmetic
  import opened Trading

  datatype Candle = Candle(time: int, low: real, high: real, close: real)

  /** A lifecycle action other than a CLOSE or a sized REDUCE only fixes the exits: a `Reduce` without a share. */
  datatype Event =
    | FundingPaid(time: int, rate: real, price: real)
    | CloseAll(time: int, price: real)
    | Reduce(time: int, closePct: Option<real>, price: real)

  datatype TimeStop = TimeStop(afterMinutes: int, maxCloseR: real, onlyBeforeTrail: bool)

  /** A case, a candidate and the replay options as they are passed in. */
  datatype Request = Request(
    side: Side,
    entry: real,
    plannedStop: real,
    depths: (real, real),
    stopMultiplier: real,
    gridMultiplier: real,
    terms: Terms)

  /** The part of a request the engine uses unchanged. */
  datatype Terms = Terms(
    start: int,
    traderTarget: Option<real>,
    primaryIsMaker: bool,
    events: seq<Event>,
    weights: (real, real, real),
    trailAt: real,
    trailBy: real,
    targetRs: (real, real, real),
    targetPcts: (real, real, real),
    makerFee: real,
    takerFee: real,
    useEvents: bool,
    lossCap: Option<real>,
    trimCap: Option<real>,
    minDelayMinutes: int,
    reclaim: bool,
    timeStop: Option<TimeStop>,
    activateOnClose: bool)

  /** The effective stop and the three entry levels, fixed before the first candle. */
  datatype Setup = Setup(side: Side, stop: real, level1: real, level2: real, level3: real, terms: Terms)

  /** One cash movement. */
  datatype Flow =
    | Bought(qty: real, price: real, fee: real)
    | Sold(qty: real, price: real, fee: real)
    | Funding(amount: real)

  datatype Position = Position(qty: real, avg: real, realized: real, funding: real, ledger: seq<Flow>)

  datatype Legs = Legs(
    second: bool,
    third: bool,
    touchedAt: Option<int>,
    reclaimedAt: Option<int>,
    trimAt: Option<int>,
    protective: real)

  datatype Exits = Exits(frozen: bool, prices: seq<real>, qtys: seq<real>)

  datatype TrailStop = TrailStop(armed: bool, distance: real, price: real, peak: real)

  datatype State = State(
    pos: Position,
    legs: Legs,
    exits: Exits,
    trail: TrailStop,
    mfe: real,
    eventIndex: nat,
    actions: nat)

  datatype Outcome = Running(state: State) | Done(state: State, stopped: bool)

  datatype Rejection = InvalidOptions | LevelCrossedStop | InvalidFees

  // ----- the two directions

  function Adverse(side: Side, c: Candle): real {
    if side.Long? then c.low else c.high
  }

  function Favorable(side: Side, c: Candle): real {
    if side.Long? then c.high else c.low
  }

  // ----- geometry and rejections

  function Prepare(r: Request): Result<Setup, Rejection> {
    var t := r.terms;
    var planned := Abs(r.entry - r.plannedStop);
    var stop := Ahead(r.side, r.entry, -(planned * r.stopMultiplier));
    var level2 := Ahead(r.side, r.entry, -(r.depths.0 * planned * r.gridMultiplier));
    var level3 := Ahead(r.side, r.entry, -(r.depths.1 * planned * r.gridMultiplier));
    if r.stopMultiplier <= 0.0 || r.gridMultiplier <= 0.0 || t.minDelayMinutes < 0
       || (t.lossCap.Some? && t.trimCap.Some?) || (t.trimCap.Some? && t.trimCap.value <= 0.0)
    then Err(InvalidOptions)
    else if t.makerFee < 0.0 || t.takerFee < 0.0 then Err(InvalidFees)
    else if Gain(r.side, r.entry, stop) <= 0.0 || Gain(r.side, level2, stop) <= 0.0 || Gain(r.side, level3, stop) <= 0.0
    then Err(LevelCrossedStop)
    else Ok(Setup(r.side, stop, r.entry, level2, level3, t))
  }

  /**
   What the engine may rely on: the checks of `Prepare`, and the shape of the candidates
   (positive prices, targets and allocations, fees below one).
   */
  predicate Ready(s: Setup) {
    && Gain(s.side, s.level1, s.stop) > 0.0 && Gain(s.side, s.level2, s.stop) > 0.0
    && Gain(s.side, s.level3, s.stop) > 0.0
    && 0.0 <= s.terms.makerFee < 1.0 && 0.0 <= s.terms.takerFee < 1.0
    && s.level1 > 0.0 && s.level2 > 0.0 && s.level3 > 0.0
    && s.terms.weights.0 > 0.0 && s.terms.weights.1 > 0.0 && s.terms.weights.2 >= 0.0
    && 0.0 < s.terms.targetRs.0 && 0.0 < s.terms.targetRs.1 && 0.0 < s.terms.targetRs.2
    && 0.0 <= s.terms.targetPcts.0 && 0.0 <= s.terms.targetPcts.1 && 0.0 <= s.terms.targetPcts.2
    && s.terms.trailBy >= 0.0
  }

  predicate WellFormed(c: Candle) {
    0.0 < c.low <= c.close <= c.high
  }

  /** The facts every running state keeps, which make each division below defined. */
  predicate Sound(s: Setup, st: State) {
    && st.pos.qty >= 0.0
    && st.pos.avg > 0.0
    && Gain(s.side, st.pos.avg, s.stop) > 0.0
    && (!st.exits.frozen && !st.legs.third ==> st.pos.qty > 0.0)
    && (st.exits.frozen ==> |st.exits.prices| == |st.exits.qtys| == 3)
    && (st.trail.armed ==> st.exits.frozen)
    && (st.legs.trimAt.Some? ==> st.legs.third)
  }

  function RValue(s: Setup, avg: real, price: real): real
    requires avg != s.stop
  {
    Gain(s.side, price, avg) / Abs(avg - s.stop)
  }

  // ----- the position

  function Fee(qty: real, price: real, rate: real): real {
    Value(qty, price) * rate
  }

  /** The quantity that puts `weight` at risk between `price` and the stop. */
  function LegQty(s: Setup, weight: real, price: real): real
    requires price != s.stop
  {
    weight / Abs(price - s.stop)
  }

  lemma {:induction false} LegQtyRisks(s: Setup, weight: real, price: real)
    requires Gain(s.side, price, s.stop) > 0.0 && weight >= 0.0
    ensures LegQty(s, weight, price) >= 0.0
    ensures weight > 0.0 ==> LegQty(s, weight, price) > 0.0
    ensures Value(LegQty(s, weight, price), Gain(s.side, price, s.stop)) == weight
  {
    var distance := Abs(price - s.stop);
    DivTimes(weight, distance);
    DivNonNegative(weight, distance);
    if weight > 0.0 { DivPositive(weight, distance); }
  }

  /** The average of `p` units at `a` and `q` units at `b`. */
  function Average(a: real, p: real, b: real, q: real): real
    requires p + q != 0.0
  {
    (a * p + b * q) / (p + q)
  }

  /** Adds a filled leg: the average moves, the fee is paid at once. */
  function Add(pos: Position, qty: real, price: real, feeRate: real): Position
    requires pos.qty + qty != 0.0
  {
    Position(pos.qty + qty,
             Average(pos.avg, pos.qty, price, qty),
             pos.realized - Fee(qty, price, feeRate),
             pos.funding,
             pos.ledger + [Bought(qty, price, Fee(qty, price, feeRate))])
  }

  /** Closes at most the open quantity. */
  function ClosePart(side: Side, pos: Position, amount: real, price: real, feeRate: real): Position {
    var a := Min(amount, pos.qty);
    if a <= 0.0 then pos
    else
      Position(Max(0.0, pos.qty - a),
               pos.avg,
               pos.realized + (Value(a, Gain(side, price, pos.avg)) - Fee(a, price, feeRate)),
               pos.funding,
               pos.ledger + [Sold(a, price, Fee(a, price, feeRate))])
  }

  function ReceiveFunding(pos: Position, amount: real): Position {
    Position(pos.qty, pos.avg, pos.realized + amount, pos.funding + amount, pos.ledger + [Funding(amount)])
  }

  lemma {:induction false} AverageIsBetween(a: real, p: real, b: real, q: real)
    requires p >= 0.0 && q >= 0.0 && p + q > 0.0
    ensures Min(a, b) <= Average(a, p, b, q) <= Max(a, b)
    ensures Average(a, p, b, q) * (p + q) == a * p + b * q
  {
    var lo, hi := Min(a, b), Max(a, b);
    MulMono(lo, a, p);
    MulMono(a, hi, p);
    MulMono(lo, b, q);
    MulMono(b, hi, q);
    assert lo * (p + q) == lo * p + lo * q && hi * (p + q) == hi * p + hi * q;
    DivAtMost(a * p + b * q, p + q, lo);
    DivAtMost(a * p + b * q, p + q, hi);
    DivTimes(a * p + b * q, p + q);
  }

  /** Averaging in a fill beyond the stop keeps the average beyond the stop. */
  lemma {:induction false} AddIsSound(s: Setup, pos: Position, qty: real, price: real, feeRate: real)
    requires pos.qty >= 0.0 && qty >= 0.0 && pos.qty + qty > 0.0
    requires pos.avg > 0.0 && price > 0.0
    requires Gain(s.side, pos.avg, s.stop) > 0.0 && Gain(s.side, price, s.stop) > 0.0
    ensures
      var pos' := Add(pos, qty, price, feeRate);
      pos'.qty > 0.0 && pos'.avg > 0.0 && Gain(s.side, pos'.avg, s.stop) > 0.0
  {
    AverageIsBetween(pos.avg, pos.qty, price, qty);
  }

  // ----- entries

  function Initial(s: Setup): State
    requires Ready(s)
  {
    var qty := LegQty(s, s.terms.weights.0, s.level1);
    var fee := Fee(qty, s.level1, if s.terms.primaryIsMaker then s.terms.makerFee else s.terms.takerFee);
    State(Position(qty, s.level1, -fee, 0.0, [Bought(qty, s.level1, fee)]),
          Legs(false, false, None, None, None, s.stop),
          Exits(false, [], []), TrailStop(false, 0.0, 0.0, 0.0), 0.0, 0, 0)
  }

  predicate Touched(s: Setup, c: Candle, level: real) {
    Gain(s.side, Adverse(s.side, c), level) <= 0.0
  }

  function FillSecond(s: Setup, st: State, c: Candle): (r: State)
    requires Ready(s) && Sound(s, st)
    ensures Sound(s, r) && r.exits == st.exits
  {
    if st.legs.second || !Touched(s, c, s.level2) then st
    else
      var qty := LegQty(s, s.terms.weights.1, s.level2);
      LegQtyRisks(s, s.terms.weights.1, s.level2);
      AddIsSound(s, st.pos, qty, s.level2, s.terms.makerFee);
      var pos := Add(st.pos, qty, s.level2, s.terms.makerFee);
      st.(pos := pos, legs := st.legs.(second := true))
  }

  /** The stop that limits the whole position's loss to `cap` after fees. */
  function CapStop(s: Setup, qty: real, avg: real, realized: real, cap: real): real
    requires qty > 0.0 && 0.0 <= s.terms.takerFee < 1.0
  {
    if s.side.Long?
    then (-cap - realized + Value(qty, avg)) / (qty * (1.0 - s.terms.takerFee))
    else (-cap - realized - Value(qty, avg)) / (qty * (-1.0 - s.terms.takerFee))
  }

  /** The bookkeeping after the third leg filled. */
  function ThirdFilled(s: Setup, pos: Position, legs: Legs, time: int): Legs
    requires pos.qty > 0.0 && 0.0 <= s.terms.takerFee < 1.0
  {
    var marked := legs.(third := true, trimAt := if s.terms.trimCap.Some? then Some(time) else legs.trimAt);
    if s.terms.lossCap.None? then marked
    else
      var stop := CapStop(s, pos.qty, pos.avg, pos.realized, s.terms.lossCap.value);
      marked.(protective := if s.side.Long? then Max(legs.protective, stop) else Min(legs.protective, stop))
  }

  predicate Reclaimed(s: Setup, c: Candle) {
    Gain(s.side, c.close, s.level2) >= 0.0
  }

  /** Fills the third leg at `price`. */
  function AddThird(s: Setup, st: State, price: real, feeRate: real, legs: Legs, time: int): (r: State)
    requires Ready(s) && Sound(s, st) && !st.exits.frozen && !st.legs.third
    requires price > 0.0 && Gain(s.side, price, s.stop) > 0.0
    ensures Sound(s, r) && r.exits == st.exits
  {
    var qty := LegQty(s, s.terms.weights.2, price);
    LegQtyRisks(s, s.terms.weights.2, price);
    AddIsSound(s, st.pos, qty, price, feeRate);
    var pos := Add(st.pos, qty, price, feeRate);
    st.(pos := pos, legs := ThirdFilled(s, pos, legs, time))
  }

  function FillThird(s: Setup, st: State, c: Candle): (r: State)
    requires Ready(s) && Sound(s, st) && !st.exits.frozen && WellFormed(c)
    ensures Sound(s, r) && r.exits == st.exits
  {
    if st.legs.third || c.time < s.terms.start + s.terms.minDelayMinutes * 60_000 then st
    else if s.terms.reclaim then
      if st.legs.touchedAt.None? then
        if Touched(s, c, s.level3) then st.(legs := st.legs.(touchedAt := Some(c.time))) else st
      else if c.time <= st.legs.touchedAt.value || !Reclaimed(s, c) then st
      else AddThird(s, st, c.close, s.terms.takerFee, st.legs.(reclaimedAt := Some(c.time)), c.time)
    else if !Touched(s, c, s.level3) then st
    else AddThird(s, st, s.level3, s.terms.makerFee, st.legs, c.time)
  }

  /** Pending scale-ins are only considered before the exits are fixed. */
  function FillLegs(s: Setup, st: State, c: Candle): (r: State)
    requires Ready(s) && Sound(s, st) && WellFormed(c)
    ensures Sound(s, r) && r.exits == st.exits
  {
    if st.exits.frozen then st else FillThird(s, FillSecond(s, st, c), c)
  }

  // ----- exits

  function Rescale(r: real, reached: real, last: real): real
    requires last != 0.0
  {
    r * reached / last
  }

  /** The three target multiples, capped by a trader target that is closer than the last. */
  function TargetRs(s: Setup, avg: real): seq<real>
    requires s.terms.targetRs.2 > 0.0 && avg != s.stop
    ensures |TargetRs(s, avg)| == 3
  {
    var (r1, r2, r3) := s.terms.targetRs;
    if s.terms.traderTarget.None? then [r1, r2, r3]
    else
      var traderR := RValue(s, avg, s.terms.traderTarget.value);
      if 0.5 <= traderR < r3 then
        if traderR > r1 then [r1, (r1 + traderR) / 2.0, traderR]
        else [Rescale(r1, traderR, r3), Rescale(r2, traderR, r3), Rescale(r3, traderR, r3)]
      else [r1, r2, r3]
  }

  function TargetPrice(s: Setup, avg: real, r: real): real {
    Ahead(s.side, avg, Value(r, Abs(avg - s.stop)))
  }

  /** Fixes the exits: no further scale-in, three target prices and quantities. */
  function FreezeExits(s: Setup, pos: Position, exits: Exits): (r: Exits)
    requires Ready(s) && pos.avg != s.stop
    requires exits.frozen ==> |exits.prices| == |exits.qtys| == 3
    ensures r.frozen && |r.prices| == |r.qtys| == 3
  {
    if exits.frozen then exits
    else
      var rs := TargetRs(s, pos.avg);
      var (p1, p2, p3) := s.terms.targetPcts;
      Exits(true,
            [TargetPrice(s, pos.avg, rs[0]), TargetPrice(s, pos.avg, rs[1]), TargetPrice(s, pos.avg, rs[2])],
            [Share(pos.qty, p1), Share(pos.qty, p2), Share(pos.qty, p3)])
  }

  function Freeze(s: Setup, st: State): (r: State)
    requires Ready(s) && Sound(s, st)
    ensures Sound(s, r) && r.exits.frozen
  {
    st.(exits := FreezeExits(s, st.pos, st.exits))
  }

  /** The price that protects the position and whether it is the trailing stop. */
  function Protection(s: Setup, st: State): (real, bool) {
    if st.trail.armed && Gain(s.side, st.trail.price, st.legs.protective) > 0.0
    then (st.trail.price, true)
    else (st.legs.protective, false)
  }

  function Scaled(amounts: seq<real>, scale: real): seq<real> {
    seq(|amounts|, i requires 0 <= i < |amounts| => amounts[i] * scale)
  }

  /** A REDUCE: closes a share of the position and rescales every pending target alike. */
  function Reduced(s: Setup, st: State, pct: real, price: real): State {
    var pos := ClosePart(s.side, st.pos, Share(st.pos.qty, pct), price, s.terms.takerFee);
    var exits := if st.pos.qty > 0.0 && pos.qty > 0.0
                 then st.exits.(qtys := Scaled(st.exits.qtys, pos.qty / st.pos.qty)) else st.exits;
    st.(pos := pos, exits := exits, actions := st.actions + 1)
  }

  /** One lifecycle event on an open position; `true` when it closed everything. */
  function ApplyEvent(s: Setup, st: State, event: Event): (r: (State, bool))
    requires Ready(s) && Sound(s, st)
    ensures (!r.1 ==> Sound(s, r.0)) && r.0.eventIndex == st.eventIndex
  {
    if event.FundingPaid? then (st.(pos := ReceiveFunding(st.pos, Fee(st.pos.qty, event.price, event.rate))), false)
    else
      var fixed := Freeze(s, st);
      if event.CloseAll? then
        (fixed.(pos := ClosePart(s.side, fixed.pos, fixed.pos.qty, event.price, s.terms.takerFee),
                actions := fixed.actions + 1), true)
      else if event.closePct.Some? then (Reduced(s, fixed, event.closePct.value, event.price), false)
      else (fixed, false)
  }

  /** The lifecycle events up to the end of the candle; `true` when one closed the position. */
  function ApplyEvents(s: Setup, st: State, candleEnd: int): (r: (State, bool))
    requires Ready(s) && Sound(s, st)
    ensures !r.1 ==> Sound(s, r.0)
    decreases |s.terms.events| - st.eventIndex
  {
    if st.eventIndex >= |s.terms.events| || s.terms.events[st.eventIndex].time >= candleEnd then (st, false)
    else
      var next := st.(eventIndex := st.eventIndex + 1);
      if next.pos.qty <= 0.0 then ApplyEvents(s, next, candleEnd)
      else
        var (after, closed) := ApplyEvent(s, next, s.terms.events[st.eventIndex]);
        if closed then (after, true) else ApplyEvents(s, after, candleEnd)
  }

  /** The quantity sold right after the third leg filled to bring the stop-out loss down to the cap. */
  function TrimQty(s: Setup, st: State, c: Candle, cap: real): real {
    var stopOut := Gain(s.side, st.legs.protective, st.pos.avg) - Value(st.legs.protective, s.terms.takerFee);
    var closeOut := Gain(s.side, c.close, st.pos.avg) - Value(c.close, s.terms.takerFee);
    var projected := st.pos.realized + Value(st.pos.qty, stopOut);
    var improvement := closeOut - stopOut;
    if projected < -cap && improvement > 0.0 then Min(st.pos.qty, (-cap - projected) / improvement) else 0.0
  }

  function Trim(s: Setup, st: State, c: Candle): real {
    if s.terms.trimCap.Some? && st.legs.trimAt == Some(c.time) then TrimQty(s, st, c, s.terms.trimCap.value) else 0.0
  }

  /** Sells a pending target if the candle reached it. */
  function FillTarget(s: Setup, st: State, c: Candle, i: nat): (r: State)
    requires Sound(s, st) && st.exits.frozen && i < 3
    ensures Sound(s, r) && r.exits.frozen
  {
    if st.exits.qtys[i] <= 0.0 || Gain(s.side, Favorable(s.side, c), st.exits.prices[i]) < 0.0 then st
    else
      st.(pos := ClosePart(s.side, st.pos, st.exits.qtys[i], st.exits.prices[i], s.terms.makerFee),
          exits := st.exits.(qtys := st.exits.qtys[i := 0.0]))
  }

  function FillTargets(s: Setup, st: State, c: Candle): (r: State)
    requires Sound(s, st) && st.exits.frozen
    ensures Sound(s, r) && r.exits.frozen
  {
    FillTarget(s, FillTarget(s, FillTarget(s, st, c, 0), c, 1), c, 2)
  }

  predicate TimeStopHits(s: Setup, st: State, c: Candle)
    requires st.pos.avg != s.stop
  {
    && s.terms.timeStop.Some?
    && c.time + 60_000 - s.terms.start >= s.terms.timeStop.value.afterMinutes * 60_000
    && RValue(s, st.pos.avg, c.close) <= s.terms.timeStop.value.maxCloseR
    && (!s.terms.timeStop.value.onlyBeforeTrail || st.mfe < s.terms.trailAt)
  }

  /** What an armed trail locks: 0.05R. */
  const LOCKED_R: real := 0.05

  /** The price at which selling everything would leave exactly `LOCKED_R`. */
  function FloorPrice(s: Setup, qty: real, avg: real, realized: real): real
    requires qty > 0.0 && 0.0 <= s.terms.takerFee < 1.0
  {
    if s.side.Long?
    then (LOCKED_R - realized + Value(qty, avg)) / (qty * (1.0 - s.terms.takerFee))
    else (Value(qty, avg) + realized - LOCKED_R) / (qty * (1.0 + s.terms.takerFee))
  }

  function RequiredFloor(s: Setup, pos: Position): real
    requires pos.qty > 0.0 && 0.0 <= s.terms.takerFee < 1.0
  {
    FloorPrice(s, pos.qty, pos.avg, pos.realized)
  }

  /** Arms the trailing stop at `anchor`, no further away than the required floor. */
  function ArmTrail(s: Setup, pos: Position, anchor: real): TrailStop
    requires pos.qty > 0.0 && 0.0 <= s.terms.takerFee < 1.0
  {
    var distance := Min(Value(s.terms.trailBy, Abs(pos.avg - s.stop)),
                        Max(0.0, Gain(s.side, anchor, RequiredFloor(s, pos))));
    TrailStop(true, distance, Ahead(s.side, anchor, -distance), anchor)
  }

  /** Moves an armed trailing stop behind a new peak. */
  function RaiseTrail(s: Setup, trail: TrailStop, favorable: real): TrailStop {
    if Gain(s.side, favorable, trail.peak) > 0.0
    then trail.(peak := favorable, price := Ahead(s.side, favorable, -trail.distance))
    else trail
  }

  function Activation(s: Setup, c: Candle): real {
    if s.terms.activateOnClose then c.close else Favorable(s.side, c)
  }

  function Trail(s: Setup, st: State, c: Candle): (r: State)
    requires Ready(s) && Sound(s, st) && st.pos.qty > 0.0
    ensures Sound(s, r)
  {
    if RValue(s, st.pos.avg, Activation(s, c)) < s.terms.trailAt then st
    else if !st.trail.armed then Freeze(s, st).(trail := ArmTrail(s, st.pos, Activation(s, c)))
    else st.(trail := RaiseTrail(s, st.trail, Favorable(s.side, c)))
  }

  /** Records the excursion and fixes the exits once the first target or the trail is reached. */
  function Excursion(s: Setup, st: State, c: Candle): (r: State)
    requires Ready(s) && Sound(s, st)
    ensures Sound(s, r)
  {
    var currentR := RValue(s, st.pos.avg, Favorable(s.side, c));
    var seen := st.(mfe := Max(st.mfe, currentR));
    if currentR >= TargetRs(s, st.pos.avg)[0] || RValue(s, st.pos.avg, Activation(s, c)) >= s.terms.trailAt
    then Freeze(s, seen) else seen
  }

  /** Sells the whole position. */
  function Liquidate(s: Setup, st: State, price: real): State {
    st.(pos := ClosePart(s.side, st.pos, st.pos.qty, price, s.terms.takerFee))
  }

  /** The excursion and the targets it reached. */
  function Reach(s: Setup, st: State, c: Candle): (r: State)
    requires Ready(s) && Sound(s, st)
    ensures Sound(s, r)
  {
    var seen := Excursion(s, st, c);
    if seen.exits.frozen then FillTargets(s, seen, c) else seen
  }

  /** Flat, timed out, or trailing on. */
  function Conclude(s: Setup, st: State, c: Candle): (r: Outcome)
    requires Ready(s) && Sound(s, st)
    ensures r.Running? ==> Sound(s, r.state)
  {
    if st.pos.qty <= 0.0 then Done(st, false)
    else if TimeStopHits(s, st, c) then Done(Liquidate(s, st, c.close), false)
    else Running(Trail(s, st, c))
  }

  /** The favorable half of a candle: excursion, freeze, targets, time stop, trail. */
  function Harvest(s: Setup, st: State, c: Candle): (r: Outcome)
    requires Ready(s) && Sound(s, st)
    ensures r.Running? ==> Sound(s, r.state)
  {
    Conclude(s, Reach(s, st, c), c)
  }

  /** What follows the adverse half: the risk trim, then the favorable half unless it was consumed. */
  function Proceed(s: Setup, st: State, c: Candle): (r: Outcome)
    requires Ready(s) && Sound(s, st)
    ensures r.Running? ==> Sound(s, r.state)
  {
    var trim := Trim(s, st, c);
    var left := st.(pos := ClosePart(s.side, st.pos, trim, c.close, s.terms.takerFee));
    if trim > 0.0 || left.legs.reclaimedAt == Some(c.time) then Running(left) else Harvest(s, left, c)
  }

  /** The events of the candle, then the rest of it unless one closed the position. */
  function Lifecycle(s: Setup, st: State, c: Candle): (r: Outcome)
    requires Ready(s) && Sound(s, st)
    ensures r.Running? ==> Sound(s, r.state)
  {
    if !s.terms.useEvents then Proceed(s, st, c)
    else
      var (left, closed) := ApplyEvents(s, st, c.time + 60_000);
      if closed then Done(left, false) else Proceed(s, left, c)
  }

  /** What follows the entries: protection wins before anything else. */
  function React(s: Setup, st: State, c: Candle): (r: Outcome)
    requires Ready(s) && Sound(s, st)
    ensures r.Running? ==> Sound(s, r.state)
  {
    var (protection, trailed) := Protection(s, st);
    if Touched(s, c, protection) then Done(Liquidate(s, st, protection), !trailed) else Lifecycle(s, st, c)
  }

  /** One candle, adverse movement first. */
  function Step(s: Setup, st: State, c: Candle): (r: Outcome)
    requires Ready(s) && Sound(s, st) && WellFormed(c)
    ensures r.Running? ==> Sound(s, r.state)
  {
    React(s, FillLegs(s, st, c), c)
  }

  ghost predicate Playable(candles: seq<Candle>) {
    candles != [] && forall c :: c in candles ==> WellFormed(c)
  }

  /** The run from candle `i` on; a position still open at the end is marked at the last close. */
  function Run(s: Setup, st: State, candles: seq<Candle>, i: nat): (r: Outcome)
    requires Ready(s) && Sound(s, st)
    requires Playable(candles) && i <= |candles|
    ensures r.Done?
    decreases |candles| - i
  {
    if i == |candles| then Done(Liquidate(s, st, candles[|candles| - 1].close), false)
    else
      var next := Step(s, st, candles[i]);
      if next.Done? then next else Run(s, next.state, candles, i + 1)
  }

  lemma {:induction false} InitialIsSound(s: Setup)
    requires Ready(s)
    ensures Sound(s, Initial(s))
  {
    LegQtyRisks(s, s.terms.weights.0, s.level1);
  }

  /** What `replay` returns for an accepted request. */
  function Replay(s: Setup, candles: seq<Candle>): Outcome
    requires Ready(s) && Playable(candles)
  {
    InitialIsSound(s);
    Run(s, Initial(s), candles, 0)
  }

  /** The next state, if the candle did not end the run. */
  function Next(s: Setup, st: State, c: Candle): (r: Option<State>)
    requires Ready(s) && Sound(s, st) && WellFormed(c)
    ensures r.Some? ==> Sound(s, r.value)
    ensures r.Some? <==> Step(s, st, c).Running?
    ensures r.Some? ==> Step(s, st, c) == Running(r.value)
  {
    var next := Step(s, st, c);
    if next.Running? then Some(next.state) else None
  }

  /** The state after the first `k` candles, if the run is still going. */
  function After(s: Setup, candles: seq<Candle>, k: nat): (r: Option<State>)
    requires Ready(s) && Playable(candles) && k <= |candles|
    ensures r.Some? ==> Sound(s, r.value)
  {
    if k == 0 then
      InitialIsSound(s);
      Some(Initial(s))
    else
      var before := After(s, candles, k - 1);
      if before.None? then None else Next(s, before.value, candles[k - 1])
  }

  lemma {:induction false} RunOn(s: Setup, st: State, candles: seq<Candle>, i: nat, next: State)
    requires Ready(s) && Sound(s, st) && Playable(candles) && i < |candles|
    requires Step(s, st, candles[i]) == Running(next)
    ensures Sound(s, next) && Run(s, st, candles, i) == Run(s, next, candles, i + 1)
  {
  }

  lemma {:induction false} NextState(s: Setup, candles: seq<Candle>, k: nat)
    requires Ready(s) && Playable(candles) && k < |candles| && After(s, candles, k + 1).Some?
    ensures After(s, candles, k).Some?
    ensures Step(s, After(s, candles, k).value, candles[k]) == Running(After(s, candles, k + 1).value)
  {
  }

  lemma {:induction false} RunOnNext(s: Setup, candles: seq<Candle>, k: nat)
    requires Ready(s) && Playable(candles) && k < |candles| && After(s, candles, k + 1).Some?
    ensures After(s, candles, k).Some?
    ensures Run(s, After(s, candles, k).value, candles, k) == Run(s, After(s, candles, k + 1).value, candles, k + 1)
  {
    NextState(s, candles, k);
    RunOn(s, After(s, candles, k).value, candles, k, After(s, candles, k + 1).value);
  }

  /** A run continues from any state it passes through. */
  lemma {:induction false} ReplayFrom(s: Setup, candles: seq<Candle>, k: nat)
    requires Ready(s) && Playable(candles) && k <= |candles| && After(s, candles, k).Some?
    ensures Replay(s, candles) == Run(s, After(s, candles, k).value, candles, k)
  {
    if k > 0 {
      RunOnNext(s, candles, k - 1);
      ReplayFrom(s, candles, k - 1);
    }
  }
}
