/** The trailing stop: it never retreats, and once it clears the required floor it locks +0.05R. */
module ReplayTrail {
  import opened Wrappers
  import opened Arithmetic
  import opened Trading
  import opened ReplayModel
  import opened ReplayRisk

  /** The result if the whole position were sold at `price` right now. */
  function LiquidationValue(s: Setup, pos: Position, price: real): real {
    pos.realized + (Value(pos.qty, Gain(s.side, price, pos.avg)) - Fee(pos.qty, price, s.terms.takerFee))
  }

  // ----- arithmetic of one sale

  /** A better price never sells for less. */
  lemma {:induction false} BetterPriceSellsForMore(s: Setup, pos: Position, price: real, worse: real)
    requires pos.qty >= 0.0 && 0.0 <= s.terms.takerFee < 1.0 && Gain(s.side, price, worse) >= 0.0
    ensures LiquidationValue(s, pos, price) >= LiquidationValue(s, pos, worse)
  {
    var net := if s.side.Long? then 1.0 - s.terms.takerFee else 1.0 + s.terms.takerFee;
    MulNonNegative(pos.qty, Gain(s.side, price, worse));
    MulNonNegative(pos.qty * Gain(s.side, price, worse), net);
    assert LiquidationValue(s, pos, price) - LiquidationValue(s, pos, worse)
        == pos.qty * Gain(s.side, price, worse) * net;
  }

  /** Selling a part at a price beyond the trail, at no higher a fee, does not lower what the trail locks. */
  lemma {:induction false} SaleBeyondTrailKeepsLock(
    s: Setup, pos: Position, amount: real, price: real, feeRate: real, trail: real)
    requires pos.qty >= 0.0 && 0.0 <= feeRate <= s.terms.takerFee < 1.0
    requires price >= 0.0 && Gain(s.side, price, trail) >= 0.0
    ensures LiquidationValue(s, ClosePart(s.side, pos, amount, price, feeRate), trail)
         >= LiquidationValue(s, pos, trail)
  {
    var a := Min(amount, pos.qty);
    if a > 0.0 {
      var pos' := ClosePart(s.side, pos, amount, price, feeRate);
      assert pos'.qty == pos.qty - a;
      SaleGain(s, pos, pos', a, price, feeRate, trail);
    }
  }

  lemma {:induction false} SaleGain(
    s: Setup, pos: Position, pos': Position, a: real, price: real, feeRate: real, trail: real)
    requires a >= 0.0 && 0.0 <= feeRate <= s.terms.takerFee < 1.0
    requires price >= 0.0 && Gain(s.side, price, trail) >= 0.0
    requires pos'.qty == pos.qty - a && pos'.avg == pos.avg
    requires pos'.realized == pos.realized + (Value(a, Gain(s.side, price, pos.avg)) - Fee(a, price, feeRate))
    ensures LiquidationValue(s, pos', trail) >= LiquidationValue(s, pos, trail)
  {
    var tf := s.terms.takerFee;
    UnitGain(s.side, price, trail, tf, feeRate);
    var perUnit := Gain(s.side, price, trail) - price * feeRate + trail * tf;
    SplitSale(s.side, pos.qty, a, price, trail, pos.avg, tf, feeRate);
    MulNonNegative(a, perUnit);
    var step := a * perUnit;
    assert Value(pos'.qty, Gain(s.side, trail, pos.avg)) == Value(pos.qty - a, Gain(s.side, trail, pos.avg));
    assert Fee(pos'.qty, trail, tf) == Fee(pos.qty - a, trail, tf);
    assert LiquidationValue(s, pos', trail) == LiquidationValue(s, pos, trail) + step;
  }

  /** One unit sold beyond the trail, at no higher a fee, fetches no less than at the trail. */
  lemma {:induction false} UnitGain(side: Side, price: real, trail: real, tf: real, feeRate: real)
    requires 0.0 <= feeRate <= tf < 1.0 && price >= 0.0 && Gain(side, price, trail) >= 0.0
    ensures Gain(side, price, trail) - price * feeRate + trail * tf >= 0.0
  {
    MulMono(feeRate, tf, price);
    if side.Long? {
      MulMono(trail, price, 1.0 - tf);
    } else {
      MulMono(price, trail, 1.0 + tf);
    }
  }

  /** What selling `a` units at `price` instead of at the trail changes. */
  lemma {:induction false} SplitSale(
    side: Side, qty: real, a: real, price: real, trail: real, avg: real, tf: real, feeRate: real)
    ensures Value(a, Gain(side, price, avg)) - Fee(a, price, feeRate)
            + (Value(qty - a, Gain(side, trail, avg)) - Fee(qty - a, trail, tf))
         == Value(qty, Gain(side, trail, avg)) - Fee(qty, trail, tf)
            + a * (Gain(side, price, trail) - price * feeRate + trail * tf)
  {
  }

  /** Selling everything at `price` leaves exactly the liquidation value. */
  lemma {:induction false} LiquidationRealizesValue(s: Setup, st: State, price: real)
    requires st.pos.qty >= 0.0
    ensures Liquidate(s, st, price).pos.realized == LiquidationValue(s, st.pos, price)
  {
    if st.pos.qty == 0.0 {
      assert Value(0.0, Gain(s.side, price, st.pos.avg)) == 0.0;
      assert Fee(0.0, price, s.terms.takerFee) == 0.0;
    }
  }

  // ----- arming

  /** The required floor is the price whose liquidation leaves exactly 0.05R. */
  lemma {:induction false} FloorLeavesLockedR(s: Setup, pos: Position)
    requires pos.qty > 0.0 && 0.0 <= s.terms.takerFee < 1.0
    ensures LiquidationValue(s, pos, RequiredFloor(s, pos)) == LOCKED_R
  {
    var floor := RequiredFloor(s, pos);
    var net := if s.side.Long? then 1.0 - s.terms.takerFee else 1.0 + s.terms.takerFee;
    MulPositive(pos.qty, net);
    var target := if s.side.Long? then LOCKED_R - pos.realized + Value(pos.qty, pos.avg)
                  else Value(pos.qty, pos.avg) + pos.realized - LOCKED_R;
    assert floor * (pos.qty * net) == target by { DivTimes(target, pos.qty * net); }
    FloorValue(s, pos, floor, net);
  }

  lemma {:induction false} FloorValue(s: Setup, pos: Position, price: real, net: real)
    requires net == if s.side.Long? then 1.0 - s.terms.takerFee else 1.0 + s.terms.takerFee
    ensures LiquidationValue(s, pos, price)
         == if s.side.Long? then pos.realized + price * (pos.qty * net) - Value(pos.qty, pos.avg)
            else pos.realized - price * (pos.qty * net) + Value(pos.qty, pos.avg)
  {
  }

  /** A freshly armed trail locks 0.05R exactly when its anchor clears the required floor. */
  lemma {:induction false} ArmedTrailLocks(s: Setup, pos: Position, anchor: real)
    requires pos.qty > 0.0 && 0.0 <= s.terms.takerFee < 1.0 && s.terms.trailBy >= 0.0
    ensures LiquidationValue(s, pos, ArmTrail(s, pos, anchor).price) >= LOCKED_R
            <==> Gain(s.side, anchor, RequiredFloor(s, pos)) >= 0.0
    ensures ArmTrail(s, pos, anchor).distance >= 0.0
  {
    var trail := ArmTrail(s, pos, anchor);
    var floor := RequiredFloor(s, pos);
    MulNonNegative(s.terms.trailBy, Abs(pos.avg - s.stop));
    assert Value(s.terms.trailBy, Abs(pos.avg - s.stop)) >= 0.0;
    FloorLeavesLockedR(s, pos);
    if Gain(s.side, anchor, floor) >= 0.0 {
      BetterPriceSellsForMore(s, pos, trail.price, floor);
    } else {
      assert trail.price == anchor;
      StrictlyWorsePrice(s, pos, anchor, floor);
    }
  }

  lemma {:induction false} StrictlyWorsePrice(s: Setup, pos: Position, price: real, better: real)
    requires pos.qty > 0.0 && 0.0 <= s.terms.takerFee < 1.0 && Gain(s.side, better, price) > 0.0
    ensures LiquidationValue(s, pos, price) < LiquidationValue(s, pos, better)
  {
    var net := if s.side.Long? then 1.0 - s.terms.takerFee else 1.0 + s.terms.takerFee;
    MulPositive(pos.qty, Gain(s.side, better, price));
    MulPositive(pos.qty * Gain(s.side, better, price), net);
    assert LiquidationValue(s, pos, better) - LiquidationValue(s, pos, price)
        == pos.qty * Gain(s.side, better, price) * net;
  }

  // ----- the armed invariant

  ghost predicate PendingBeyond(side: Side, exits: Exits, price: real)
    requires |exits.prices| == |exits.qtys|
  {
    forall i :: 0 <= i < |exits.qtys| && exits.qtys[i] > 0.0 ==> Gain(side, exits.prices[i], price) > 0.0
  }

  /** An armed trail that locks its profit: every pending target lies beyond it. */
  ghost predicate Locked(s: Setup, st: State) {
    && Sound(s, st) && st.trail.armed
    && TargetsAhead(s.side, st.pos.avg, st.exits)
    && st.trail.distance >= 0.0
    && st.trail.price == Ahead(s.side, st.trail.peak, -st.trail.distance)
    && PendingBeyond(s.side, st.exits, st.trail.price)
    && LiquidationValue(s, st.pos, st.trail.price) >= LOCKED_R
  }

  /** The fee setting under which a target sale costs no more than a trail sale. */
  predicate MakerIsCheaper(s: Setup) {
    s.terms.makerFee <= s.terms.takerFee
  }

  lemma {:induction false} FillTargetExits(s: Setup, st: State, c: Candle, i: nat)
    requires Sound(s, st) && st.exits.frozen && i < 3
    ensures
      var hit := st.exits.qtys[i] > 0.0 && Gain(s.side, Favorable(s.side, c), st.exits.prices[i]) >= 0.0;
      FillTarget(s, st, c, i).exits == if hit then st.exits.(qtys := st.exits.qtys[i := 0.0]) else st.exits
    ensures FillTarget(s, st, c, i).trail == st.trail && FillTarget(s, st, c, i).pos.avg == st.pos.avg
  {
  }

  /** After the targets, only those the candle did not reach are pending. */
  lemma {:induction false} TargetsLeftAreBeyond(s: Setup, st: State, c: Candle)
    requires Sound(s, st) && st.exits.frozen
    ensures FillTargets(s, st, c).exits.prices == st.exits.prices
    ensures PendingBeyond(s.side, FillTargets(s, st, c).exits, Favorable(s.side, c))
    ensures FillTargets(s, st, c).trail == st.trail && FillTargets(s, st, c).pos.avg == st.pos.avg
  {
    FillTargetExits(s, st, c, 0);
    FillTargetExits(s, FillTarget(s, st, c, 0), c, 1);
    FillTargetExits(s, FillTarget(s, FillTarget(s, st, c, 0), c, 1), c, 2);
  }

  lemma {:induction false} FillTargetKeepsLock(s: Setup, st: State, c: Candle, i: nat)
    requires Ready(s) && MakerIsCheaper(s) && WellFormed(c) && Locked(s, st) && i < 3
    ensures Locked(s, FillTarget(s, st, c, i)) && FillTarget(s, st, c, i).trail == st.trail
  {
    var target := st.exits.prices[i];
    if st.exits.qtys[i] > 0.0 && Gain(s.side, Favorable(s.side, c), target) >= 0.0 {
      assert Gain(s.side, target, st.pos.avg) > 0.0;
      assert target >= 0.0;
      SaleBeyondTrailKeepsLock(s, st.pos, st.exits.qtys[i], target, s.terms.makerFee, st.trail.price);
    }
  }

  lemma {:induction false} FillTargetsKeepsLock(s: Setup, st: State, c: Candle)
    requires Ready(s) && MakerIsCheaper(s) && WellFormed(c) && Locked(s, st)
    ensures Locked(s, FillTargets(s, st, c)) && FillTargets(s, st, c).trail == st.trail
    ensures PendingBeyond(s.side, FillTargets(s, st, c).exits, Favorable(s.side, c))
  {
    FillTargetKeepsLock(s, st, c, 0);
    FillTargetKeepsLock(s, FillTarget(s, st, c, 0), c, 1);
    FillTargetKeepsLock(s, FillTarget(s, FillTarget(s, st, c, 0), c, 1), c, 2);
    TargetsLeftAreBeyond(s, st, c);
  }

  /** Moving the trail up behind a new peak keeps the lock, and the trail never retreats. */
  lemma {:induction false} TrailKeepsLock(s: Setup, st: State, c: Candle)
    requires Ready(s) && Locked(s, st) && st.pos.qty > 0.0
    requires PendingBeyond(s.side, st.exits, Favorable(s.side, c))
    ensures Locked(s, Trail(s, st, c)) && Trail(s, st, c).pos == st.pos
    ensures Gain(s.side, Trail(s, st, c).trail.price, st.trail.price) >= 0.0
  {
    var raised := RaiseTrail(s, st.trail, Favorable(s.side, c));
    BetterPriceSellsForMore(s, st.pos, raised.price, st.trail.price);
  }

  /** What a step from a locked state delivers. */
  ghost predicate KeepsLock(s: Setup, st: State, c: Candle, r: Outcome) {
    if r.Done? then r.state.pos.realized >= LOCKED_R
    else
      && Locked(s, r.state)
      && Gain(s.side, r.state.trail.price, st.trail.price) >= 0.0
      && LiquidationValue(s, r.state.pos, c.close) >= LOCKED_R
  }

  lemma {:induction false} ReachKeepsLock(s: Setup, st: State, c: Candle)
    requires Ready(s) && MakerIsCheaper(s) && WellFormed(c) && Locked(s, st)
    ensures Locked(s, Reach(s, st, c)) && Reach(s, st, c).trail == st.trail
    ensures PendingBeyond(s.side, Reach(s, st, c).exits, Favorable(s.side, c))
  {
    var seen := Excursion(s, st, c);
    assert seen == st.(mfe := seen.mfe);
    FillTargetsKeepsLock(s, seen, c);
  }

  lemma {:induction false} HarvestKeepsLock(s: Setup, st: State, c: Candle)
    requires Ready(s) && MakerIsCheaper(s) && WellFormed(c) && Locked(s, st)
    requires Gain(s.side, c.close, st.trail.price) >= 0.0
    ensures KeepsLock(s, st, c, Harvest(s, st, c))
  {
    ReachKeepsLock(s, st, c);
    var left := Reach(s, st, c);
    if left.pos.qty <= 0.0 {
      LiquidationRealizesValue(s, left, st.trail.price);
    } else {
      BetterPriceSellsForMore(s, left.pos, c.close, st.trail.price);
      LiquidationRealizesValue(s, left, c.close);
      TrailKeepsLock(s, left, c);
    }
  }

  lemma {:induction false} ProceedKeepsLock(s: Setup, st: State, c: Candle)
    requires Ready(s) && MakerIsCheaper(s) && WellFormed(c) && Locked(s, st)
    requires Gain(s.side, c.close, st.trail.price) >= 0.0
    ensures KeepsLock(s, st, c, Proceed(s, st, c))
  {
    var trim := Trim(s, st, c);
    SaleBeyondTrailKeepsLock(s, st.pos, trim, c.close, s.terms.takerFee, st.trail.price);
    var left := st.(pos := ClosePart(s.side, st.pos, trim, c.close, s.terms.takerFee));
    BetterPriceSellsForMore(s, left.pos, c.close, st.trail.price);
    if !(trim > 0.0) && left.legs.reclaimedAt != Some(c.time) {
      HarvestKeepsLock(s, left, c);
    }
  }

  /** A later candle either exits with at least 0.05R or keeps the lock, never moving the trail back. */
  lemma {:induction false} StepKeepsLock(s: Setup, st: State, c: Candle)
    requires Ready(s) && MakerIsCheaper(s) && WellFormed(c) && Locked(s, st) && !s.terms.useEvents
    ensures KeepsLock(s, st, c, Step(s, st, c))
  {
    var protection := Protection(s, st).0;
    assert Gain(s.side, protection, st.trail.price) >= 0.0;
    BetterPriceSellsForMore(s, st.pos, protection, st.trail.price);
    LiquidationRealizesValue(s, st, protection);
    if !Touched(s, c, protection) {
      ProceedKeepsLock(s, st, c);
    }
  }

  lemma {:induction false} RunKeepsLock(s: Setup, st: State, candles: seq<Candle>, i: nat)
    requires Ready(s) && MakerIsCheaper(s) && Locked(s, st) && !s.terms.useEvents
    requires Playable(candles) && i <= |candles|
    requires i == |candles| ==> LiquidationValue(s, st.pos, candles[i - 1].close) >= LOCKED_R
    ensures Run(s, st, candles, i).state.pos.realized >= LOCKED_R
    decreases |candles| - i
  {
    if i == |candles| {
      LiquidationRealizesValue(s, st, candles[i - 1].close);
    } else {
      StepKeepsLock(s, st, candles[i]);
      var next := Step(s, st, candles[i]);
      if next.Running? {
        RunKeepsLock(s, next.state, candles, i + 1);
      }
    }
  }

  // ----- from arming to the end of the run

  /** The candle that arms the trail leaves a locked state, provided its anchor clears the floor. */
  lemma {:induction false} HarvestArmsLock(s: Setup, st: State, c: Candle)
    requires Ready(s) && Sound(s, st) && WellFormed(c) && TargetsAhead(s.side, st.pos.avg, st.exits) && !st.trail.armed
    requires Harvest(s, st, c).Running? && Harvest(s, st, c).state.trail.armed
    requires
      var armed := Harvest(s, st, c).state;
      armed.pos.qty > 0.0 ==> Gain(s.side, armed.trail.peak, RequiredFloor(s, armed.pos)) >= 0.0
    ensures Locked(s, Harvest(s, st, c).state)
  {
    var seen := Excursion(s, st, c);
    FreezeSetsTargetsAhead(s, st);
    assert TargetsAhead(s.side, seen.pos.avg, seen.exits);
    assert seen.exits.frozen;
    TargetsLeftAreBeyond(s, seen, c);
    var left := FillTargets(s, seen, c);
    var anchor := Activation(s, c);
    assert Harvest(s, st, c).state == left.(trail := ArmTrail(s, left.pos, anchor));
    ArmedTrailLocks(s, left.pos, anchor);
  }

  /** The armed trail's anchor clears the price at which 0.05R is left. */
  predicate ClearsFloor(s: Setup, armed: State)
    requires Ready(s)
  {
    armed.pos.qty > 0.0 && Gain(s.side, armed.trail.peak, RequiredFloor(s, armed.pos)) >= 0.0
  }

  lemma {:induction false} StepArmsLock(s: Setup, st: State, c: Candle)
    requires Ready(s) && Sound(s, st) && WellFormed(c) && Guarded(s, st) && !st.trail.armed && !s.terms.useEvents
    requires Step(s, st, c).Running? && Step(s, st, c).state.trail.armed && ClearsFloor(s, Step(s, st, c).state)
    ensures Locked(s, Step(s, st, c).state)
  {
    FillLegsIsGuarded(s, st, c);
    var entered := FillLegs(s, st, c);
    assert !entered.trail.armed;
    var trim := Trim(s, entered, c);
    var left := entered.(pos := ClosePart(s.side, entered.pos, trim, c.close, s.terms.takerFee));
    HarvestArmsLock(s, left, c);
  }

  lemma {:induction false} GuardedAfter(s: Setup, candles: seq<Candle>, k: nat)
    requires Ready(s) && Playable(candles) && 0 < k <= |candles| && !s.terms.useEvents
    requires After(s, candles, k).Some? && Guarded(s, Initial(s))
    ensures Guarded(s, After(s, candles, k).value)
  {
    var before := After(s, candles, k - 1).value;
    if k > 1 {
      GuardedAfter(s, candles, k - 1);
    }
    NextIsGuarded(s, before, candles[k - 1]);
  }

  lemma {:induction false} AfterIsGuarded(s: Setup, candles: seq<Candle>, k: nat)
    requires Ready(s) && Playable(candles) && k <= |candles| && !s.terms.useEvents
    requires After(s, candles, k).Some?
    ensures Guarded(s, After(s, candles, k).value)
  {
    InitialIsGuarded(s);
    if k > 0 {
      GuardedAfter(s, candles, k);
    }
  }

  /**
   Locked profit: without lifecycle events and with a maker fee no higher than the taker fee, a
   run whose trail was armed by candle `k` at an anchor that clears the required floor returns at
   least 0.05R after all fees, whatever the later candles are and however it exits on them.
   */
  lemma {:induction false} LockedProfit(s: Setup, candles: seq<Candle>, k: nat)
    requires Ready(s) && Playable(candles) && !s.terms.useEvents && MakerIsCheaper(s)
    requires k + 1 < |candles|
    requires After(s, candles, k).Some? && !After(s, candles, k).value.trail.armed
    requires After(s, candles, k + 1).Some? && After(s, candles, k + 1).value.trail.armed
    requires ClearsFloor(s, After(s, candles, k + 1).value)
    ensures Replay(s, candles).state.pos.realized >= LOCKED_R
  {
    AfterIsGuarded(s, candles, k);
    StepArmsLock(s, After(s, candles, k).value, candles[k]);
    ReplayFrom(s, candles, k + 1);
    RunKeepsLock(s, After(s, candles, k + 1).value, candles, k + 1);
  }
}
