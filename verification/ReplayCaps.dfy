/** The two ways of limiting what the third leg adds to the loss: a closer stop, or selling part at once. */
module ReplayCaps {
  import opened Wrappers
  import opened Arithmetic
  import opened Trading
  import opened ReplayModel
  import opened ReplayRisk
  import opened ReplayTrail

  /** Selling everything at the cap stop leaves exactly minus the cap, after the exit fee. */
  lemma {:induction false} CapStopLeavesCap(s: Setup, pos: Position, cap: real)
    requires pos.qty > 0.0 && 0.0 <= s.terms.takerFee < 1.0
    ensures LiquidationValue(s, pos, CapStop(s, pos.qty, pos.avg, pos.realized, cap)) == -cap
  {
    var stop := CapStop(s, pos.qty, pos.avg, pos.realized, cap);
    var net := if s.side.Long? then 1.0 - s.terms.takerFee else 1.0 + s.terms.takerFee;
    MulPositive(pos.qty, net);
    FloorValue(s, pos, stop, net);
    if s.side.Long? {
      DivTimes(-cap - pos.realized + Value(pos.qty, pos.avg), pos.qty * net);
    } else {
      var top := -cap - pos.realized - Value(pos.qty, pos.avg);
      var bottom := pos.qty * (-1.0 - s.terms.takerFee);
      assert bottom == -(pos.qty * net);
      DivTimes(top, bottom);
      assert stop * (pos.qty * net) == -top;
    }
  }

  /**
   With a loss cap, the stop that protects the position once the third leg filled limits the whole
   position's loss to the cap after all fees, and is never looser than it was.
   */
  lemma {:induction false} LossCapHolds(s: Setup, pos: Position, legs: Legs, time: int)
    requires pos.qty > 0.0 && 0.0 <= s.terms.takerFee < 1.0 && s.terms.lossCap.Some?
    ensures LiquidationValue(s, pos, ThirdFilled(s, pos, legs, time).protective) >= -s.terms.lossCap.value
    ensures Gain(s.side, ThirdFilled(s, pos, legs, time).protective, legs.protective) >= 0.0
  {
    var stop := CapStop(s, pos.qty, pos.avg, pos.realized, s.terms.lossCap.value);
    CapStopLeavesCap(s, pos, s.terms.lossCap.value);
    BetterPriceSellsForMore(s, pos, ThirdFilled(s, pos, legs, time).protective, stop);
  }

  /** The engine's per-unit amounts add up to the liquidation value. */
  lemma {:induction false} PerUnitLiquidation(s: Setup, pos: Position, price: real)
    ensures LiquidationValue(s, pos, price)
         == pos.realized + Value(pos.qty, Gain(s.side, price, pos.avg) - Value(price, s.terms.takerFee))
  {
  }

  /** What selling `amount` now instead of at the stop changes. */
  lemma {:induction false} EarlySale(s: Setup, pos: Position, amount: real, price: real, stop: real)
    requires 0.0 < amount <= pos.qty
    ensures
      LiquidationValue(s, ClosePart(s.side, pos, amount, price, s.terms.takerFee), stop)
        == LiquidationValue(s, pos, stop)
           + Value(amount, (Gain(s.side, price, pos.avg) - Value(price, s.terms.takerFee))
                           - (Gain(s.side, stop, pos.avg) - Value(stop, s.terms.takerFee)))
  {
    var left := ClosePart(s.side, pos, amount, price, s.terms.takerFee);
    var now := Gain(s.side, price, pos.avg) - Value(price, s.terms.takerFee);
    var later := Gain(s.side, stop, pos.avg) - Value(stop, s.terms.takerFee);
    PerUnitLiquidation(s, pos, stop);
    PerUnitLiquidation(s, left, stop);
    SaleProceeds(s.side, amount, price, pos.avg, s.terms.takerFee);
    Exchange(pos.qty, amount, now, later);
  }

  lemma {:induction false} SaleProceeds(side: Side, amount: real, price: real, avg: real, rate: real)
    ensures Value(amount, Gain(side, price, avg)) - Fee(amount, price, rate)
         == Value(amount, Gain(side, price, avg) - Value(price, rate))
  {
  }

  lemma {:induction false} Exchange(qty: real, amount: real, now: real, later: real)
    ensures Value(amount, now) + Value(qty - amount, later) == Value(qty, later) + Value(amount, now - later)
  {
  }

  /**
   The risk trim: if it sells only part of the position, a stop-out of what is left loses exactly the cap;
   if even selling everything is not enough, everything is sold; and it sells nothing when the stop-out is
   already within the cap.
   */
  lemma {:induction false} TrimReachesCap(s: Setup, st: State, c: Candle)
    requires st.pos.qty > 0.0 && s.terms.trimCap.Some? && st.legs.trimAt == Some(c.time)
    ensures
      var amount := Trim(s, st, c);
      var left := ClosePart(s.side, st.pos, amount, c.close, s.terms.takerFee);
      && 0.0 <= amount <= st.pos.qty
      && (0.0 < amount < st.pos.qty ==> LiquidationValue(s, left, st.legs.protective) == -s.terms.trimCap.value)
      && (amount == st.pos.qty ==> left.qty == 0.0)
      && (LiquidationValue(s, st.pos, st.legs.protective) >= -s.terms.trimCap.value ==> amount == 0.0)
  {
    var cap := s.terms.trimCap.value;
    var stopOut := Gain(s.side, st.legs.protective, st.pos.avg) - Value(st.legs.protective, s.terms.takerFee);
    var closeOut := Gain(s.side, c.close, st.pos.avg) - Value(c.close, s.terms.takerFee);
    var projected := st.pos.realized + Value(st.pos.qty, stopOut);
    var improvement := closeOut - stopOut;
    var amount := Trim(s, st, c);
    PerUnitLiquidation(s, st.pos, st.legs.protective);
    if projected < -cap && improvement > 0.0 {
      var missing := -cap - projected;
      DivPositive(missing, improvement);
      DivTimes(missing, improvement);
      assert amount == Min(st.pos.qty, missing / improvement);
      EarlySale(s, st.pos, amount, c.close, st.legs.protective);
    }
  }

  // ----- a position under its cap

  /** The targets get further from the entry. */
  predicate RisingTargets(s: Setup) {
    s.terms.targetRs.0 <= s.terms.targetRs.1 <= s.terms.targetRs.2
  }

  /** A candle that stands still at one price. */
  function Still(time: int, price: real): Candle {
    Candle(time, price, price, price)
  }

  /** What is left if every target at or short of the protective stop is sold and the rest is stopped out there. */
  function EarlyValue(s: Setup, st: State): real
    requires Ready(s) && Sound(s, st)
  {
    var sold := FillTargets(s, Freeze(s, st), Still(0, st.legs.protective));
    LiquidationValue(s, sold.pos, st.legs.protective)
  }

  /** Fixing the exits puts no target on the losing side of the stop, or the sales there still leave minus the cap. */
  ghost predicate NoEarlyLoss(s: Setup, cap: real, st: State)
    requires Ready(s) && Sound(s, st)
  {
    || Gain(s.side, st.pos.avg, st.legs.protective) >= 0.0
    || (s.terms.trimCap.None? && RisingTargets(s) && EarlyValue(s, st) >= -cap)
  }

  /** The pending targets lie at or beyond `price`. */
  ghost predicate PendingFrom(side: Side, exits: Exits, price: real)
    requires |exits.prices| == |exits.qtys|
  {
    forall i :: 0 <= i < |exits.qtys| && exits.qtys[i] > 0.0 ==> Gain(side, exits.prices[i], price) >= 0.0
  }

  /** All legs are in, a stop-out leaves at least minus the cap, and no target can undo that. */
  ghost predicate CapHeld(s: Setup, cap: real, st: State)
    requires Ready(s) && Sound(s, st)
  {
    && st.legs.second && st.legs.third
    && LiquidationValue(s, st.pos, st.legs.protective) >= -cap
    && TargetsAhead(s.side, st.pos.avg, st.exits)
    && if st.exits.frozen then PendingFrom(s.side, st.exits, st.legs.protective) else NoEarlyLoss(s, cap, st)
  }

  // ----- target sales

  /** A target at or beyond the stop never lowers what a stop-out leaves. */
  lemma {:induction false} TargetKeepsValue(s: Setup, st: State, c: Candle, i: nat)
    requires Ready(s) && MakerIsCheaper(s) && Sound(s, st) && st.exits.frozen && WellFormed(c) && i < 3
    requires TargetsAhead(s.side, st.pos.avg, st.exits)
    requires st.exits.qtys[i] > 0.0 ==> Gain(s.side, st.exits.prices[i], st.legs.protective) >= 0.0
    ensures
      var r := FillTarget(s, st, c, i);
      && LiquidationValue(s, r.pos, st.legs.protective) >= LiquidationValue(s, st.pos, st.legs.protective)
      && r.legs == st.legs
  {
    var target := st.exits.prices[i];
    if st.exits.qtys[i] > 0.0 && Gain(s.side, Favorable(s.side, c), target) >= 0.0 {
      assert Gain(s.side, target, st.pos.avg) > 0.0;
      SaleBeyondTrailKeepsLock(s, st.pos, st.exits.qtys[i], target, s.terms.makerFee, st.legs.protective);
    }
  }

  /** The target fills from index `i` on. */
  function SellFrom(s: Setup, st: State, c: Candle, i: nat): (r: State)
    requires Sound(s, st) && st.exits.frozen && i <= 3
    ensures Sound(s, r) && r.exits.frozen
    decreases 3 - i
  {
    if i == 3 then st else SellFrom(s, FillTarget(s, st, c, i), c, i + 1)
  }

  /** Targets at or beyond the stop, from index `i` on. */
  lemma {:induction false} LaterTargetsKeepValue(s: Setup, st: State, c: Candle, i: nat)
    requires Ready(s) && MakerIsCheaper(s) && Sound(s, st) && st.exits.frozen && WellFormed(c) && i <= 3
    requires TargetsAhead(s.side, st.pos.avg, st.exits)
    requires
      forall j :: i <= j < 3 && st.exits.qtys[j] > 0.0 ==> Gain(s.side, st.exits.prices[j], st.legs.protective) >= 0.0
    ensures
      var stop := st.legs.protective;
      LiquidationValue(s, SellFrom(s, st, c, i).pos, stop) >= LiquidationValue(s, st.pos, stop)
    decreases 3 - i
  {
    if i < 3 {
      TargetKeepsValue(s, st, c, i);
      FillTargetExits(s, st, c, i);
      LaterTargetsKeepValue(s, FillTarget(s, st, c, i), c, i + 1);
    }
  }

  ghost predicate RisingPrices(side: Side, prices: seq<real>)
    requires |prices| == 3
  {
    Gain(side, prices[1], prices[0]) >= 0.0 && Gain(side, prices[2], prices[1]) >= 0.0
  }

  /**
   With rising targets, a candle beyond the stop sells the targets short of it first, exactly as a candle at the stop
   would, and what else it sells does no harm.
   */
  lemma {:induction false} EarlyTargetsFirst(s: Setup, st: State, c: Candle, i: nat)
    requires Ready(s) && MakerIsCheaper(s) && Sound(s, st) && st.exits.frozen && WellFormed(c) && i <= 3
    requires TargetsAhead(s.side, st.pos.avg, st.exits) && RisingPrices(s.side, st.exits.prices)
    requires Gain(s.side, Favorable(s.side, c), st.legs.protective) >= 0.0
    ensures
      var stop := st.legs.protective;
      LiquidationValue(s, SellFrom(s, st, c, i).pos, stop)
        >= LiquidationValue(s, SellFrom(s, st, Still(0, stop), i).pos, stop)
    decreases 3 - i
  {
    var stop := st.legs.protective;
    if i < 3 {
      if Gain(s.side, stop, st.exits.prices[i]) >= 0.0 {
        assert FillTarget(s, st, c, i) == FillTarget(s, st, Still(0, stop), i);
        FillTargetExits(s, st, c, i);
        EarlyTargetsFirst(s, FillTarget(s, st, c, i), c, i + 1);
      } else {
        LaterTargetsKeepValue(s, st, c, i);
        NoneShort(s, st, stop, i);
      }
    }
  }

  lemma {:induction false} NoneShort(s: Setup, st: State, price: real, i: nat)
    requires Sound(s, st) && st.exits.frozen && i <= 3
    requires forall j :: i <= j < 3 ==> Gain(s.side, price, st.exits.prices[j]) < 0.0
    ensures SellFrom(s, st, Still(0, price), i) == st
    decreases 3 - i
  {
    if i < 3 {
      assert FillTarget(s, st, Still(0, price), i) == st;
      NoneShort(s, st, price, i + 1);
    }
  }

  lemma {:induction false} SellFromStart(s: Setup, st: State, c: Candle)
    requires Sound(s, st) && st.exits.frozen
    ensures SellFrom(s, st, c, 0) == FillTargets(s, st, c)
  {
    var first := FillTarget(s, st, c, 0);
    var second := FillTarget(s, first, c, 1);
    assert SellFrom(s, second, c, 2) == SellFrom(s, FillTarget(s, second, c, 2), c, 3);
    assert SellFrom(s, first, c, 1) == SellFrom(s, second, c, 2);
  }

  // ----- freezing

  lemma {:induction false} RescaleRises(r: real, r': real, reached: real, last: real)
    requires r <= r' && reached >= 0.0 && last > 0.0
    ensures Rescale(r, reached, last) <= Rescale(r', reached, last)
  {
    MulMono(r, r', reached);
    DivTimes(r * reached, last);
    DivAtMost(r * reached, last, Rescale(r', reached, last));
    DivTimes(r' * reached, last);
  }

  lemma {:induction false} TargetRsRise(s: Setup, avg: real)
    requires Ready(s) && RisingTargets(s) && avg != s.stop
    ensures TargetRs(s, avg)[0] <= TargetRs(s, avg)[1] <= TargetRs(s, avg)[2]
  {
    var (r1, r2, r3) := s.terms.targetRs;
    if s.terms.traderTarget.Some? {
      var reached := RValue(s, avg, s.terms.traderTarget.value);
      if reached >= 0.5 {
        RescaleRises(r1, r2, reached, r3);
        RescaleRises(r2, r3, reached, r3);
      }
    }
  }

  lemma {:induction false} TargetPriceRises(s: Setup, avg: real, r: real, r': real)
    requires r <= r'
    ensures Gain(s.side, TargetPrice(s, avg, r'), TargetPrice(s, avg, r)) >= 0.0
  {
    MulMono(r, r', Abs(avg - s.stop));
    assert Value(r, Abs(avg - s.stop)) <= Value(r', Abs(avg - s.stop));
  }

  lemma {:induction false} FreezeRises(s: Setup, st: State)
    requires Ready(s) && Sound(s, st) && RisingTargets(s) && !st.exits.frozen
    ensures RisingPrices(s.side, Freeze(s, st).exits.prices)
  {
    TargetRsRise(s, st.pos.avg);
    var rs := TargetRs(s, st.pos.avg);
    TargetPriceRises(s, st.pos.avg, rs[0], rs[1]);
    TargetPriceRises(s, st.pos.avg, rs[1], rs[2]);
  }

  // ----- one candle

  /** A candle that stays beyond the protective stop. */
  predicate Clears(s: Setup, st: State, c: Candle) {
    Gain(s.side, Adverse(s.side, c), st.legs.protective) > 0.0
  }

  /** The targets of an untouched candle leave at least minus the cap and only targets beyond the stop. */
  lemma {:induction false} SalesKeepCap(s: Setup, cap: real, st: State, c: Candle)
    requires Ready(s) && MakerIsCheaper(s) && Sound(s, st) && WellFormed(c) && Clears(s, st, c) && CapHeld(s, cap, st)
    ensures CapHeld(s, cap, FillTargets(s, Freeze(s, st), c)) && FillTargets(s, Freeze(s, st), c).legs == st.legs
  {
    var fixed := Freeze(s, st);
    FreezeSetsTargetsAhead(s, st);
    SellFromStart(s, fixed, c);
    TargetsLeftAreBeyond(s, fixed, c);
    if !st.exits.frozen && Gain(s.side, st.pos.avg, st.legs.protective) < 0.0 {
      FreezeRises(s, st);
      SellFromStart(s, fixed, Still(0, st.legs.protective));
      EarlyTargetsFirst(s, fixed, c, 0);
    } else {
      LaterTargetsKeepValue(s, fixed, c, 0);
    }
    SalesKeepLegs(s, fixed, c);
  }

  lemma {:induction false} ReachKeepsCap(s: Setup, cap: real, st: State, c: Candle)
    requires Ready(s) && MakerIsCheaper(s) && Sound(s, st) && WellFormed(c) && Clears(s, st, c) && CapHeld(s, cap, st)
    ensures CapHeld(s, cap, Reach(s, st, c)) && Reach(s, st, c).legs == st.legs
    ensures !Reach(s, st, c).exits.frozen ==> RValue(s, st.pos.avg, Activation(s, c)) < s.terms.trailAt
    ensures Reach(s, st, c).pos.avg == st.pos.avg
  {
    var seen := Excursion(s, st, c);
    var watched := st.(mfe := seen.mfe);
    assert CapHeld(s, cap, watched);
    if seen.exits.frozen {
      assert seen == Freeze(s, watched);
      SalesKeepCap(s, cap, watched, c);
      SalesKeepLegs(s, seen, c);
    }
  }

  /** What a candle leaves: a result within the cap, or the cap held and a close beyond the stop. */
  ghost predicate KeepsCap(s: Setup, cap: real, c: Candle, r: Outcome)
    requires Ready(s) && (r.Running? ==> Sound(s, r.state))
  {
    if r.Done? then r.state.pos.realized >= -cap
    else CapHeld(s, cap, r.state) && Gain(s.side, c.close, r.state.legs.protective) >= 0.0
  }

  /** Selling everything on the safe side of the stop realizes at least minus the cap. */
  lemma {:induction false} LiquidationKeepsCap(s: Setup, cap: real, st: State, price: real)
    requires Ready(s) && Sound(s, st) && LiquidationValue(s, st.pos, st.legs.protective) >= -cap
    requires Gain(s.side, price, st.legs.protective) >= 0.0
    ensures Liquidate(s, st, price).pos.realized >= -cap
  {
    LiquidationRealizesValue(s, st, price);
    BetterPriceSellsForMore(s, st.pos, price, st.legs.protective);
  }

  lemma {:induction false} HarvestKeepsCap(s: Setup, cap: real, st: State, c: Candle)
    requires Ready(s) && MakerIsCheaper(s) && Sound(s, st) && WellFormed(c) && Clears(s, st, c) && CapHeld(s, cap, st)
    ensures KeepsCap(s, cap, c, Harvest(s, st, c))
  {
    ReachKeepsCap(s, cap, st, c);
    var left := Reach(s, st, c);
    LiquidationKeepsCap(s, cap, left, c.close);
    if left.pos.qty <= 0.0 {
      LiquidationRealizesValue(s, left, left.legs.protective);
    } else if !TimeStopHits(s, left, c) {
      assert left.exits.frozen ==> Freeze(s, left) == left;
      assert Trail(s, left, c) == left.(trail := Trail(s, left, c).trail);
    }
  }

  lemma {:induction false} ProceedKeepsCap(s: Setup, cap: real, st: State, c: Candle)
    requires Ready(s) && MakerIsCheaper(s) && Sound(s, st) && WellFormed(c) && Clears(s, st, c) && CapHeld(s, cap, st)
    ensures KeepsCap(s, cap, c, Proceed(s, st, c))
  {
    var trim := Trim(s, st, c);
    var left := st.(pos := ClosePart(s.side, st.pos, trim, c.close, s.terms.takerFee));
    if s.terms.trimCap.None? {
      assert left == st;
    } else {
      SaleBeyondTrailKeepsLock(s, st.pos, trim, c.close, s.terms.takerFee, st.legs.protective);
      assert CapHeld(s, cap, left);
    }
    if !(trim > 0.0) && left.legs.reclaimedAt != Some(c.time) {
      HarvestKeepsCap(s, cap, left, c);
    }
  }

  lemma {:induction false} ReactKeepsCap(s: Setup, cap: real, st: State, c: Candle)
    requires Ready(s) && MakerIsCheaper(s) && !s.terms.useEvents && Sound(s, st) && WellFormed(c) && CapHeld(s, cap, st)
    ensures KeepsCap(s, cap, c, React(s, st, c))
  {
    var protection := Protection(s, st).0;
    assert Gain(s.side, protection, st.legs.protective) >= 0.0;
    if Touched(s, c, protection) {
      LiquidationKeepsCap(s, cap, st, protection);
    } else {
      ProceedKeepsCap(s, cap, st, c);
    }
  }

  /** With all legs in, no further entry happens. */
  lemma {:induction false} NoMoreEntries(s: Setup, st: State, c: Candle)
    requires Ready(s) && Sound(s, st) && WellFormed(c) && st.legs.second && st.legs.third
    ensures Step(s, st, c) == React(s, st, c)
  {
    assert FillLegs(s, st, c) == st;
  }

  lemma {:induction false} RunKeepsCap(s: Setup, cap: real, st: State, candles: seq<Candle>, i: nat)
    requires Ready(s) && MakerIsCheaper(s) && !s.terms.useEvents && Sound(s, st) && CapHeld(s, cap, st)
    requires Playable(candles) && i <= |candles|
    requires i == |candles| ==> Gain(s.side, candles[i - 1].close, st.legs.protective) >= 0.0
    ensures Run(s, st, candles, i).state.pos.realized >= -cap
    decreases |candles| - i
  {
    if i == |candles| {
      LiquidationKeepsCap(s, cap, st, candles[i - 1].close);
    } else {
      NoMoreEntries(s, st, candles[i]);
      ReactKeepsCap(s, cap, st, candles[i]);
      var next := Step(s, st, candles[i]);
      if next.Running? {
        RunKeepsCap(s, cap, next.state, candles, i + 1);
      }
    }
  }
}
