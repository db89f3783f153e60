/** The loss cap under reclaim, where the third leg may fill far from its level: exactly when the cap still holds. */
module ReplayReclaim {
  import opened Wrappers
  import opened Arithmetic
  import opened Trading
  import opened ReplayModel
  import opened ReplayRisk
  import opened ReplayTrail
  import opened ReplayCaps
  import opened ReplayCapRuns

  // ----- runs with a common beginning

  lemma {:induction false} NextAgrees(s: Setup, a: seq<Candle>, b: seq<Candle>, k: nat)
    requires Ready(s) && Playable(a) && Playable(b) && k < |a| && a <= b
    ensures k == 0 || After(s, a, k) == After(s, b, k) ==> After(s, a, k + 1) == After(s, b, k + 1)
  {
  }

  /** Later candles do not change the state after the first ones. */
  lemma {:induction false} AfterAgrees(s: Setup, a: seq<Candle>, b: seq<Candle>, k: nat)
    requires Ready(s) && Playable(a) && Playable(b) && 0 < k <= |a| && a <= b
    ensures After(s, a, k) == After(s, b, k)
  {
    if k > 1 {
      AfterAgrees(s, a, b, k - 1);
    }
    NextAgrees(s, a, b, k - 1);
  }

  lemma {:induction false} SameFill(s: Setup, a: seq<Candle>, b: seq<Candle>, k: nat)
    requires Ready(s) && Playable(a) && Playable(b) && k < |a| && a <= b && FillsAt(s, a, k)
    ensures FillsAt(s, b, k) && Filled(s, b, k) == Filled(s, a, k)
  {
    if k > 0 {
      AfterAgrees(s, a, b, k);
    }
  }

  /** The run on these candles ends at minus the cap or better. */
  ghost predicate EndsWithin(s: Setup, cap: real, candles: seq<Candle>)
    requires Ready(s)
  {
    Playable(candles) ==> Replay(s, candles).state.pos.realized >= -cap
  }

  // ----- a candle that stands still just beyond the stop

  /** A distance smaller than five given ones. */
  lemma {:induction false} Below(a: real, b: real, c: real, d: real, e: real) returns (small: real)
    requires a > 0.0 && b > 0.0 && c > 0.0 && d > 0.0 && e > 0.0
    ensures 0.0 < small && small < a && small < b && small < c && small < d && small < e
  {
    small := Min(a, Min(b, Min(c, Min(d, e)))) / 2.0;
  }

  /** Two still candles that reach the same targets sell the same. */
  lemma {:induction false} SameSales(s: Setup, st: State, p: real, q: real, time: int, i: nat)
    requires Sound(s, st) && st.exits.frozen && i <= 3
    requires
      forall j :: i <= j < 3 ==>
        (Gain(s.side, p, st.exits.prices[j]) >= 0.0 <==> Gain(s.side, q, st.exits.prices[j]) >= 0.0)
    ensures SellFrom(s, st, Still(time, p), i) == SellFrom(s, st, Still(0, q), i)
    decreases 3 - i
  {
    if i < 3 {
      assert FillTarget(s, st, Still(time, p), i) == FillTarget(s, st, Still(0, q), i);
      FillTargetExits(s, st, Still(time, p), i);
      SameSales(s, FillTarget(s, st, Still(time, p), i), p, q, time, i + 1);
    }
  }

  lemma {:induction false} SmallProduct(qty: real, step: real, net: real, room: real)
    requires qty >= 0.0 && step > 0.0 && 0.0 < net < 2.0 && room > 0.0 && step < room / (2.0 * qty + 1.0)
    ensures Value(qty, step) * net < room
  {
    var product, scale := Value(qty, step), 2.0 * qty + 1.0;
    var bound := room / scale;
    MulNonNegative(qty, step);
    DivTimes(room, scale);
    MulStrict(step, bound, scale);
    assert step * scale == 2.0 * product + step;
    MulMono(net, 2.0, product);
    assert bound * scale == room;
    assert step * scale < room;
    assert 2.0 * product < room;
    assert net * product <= 2.0 * product;
    assert net * product < room;
  }

  /** Moving the price by a small step changes what a position is worth by little. */
  lemma {:induction false} SmallStepSmallGain(s: Setup, pos: Position, price: real, step: real, room: real)
    requires pos.qty >= 0.0 && 0.0 <= s.terms.takerFee < 1.0 && step > 0.0 && room > 0.0
    requires step < room / (2.0 * pos.qty + 1.0)
    ensures LiquidationValue(s, pos, Ahead(s.side, price, step)) < LiquidationValue(s, pos, price) + room
  {
    var net := if s.side.Long? then 1.0 - s.terms.takerFee else 1.0 + s.terms.takerFee;
    SmallProduct(pos.qty, step, net, room);
    assert LiquidationValue(s, pos, Ahead(s.side, price, step)) - LiquidationValue(s, pos, price)
        == Value(pos.qty, step) * net;
  }

  // ----- the candle after the fill

  /** The position waits on the filling candle. */
  lemma {:induction false} ReclaimWaits(s: Setup, st: State, c: Candle)
    requires Ready(s) && Sound(s, st) && WellFormed(c) && !s.terms.useEvents && s.terms.reclaim && s.terms.trimCap.None?
    requires Entered(s, st, c) && !Touched(s, c, st.legs.protective)
    ensures React(s, st, c) == Running(st)
  {
    assert st.(pos := ClosePart(s.side, st.pos, 0.0, c.close, s.terms.takerFee)) == st;
  }

  /** A still candle at `price` whose first target it reached: the targets it reached are sold, nothing else. */
  lemma {:induction false} StillReaches(s: Setup, st: State, time: int, price: real)
    requires Ready(s) && Sound(s, st) && !st.exits.frozen && price > 0.0
    requires Gain(s.side, price, Freeze(s, st).exits.prices[0]) >= 0.0
    ensures Reach(s, st, Still(time, price)).pos == FillTargets(s, Freeze(s, st), Still(time, price)).pos
    ensures Reach(s, st, Still(time, price)).legs == FillTargets(s, Freeze(s, st), Still(time, price)).legs
  {
    var c := Still(time, price);
    var r1 := TargetRs(s, st.pos.avg)[0];
    var d := Abs(st.pos.avg - s.stop);
    assert Gain(s.side, price, st.pos.avg) >= r1 * d by {
      assert Value(r1, d) == r1 * d;
    }
    DivAtMost(Gain(s.side, price, st.pos.avg), d, r1);
    assert RValue(s, st.pos.avg, price) >= r1;
    var seen := Excursion(s, st, c);
    assert seen == Freeze(s, st).(mfe := seen.mfe);
  }

  /** Ending on a still candle realizes what is left there, whichever exit ends it. */
  lemma {:induction false} StillEnds(s: Setup, st: State, candles: seq<Candle>, i: nat, time: int, price: real)
    requires Ready(s) && Sound(s, st) && !s.terms.useEvents && s.terms.trimCap.None?
    requires st.legs.second && st.legs.third && !st.exits.frozen
    requires price > 0.0 && Gain(s.side, price, st.legs.protective) > 0.0 && st.legs.reclaimedAt != Some(time)
    requires Playable(candles) && i + 1 == |candles| && candles[i] == Still(time, price)
    requires Gain(s.side, price, Freeze(s, st).exits.prices[0]) >= 0.0
    ensures
      var sold := FillTargets(s, Freeze(s, st), Still(time, price));
      Run(s, st, candles, i).state.pos.realized == LiquidationValue(s, sold.pos, price)
  {
    var c := Still(time, price);
    NoMoreEntries(s, st, c);
    StillReaches(s, st, time, price);
    var left := Reach(s, st, c);
    assert st.(pos := ClosePart(s.side, st.pos, 0.0, c.close, s.terms.takerFee)) == st;
    assert Step(s, st, c) == Conclude(s, left, c);
    LiquidationRealizesValue(s, left, price);
    if Step(s, st, c).Running? {
      assert Step(s, st, c).state.pos == left.pos;
      LiquidationRealizesValue(s, Step(s, st, c).state, price);
    }
  }

  // ----- the losing continuation

  /** Room to step beyond the stop without reaching another target. */
  function Gap(s: Setup, stop: real, target: real): real {
    if Gain(s.side, stop, target) >= 0.0 then 1.0 else Gain(s.side, target, stop)
  }

  /** A small step beyond the stop reaches exactly the targets short of it. */
  lemma {:induction false} StepReachesSame(s: Setup, stop: real, target: real, step: real)
    requires 0.0 < step < Gap(s, stop, target)
    ensures Gain(s.side, Ahead(s.side, stop, step), target) >= 0.0 <==> Gain(s.side, stop, target) >= 0.0
  {
  }

  /** Early sales happen only if the first target lies short of the stop. */
  lemma {:induction false} EarlySalesStartFirst(s: Setup, st: State)
    requires Ready(s) && Sound(s, st) && !st.exits.frozen && RisingTargets(s)
    ensures
      || Gain(s.side, st.legs.protective, Freeze(s, st).exits.prices[0]) >= 0.0
      || EarlyValue(s, st) == LiquidationValue(s, st.pos, st.legs.protective)
  {
    var stop, fixed := st.legs.protective, Freeze(s, st);
    FreezeRises(s, st);
    SellFromStart(s, fixed, Still(0, stop));
    if Gain(s.side, stop, fixed.exits.prices[0]) < 0.0 {
      NoneShort(s, fixed, stop, 0);
    }
  }

  /** A price just beyond the stop at which the early targets sell and the rest is worth too little. */
  lemma {:induction false} LosingPrice(s: Setup, st: State, cap: real, time: int) returns (price: real)
    requires Ready(s) && Sound(s, st) && !st.exits.frozen && RisingTargets(s)
    requires TargetsAhead(s.side, st.pos.avg, Freeze(s, st).exits)
    requires LiquidationValue(s, st.pos, st.legs.protective) >= -cap > EarlyValue(s, st)
    requires s.side.Short? ==> st.legs.protective > 0.0
    ensures price > 0.0 && Gain(s.side, price, st.legs.protective) > 0.0
    ensures Gain(s.side, price, Freeze(s, st).exits.prices[0]) >= 0.0
    ensures
      var sold := FillTargets(s, Freeze(s, st), Still(time, price));
      LiquidationValue(s, sold.pos, price) < -cap
  {
    var stop, fixed := st.legs.protective, Freeze(s, st);
    var prices := fixed.exits.prices;
    var early := FillTargets(s, fixed, Still(0, stop));
    EarlySalesStartFirst(s, st);
    assert Gain(s.side, prices[0], st.pos.avg) > 0.0;
    var room := -cap - EarlyValue(s, st);
    DivPositive(room, 2.0 * early.pos.qty + 1.0);
    var step := Below(Gap(s, stop, prices[0]), Gap(s, stop, prices[1]), Gap(s, stop, prices[2]),
                      if s.side.Long? then 1.0 else stop, room / (2.0 * early.pos.qty + 1.0));
    price := Ahead(s.side, stop, step);
    StepReachesSame(s, stop, prices[0], step);
    StepReachesSame(s, stop, prices[1], step);
    StepReachesSame(s, stop, prices[2], step);
    SameSales(s, fixed, price, stop, time, 0);
    SellFromStart(s, fixed, Still(time, price));
    SellFromStart(s, fixed, Still(0, stop));
    SmallStepSmallGain(s, early.pos, stop, step, room);
  }

  /**
   The condition, on the filling candle: it stops the position out at once, or selling the targets short of the stop
   and stopping out the rest would leave at least minus the cap.
   */
  ghost predicate CapIsSafe(s: Setup, st: State, c: Candle)
    requires Ready(s) && Sound(s, st) && s.terms.lossCap.Some?
  {
    Touched(s, c, st.legs.protective) || EarlyValue(s, st) >= -s.terms.lossCap.value
  }

  /** The options of this section; the rejected combination with a trim cap is left out. */
  predicate ReclaimTerms(s: Setup) {
    && CapTerms(s) && RisingTargets(s)
    && s.terms.reclaim && s.terms.lossCap.Some? && s.terms.trimCap.None?
  }

  lemma {:induction false} LosingCandle(s: Setup, st: State, last: Candle) returns (c: Candle)
    requires Ready(s) && Sound(s, st) && WellFormed(last) && ReclaimTerms(s)
    requires Entered(s, st, last) && !CapIsSafe(s, st, last)
    ensures React(s, st, last) == Running(st) && WellFormed(c)
    ensures
      forall candles, i: nat :: EndsOn(candles, i, c) ==>
        Run(s, st, candles, i).state.pos.realized < -s.terms.lossCap.value
  {
    ReclaimWaits(s, st, last);
    FreezeSetsTargetsAhead(s, st);
    var price := LosingPrice(s, st, s.terms.lossCap.value, last.time + 1);
    c := Still(last.time + 1, price);
    forall candles, i: nat | EndsOn(candles, i, c)
      ensures Run(s, st, candles, i).state.pos.realized < -s.terms.lossCap.value
    {
      StillEnds(s, st, candles, i, last.time + 1, price);
    }
  }

  /** Candle `i` is `c`, and the last. */
  ghost predicate EndsOn(candles: seq<Candle>, i: nat, c: Candle) {
    Playable(candles) && i + 1 == |candles| && candles[i] == c
  }

  lemma {:induction false} LosingRun(s: Setup, path: seq<Candle>, candles: seq<Candle>, k: nat, c: Candle)
    requires Ready(s) && Playable(path) && k + 1 == |path| && FillsAt(s, path, k)
    requires EndsOn(candles, k + 1, c) && path <= candles
    requires React(s, Filled(s, path, k), path[k]) == Running(Filled(s, path, k))
    ensures Replay(s, candles) == Run(s, Filled(s, path, k), candles, k + 1)
  {
    SameFill(s, path, candles, k);
    RunFromFill(s, candles, k);
  }

  lemma {:induction false} SafeRun(s: Setup, path: seq<Candle>, candles: seq<Candle>, k: nat)
    requires Ready(s) && Playable(path) && k + 1 == |path| && FillsAt(s, path, k) && ReclaimTerms(s)
    requires Playable(candles) && path <= candles
    requires CapIsSafe(s, Filled(s, path, k), path[k])
    ensures Replay(s, candles).state.pos.realized >= -s.terms.lossCap.value
  {
    SameFill(s, path, candles, k);
    FilledLoss(s, candles, k);
  }

  /**
   The loss cap under reclaim, exactly: once the last candle of `path` filled the third leg, every continuation of the
   run ends at minus the cap or better if and only if that candle is safe.
   */
  lemma {:induction false} ReclaimedLoss(s: Setup, path: seq<Candle>, k: nat)
    requires Ready(s) && ReclaimTerms(s)
    requires Playable(path) && k + 1 == |path| && FillsAt(s, path, k)
    ensures
      (forall rest :: EndsWithin(s, s.terms.lossCap.value, path + rest)) <==> CapIsSafe(s, Filled(s, path, k), path[k])
  {
    if CapIsSafe(s, Filled(s, path, k), path[k]) {
      forall rest ensures EndsWithin(s, s.terms.lossCap.value, path + rest) {
        if Playable(path + rest) {
          SafeRun(s, path, path + rest, k);
        }
      }
    } else {
      FilledIsEntered(s, path, k);
      var c := LosingCandle(s, Filled(s, path, k), path[k]);
      assert EndsOn(path + [c], k + 1, c);
      LosingRun(s, path, path + [c], k, c);
      assert !EndsWithin(s, s.terms.lossCap.value, path + [c]);
    }
  }
}
