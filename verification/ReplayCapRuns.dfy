/** The two caps over whole runs: when a run whose third leg filled never ends below minus its cap. */
module ReplayCapRuns {
  import opened Wrappers
  import opened Arithmetic
  import opened Trading
  import opened ReplayModel
  import opened ReplayRisk
  import opened ReplayTrail
  import opened ReplayExits
  import opened ReplayCaps

  /** The levels get closer to the stop, so a candle that reaches the third has reached the second. */
  predicate DeeperThird(s: Setup) {
    Gain(s.side, s.level2, s.level3) >= 0.0
  }

  /** No lifecycle events, a maker fee no higher than the taker fee, and the third level beyond the second. */
  predicate CapTerms(s: Setup) {
    !s.terms.useEvents && MakerIsCheaper(s) && DeeperThird(s)
  }

  // ----- before the third leg

  /** The third leg is not in: the stop has not moved, and a leg that waits to be reclaimed follows the second. */
  ghost predicate Waiting(s: Setup, legs: Legs) {
    && !legs.third && legs.protective == s.stop
    && (legs.touchedAt.Some? ==> legs.second)
  }

  /** The third leg fills on this candle. */
  ghost predicate FillsThird(s: Setup, st: State, c: Candle)
    requires Ready(s) && Sound(s, st) && WellFormed(c)
  {
    !st.legs.third && FillLegs(s, st, c).legs.third
  }

  /** A position whose third leg just filled. */
  ghost predicate Entered(s: Setup, st: State, c: Candle) {
    && st.legs.third && st.legs.second && !st.exits.frozen && !st.trail.armed && st.pos.qty > 0.0
    && st.legs.trimAt == (if s.terms.trimCap.Some? then Some(c.time) else None)
    && (s.terms.reclaim ==> st.legs.reclaimedAt == Some(c.time))
    && (if s.terms.lossCap.None? then st.legs.protective == s.stop
        else LiquidationValue(s, st.pos, st.legs.protective) >= -s.terms.lossCap.value)
  }

  lemma {:induction false} AddThirdEnters(
    s: Setup, st: State, price: real, feeRate: real, legs: Legs, c: Candle)
    requires Ready(s) && Sound(s, st) && Waiting(s, st.legs) && !st.exits.frozen && st.legs.second
    requires price > 0.0 && Gain(s.side, price, s.stop) > 0.0
    requires legs == st.legs || legs == st.legs.(reclaimedAt := Some(c.time))
    requires s.terms.reclaim ==> legs.reclaimedAt == Some(c.time)
    ensures Entered(s, AddThird(s, st, price, feeRate, legs, c.time), c)
  {
    var r := AddThird(s, st, price, feeRate, legs, c.time);
    LegQtyRisks(s, s.terms.weights.2, price);
    AddIsSound(s, st.pos, LegQty(s, s.terms.weights.2, price), price, feeRate);
    if s.terms.lossCap.Some? {
      LossCapHolds(s, r.pos, legs, c.time);
    }
  }

  lemma {:induction false} SecondKeepsWaiting(s: Setup, st: State, c: Candle)
    requires Ready(s) && Sound(s, st) && Waiting(s, st.legs) && !st.exits.frozen
    ensures Waiting(s, FillSecond(s, st, c).legs) && (Touched(s, c, s.level2) ==> FillSecond(s, st, c).legs.second)
  {
  }

  lemma {:induction false} EntriesKeepWaiting(s: Setup, st: State, c: Candle)
    requires Ready(s) && Sound(s, st) && WellFormed(c) && DeeperThird(s) && Waiting(s, st.legs)
    ensures if FillsThird(s, st, c) then Entered(s, FillLegs(s, st, c), c) else Waiting(s, FillLegs(s, st, c).legs)
  {
    if !st.exits.frozen {
      SecondKeepsWaiting(s, st, c);
      var mid := FillSecond(s, st, c);
      assert Touched(s, c, s.level3) ==> Touched(s, c, s.level2);
      if s.terms.reclaim {
        if mid.legs.touchedAt.Some? && Reclaimed(s, c) {
          AddThirdEnters(s, mid, c.close, s.terms.takerFee, mid.legs.(reclaimedAt := Some(c.time)), c);
        }
      } else if Touched(s, c, s.level3) {
        AddThirdEnters(s, mid, s.level3, s.terms.makerFee, mid.legs, c);
      }
    }
  }

  /** What every state of a run keeps: it waits as long as the third leg is not in. */
  ghost predicate Underway(s: Setup, legs: Legs) {
    !legs.third ==> Waiting(s, legs)
  }

  lemma {:induction false} StepIsUnderway(s: Setup, st: State, c: Candle)
    requires Ready(s) && Sound(s, st) && WellFormed(c) && !s.terms.useEvents && DeeperThird(s) && Underway(s, st.legs)
    ensures Underway(s, Step(s, st, c).state.legs)
  {
    ReactKeepsLegs(s, FillLegs(s, st, c), c);
    if !st.legs.third {
      EntriesKeepWaiting(s, st, c);
    }
  }

  lemma {:induction false} NextIsUnderway(s: Setup, st: State, c: Candle)
    requires Ready(s) && Sound(s, st) && WellFormed(c) && !s.terms.useEvents && DeeperThird(s) && Underway(s, st.legs)
    ensures Next(s, st, c).Some? ==> Underway(s, Next(s, st, c).value.legs)
  {
    StepIsUnderway(s, st, c);
  }

  lemma {:induction false} AfterIsUnderway(s: Setup, candles: seq<Candle>, k: nat)
    requires Ready(s) && Playable(candles) && 0 < k <= |candles| && !s.terms.useEvents && DeeperThird(s)
    requires After(s, candles, k).Some?
    ensures Underway(s, After(s, candles, k).value.legs)
  {
    var before := After(s, candles, k - 1).value;
    if k > 1 {
      AfterIsUnderway(s, candles, k - 1);
    }
    NextIsUnderway(s, before, candles[k - 1]);
  }

  lemma {:induction false} RunIsUnderway(s: Setup, candles: seq<Candle>, k: nat)
    requires Ready(s) && Playable(candles) && k <= |candles| && !s.terms.useEvents && DeeperThird(s)
    requires After(s, candles, k).Some?
    ensures Underway(s, After(s, candles, k).value.legs)
  {
    if k > 0 {
      AfterIsUnderway(s, candles, k);
    }
  }

  // ----- the loss cap without reclaim

  /** The levels get closer and closer to the stop. */
  predicate OrderedLevels(s: Setup) {
    Gain(s.side, s.level1, s.level2) >= 0.0 && Gain(s.side, s.level2, s.level3) >= 0.0
  }

  /** Averaging in fills at or ahead of the third level keeps the average there. */
  lemma {:induction false} AddStaysAhead(s: Setup, pos: Position, qty: real, price: real, feeRate: real)
    requires pos.qty >= 0.0 && qty >= 0.0 && pos.qty + qty > 0.0
    requires Gain(s.side, pos.avg, s.level3) >= 0.0 && Gain(s.side, price, s.level3) >= 0.0
    ensures Gain(s.side, Add(pos, qty, price, feeRate).avg, s.level3) >= 0.0
  {
    AverageIsBetween(pos.avg, pos.qty, price, qty);
  }

  lemma {:induction false} EntriesStayAhead(s: Setup, st: State, c: Candle)
    requires Ready(s) && Sound(s, st) && WellFormed(c) && OrderedLevels(s) && !s.terms.reclaim
    requires Gain(s.side, st.pos.avg, s.level3) >= 0.0
    ensures Gain(s.side, FillLegs(s, st, c).pos.avg, s.level3) >= 0.0
  {
    if !st.exits.frozen {
      if !st.legs.second && Touched(s, c, s.level2) {
        LegQtyRisks(s, s.terms.weights.1, s.level2);
        AddStaysAhead(s, st.pos, LegQty(s, s.terms.weights.1, s.level2), s.level2, s.terms.makerFee);
      }
      var mid := FillSecond(s, st, c);
      if !mid.legs.third {
        LegQtyRisks(s, s.terms.weights.2, s.level3);
        AddStaysAhead(s, mid.pos, LegQty(s, s.terms.weights.2, s.level3), s.level3, s.terms.makerFee);
      }
    }
  }

  /**
   A third leg filled at its level reached that level on the same candle: a cap stop ahead of the average is hit at
   once, and any other stop has every target beyond it.
   */
  lemma {:induction false} FillAtLevelKeepsCap(s: Setup, st: State, c: Candle)
    requires Ready(s) && Sound(s, st) && WellFormed(c) && CapTerms(s) && OrderedLevels(s)
    requires s.terms.lossCap.Some? && !s.terms.reclaim && Waiting(s, st.legs) && FillsThird(s, st, c)
    requires Gain(s.side, st.pos.avg, s.level3) >= 0.0
    ensures KeepsCap(s, s.terms.lossCap.value, c, Step(s, st, c))
  {
    var cap := s.terms.lossCap.value;
    var entered := FillLegs(s, st, c);
    EntriesKeepWaiting(s, st, c);
    EntriesStayAhead(s, st, c);
    if Gain(s.side, entered.pos.avg, entered.legs.protective) >= 0.0 {
      ReactKeepsCap(s, cap, entered, c);
    } else {
      assert Protection(s, entered) == (entered.legs.protective, false);
      assert Touched(s, c, entered.legs.protective);
      LiquidationKeepsCap(s, cap, entered, entered.legs.protective);
    }
  }

  /** The states of such a run: before the third leg with the average ahead of its level, or under the cap. */
  ghost predicate OnTrack(s: Setup, st: State)
    requires Ready(s) && Sound(s, st) && s.terms.lossCap.Some?
  {
    if st.legs.third then CapHeld(s, s.terms.lossCap.value, st)
    else Waiting(s, st.legs) && Gain(s.side, st.pos.avg, s.level3) >= 0.0
  }

  ghost predicate StaysOnTrack(s: Setup, c: Candle, r: Outcome)
    requires Ready(s) && (r.Running? ==> Sound(s, r.state)) && s.terms.lossCap.Some?
  {
    if r.Done? then r.state.legs.third ==> r.state.pos.realized >= -s.terms.lossCap.value
    else
      && OnTrack(s, r.state)
      && (r.state.legs.third ==> Gain(s.side, c.close, r.state.legs.protective) >= 0.0)
  }

  lemma {:induction false} StepStaysOnTrack(s: Setup, st: State, c: Candle)
    requires Ready(s) && Sound(s, st) && WellFormed(c) && CapTerms(s) && OrderedLevels(s)
    requires s.terms.lossCap.Some? && !s.terms.reclaim && OnTrack(s, st)
    ensures StaysOnTrack(s, c, Step(s, st, c))
  {
    if st.legs.third {
      NoMoreEntries(s, st, c);
      ReactKeepsCap(s, s.terms.lossCap.value, st, c);
    } else {
      EntriesKeepWaiting(s, st, c);
      EntriesStayAhead(s, st, c);
      ReactKeepsLegs(s, FillLegs(s, st, c), c);
      if FillsThird(s, st, c) {
        FillAtLevelKeepsCap(s, st, c);
      }
    }
  }

  lemma {:induction false} RunStaysOnTrack(s: Setup, st: State, candles: seq<Candle>, i: nat)
    requires Ready(s) && Sound(s, st) && CapTerms(s) && OrderedLevels(s)
    requires s.terms.lossCap.Some? && !s.terms.reclaim && OnTrack(s, st)
    requires Playable(candles) && i <= |candles|
    requires i == |candles| && st.legs.third ==> Gain(s.side, candles[i - 1].close, st.legs.protective) >= 0.0
    ensures
      var end := Run(s, st, candles, i).state;
      end.legs.third ==> end.pos.realized >= -s.terms.lossCap.value
    decreases |candles| - i
  {
    if i == |candles| {
      if st.legs.third {
        LiquidationKeepsCap(s, s.terms.lossCap.value, st, candles[i - 1].close);
      }
    } else {
      StepStaysOnTrack(s, st, candles[i]);
      var next := Step(s, st, candles[i]);
      if next.Running? {
        RunStaysOnTrack(s, next.state, candles, i + 1);
      }
    }
  }

  /**
   The loss cap over the whole run, for a third leg filled at its level: without lifecycle events, with a maker fee no
   higher than the taker fee and ordered levels, a run whose third leg filled never ends below minus the cap, after
   all fees.
   */
  lemma {:induction false} CappedLoss(s: Setup, candles: seq<Candle>)
    requires Ready(s) && Playable(candles) && CapTerms(s) && OrderedLevels(s)
    requires s.terms.lossCap.Some? && !s.terms.reclaim
    ensures
      var end := Replay(s, candles).state;
      end.legs.third ==> end.pos.realized >= -s.terms.lossCap.value
  {
    InitialIsSound(s);
    RunStaysOnTrack(s, Initial(s), candles, 0);
  }

  // ----- from the candle that filled the third leg

  /** Candle `k` fills the third leg. */
  ghost predicate FillsAt(s: Setup, candles: seq<Candle>, k: nat)
    requires Ready(s) && Playable(candles) && k < |candles|
  {
    After(s, candles, k).Some? && FillsThird(s, After(s, candles, k).value, candles[k])
  }

  /** The state right after that fill. */
  ghost function Filled(s: Setup, candles: seq<Candle>, k: nat): (r: State)
    requires Ready(s) && Playable(candles) && k < |candles| && FillsAt(s, candles, k)
    ensures Sound(s, r)
  {
    FillLegs(s, After(s, candles, k).value, candles[k])
  }

  lemma {:induction false} FilledIsEntered(s: Setup, candles: seq<Candle>, k: nat)
    requires Ready(s) && Playable(candles) && k < |candles| && FillsAt(s, candles, k)
    requires !s.terms.useEvents && DeeperThird(s)
    ensures Entered(s, Filled(s, candles, k), candles[k])
  {
    RunIsUnderway(s, candles, k);
    EntriesKeepWaiting(s, After(s, candles, k).value, candles[k]);
  }

  /** A run is decided by the state its third leg filled in and the candles from there. */
  lemma {:induction false} RunFromFill(s: Setup, candles: seq<Candle>, k: nat)
    requires Ready(s) && Playable(candles) && k < |candles| && FillsAt(s, candles, k)
    ensures
      var next := React(s, Filled(s, candles, k), candles[k]);
      Replay(s, candles) == if next.Done? then next else Run(s, next.state, candles, k + 1)
  {
    ReplayFrom(s, candles, k);
  }

  lemma {:induction false} ReactThenRunKeepsCap(s: Setup, cap: real, candles: seq<Candle>, k: nat)
    requires Ready(s) && Playable(candles) && k < |candles| && FillsAt(s, candles, k)
    requires MakerIsCheaper(s) && !s.terms.useEvents
    requires KeepsCap(s, cap, candles[k], React(s, Filled(s, candles, k), candles[k]))
    ensures Replay(s, candles).state.pos.realized >= -cap
  {
    RunFromFill(s, candles, k);
    var next := React(s, Filled(s, candles, k), candles[k]);
    if next.Running? {
      RunKeepsCap(s, cap, next.state, candles, k + 1);
    }
  }

  /**
   The loss cap however the third leg filled, decided on the candle that filled it: the run never ends below minus the
   cap if that candle also stops it out, if the stop then in force is not ahead of the average entry, or if selling
   the targets short of the stop and stopping out the rest would leave at least minus the cap.
   */
  lemma {:induction false} FilledLoss(s: Setup, candles: seq<Candle>, k: nat)
    requires Ready(s) && Playable(candles) && k < |candles| && FillsAt(s, candles, k)
    requires CapTerms(s) && s.terms.lossCap.Some?
    requires
      var entered := Filled(s, candles, k);
      Touched(s, candles[k], entered.legs.protective) || NoEarlyLoss(s, s.terms.lossCap.value, entered)
    ensures Replay(s, candles).state.pos.realized >= -s.terms.lossCap.value
  {
    var cap, entered := s.terms.lossCap.value, Filled(s, candles, k);
    FilledIsEntered(s, candles, k);
    if Touched(s, candles[k], entered.legs.protective) {
      LiquidationKeepsCap(s, cap, entered, entered.legs.protective);
    } else {
      ReactKeepsCap(s, cap, entered, candles[k]);
    }
    ReactThenRunKeepsCap(s, cap, candles, k);
  }

  // ----- the risk trim

  /** A flat position with all legs in keeps its result. */
  lemma {:induction false} FlatStep(s: Setup, st: State, c: Candle)
    requires Ready(s) && Sound(s, st) && WellFormed(c) && !s.terms.useEvents
    requires st.legs.second && st.legs.third && st.pos.qty == 0.0
    ensures
      var r := Step(s, st, c).state;
      r.pos == st.pos && r.legs == st.legs
  {
    NoMoreEntries(s, st, c);
    ReactKeepsLegs(s, st, c);
    var seen := Excursion(s, st, c);
    if seen.exits.frozen {
      FlatStaysFlat(s, seen, c);
    }
  }

  lemma {:induction false} FlatRun(s: Setup, st: State, candles: seq<Candle>, i: nat)
    requires Ready(s) && Sound(s, st) && !s.terms.useEvents
    requires st.legs.second && st.legs.third && st.pos.qty == 0.0
    requires Playable(candles) && i <= |candles|
    ensures Run(s, st, candles, i).state.pos.realized == st.pos.realized
    decreases |candles| - i
  {
    if i < |candles| {
      FlatStep(s, st, candles[i]);
      var next := Step(s, st, candles[i]);
      if next.Running? {
        FlatRun(s, next.state, candles, i + 1);
      }
    }
  }

  /** A close beyond the stop sells for more per unit than the stop. */
  lemma {:induction false} CloseBeatsStop(s: Setup, price: real, stop: real, avg: real)
    requires 0.0 <= s.terms.takerFee < 1.0 && Gain(s.side, price, stop) > 0.0
    ensures Gain(s.side, price, avg) - Value(price, s.terms.takerFee)
         > Gain(s.side, stop, avg) - Value(stop, s.terms.takerFee)
  {
    if s.side.Long? {
      MulStrict(stop, price, 1.0 - s.terms.takerFee);
    } else {
      MulStrict(price, stop, 1.0 + s.terms.takerFee);
    }
  }

  /** A trim that is needed sells everything exactly when even that leaves no more than minus the cap. */
  lemma {:induction false} TrimSellsAll(s: Setup, st: State, c: Candle)
    requires st.pos.qty > 0.0 && s.terms.trimCap.Some? && st.legs.trimAt == Some(c.time)
    requires 0.0 <= s.terms.takerFee < 1.0 && Gain(s.side, c.close, st.legs.protective) > 0.0
    requires LiquidationValue(s, st.pos, st.legs.protective) < -s.terms.trimCap.value
    ensures Trim(s, st, c) > 0.0
    ensures Trim(s, st, c) == st.pos.qty <==> LiquidationValue(s, st.pos, c.close) <= -s.terms.trimCap.value
  {
    var stop, rate := st.legs.protective, s.terms.takerFee;
    var stopOut := Gain(s.side, stop, st.pos.avg) - Value(stop, rate);
    var closeOut := Gain(s.side, c.close, st.pos.avg) - Value(c.close, rate);
    CloseBeatsStop(s, c.close, stop, st.pos.avg);
    PerUnitLiquidation(s, st.pos, stop);
    PerUnitLiquidation(s, st.pos, c.close);
    var missing := -s.terms.trimCap.value - LiquidationValue(s, st.pos, stop);
    var improvement := closeOut - stopOut;
    assert Trim(s, st, c) == Min(st.pos.qty, missing / improvement);
    DivPositive(missing, improvement);
    DivAtMost(missing, improvement, st.pos.qty);
    assert Value(st.pos.qty, closeOut) == Value(st.pos.qty, stopOut) + st.pos.qty * improvement;
  }

  /** What a surviving fill leaves: the cap held, or nothing open at all. */
  ghost predicate Trimmed(s: Setup, st: State, c: Candle, r: Outcome)
    requires Ready(s) && (r.Running? ==> Sound(s, r.state)) && s.terms.trimCap.Some?
  {
    if LiquidationValue(s, st.pos, c.close) >= -s.terms.trimCap.value then KeepsCap(s, s.terms.trimCap.value, c, r)
    else
      && r == Running(Liquidate(s, st, c.close))
      && Liquidate(s, st, c.close).pos.qty == 0.0
  }

  lemma {:induction false} FillIsTrimmed(s: Setup, st: State, c: Candle)
    requires Ready(s) && Sound(s, st) && WellFormed(c) && CapTerms(s) && Entered(s, st, c)
    requires s.terms.trimCap.Some? && s.terms.lossCap.None? && !Touched(s, c, s.stop)
    ensures Trimmed(s, st, c, React(s, st, c))
  {
    var cap := s.terms.trimCap.value;
    assert Protection(s, st) == (s.stop, false);
    BetterPriceSellsForMore(s, st.pos, c.close, s.stop);
    if LiquidationValue(s, st.pos, s.stop) >= -cap {
      ReactKeepsCap(s, cap, st, c);
    } else {
      TrimReachesCap(s, st, c);
      TrimSellsAll(s, st, c);
      var trim := Trim(s, st, c);
      var left := st.(pos := ClosePart(s.side, st.pos, trim, c.close, s.terms.takerFee));
      assert React(s, st, c) == Running(left);
      if trim == st.pos.qty {
        LiquidationRealizesValue(s, st, c.close);
        LiquidationRealizesValue(s, left, s.stop);
      }
    }
  }

  /**
   The risk trim over the whole run: without lifecycle events, with a maker fee no higher than the taker fee and the
   third level beyond the second, a run that survives the candle that filled its third leg ends at minus the cap or
   better if selling everything at that candle's close would leave as much, and otherwise at exactly what that sale
   leaves.
   */
  lemma {:induction false} TrimmedLoss(s: Setup, candles: seq<Candle>, k: nat)
    requires Ready(s) && Playable(candles) && k < |candles| && FillsAt(s, candles, k) && CapTerms(s)
    requires s.terms.trimCap.Some? && s.terms.lossCap.None? && !Touched(s, candles[k], s.stop)
    ensures
      var worth := LiquidationValue(s, Filled(s, candles, k).pos, candles[k].close);
      var realized := Replay(s, candles).state.pos.realized;
      if worth >= -s.terms.trimCap.value then realized >= -s.terms.trimCap.value else realized == worth
  {
    var entered := Filled(s, candles, k);
    FilledIsEntered(s, candles, k);
    FillIsTrimmed(s, entered, candles[k]);
    if LiquidationValue(s, entered.pos, candles[k].close) >= -s.terms.trimCap.value {
      ReactThenRunKeepsCap(s, s.terms.trimCap.value, candles, k);
    } else {
      RunFromFill(s, candles, k);
      LiquidationRealizesValue(s, entered, candles[k].close);
      FlatRun(s, Liquidate(s, entered, candles[k].close), candles, k + 1);
    }
  }
}
