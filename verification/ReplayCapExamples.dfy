/**
 Two runs at the limits of the caps, each in both directions. One loses more than its cap: the third leg fills on a
 reclaim, its cap stop lies ahead of the average entry, and the first target sells short of that stop. In the other a
 risk trim acts on exits that an event fixed on the same candle. Prices are distances from the entry at 100.
 */
module ReplayCapExamples {
  import opened Wrappers
  import opened Trading
  import opened ReplayModel
  import opened ReplayExits
  import opened ReplayCapRuns
  import opened ReplayReclaim
  import opened ReplayExamples

  function Cap(side: Side): real {
    if side.Long? then 0.2004 else 0.1996
  }

  /** Both fees are 0.05%; the levels lie 0.04 and 0.05 from the entry, the stop 0.1. */
  function Tight(side: Side): Setup {
    Setup(side, At(side, -0.1), 100.0, At(side, -0.04), At(side, -0.05),
          Terms(0, None, false, [], (0.45, 0.27, 0.28), 2.0, 0.3, (0.5, 1.0, 1.5), (25.0, 25.0, 25.0),
                0.0005, 0.0005, false, Some(Cap(side)), None, 0, true, None, false))
  }

  function TightPath(side: Side): seq<Candle> {
    [Minute(side, 0, -0.06, 0.0, -0.02), Minute(side, 60_000, 0.12, 0.2, 0.18),
     Minute(side, 120_000, 0.085, 0.09, 0.09), Minute(side, 180_000, 0.05, 0.07, 0.06)]
  }

  function TightFees(side: Side): (real, real) {
    if side.Long? then (0.22491, 0.05009) else (0.22509, 0.04991)
  }

  function TightOpened(side: Side): State {
    State(Position(4.5, 100.0, -0.225, 0.0, [Bought(4.5, 100.0, 0.225)]),
          Legs(false, false, None, None, None, At(side, -0.1)),
          Exits(false, [], []), TrailStop(false, 0.0, 0.0, 0.0), 0.0, 0, 0)
  }

  function TwoLegs(side: Side): Position {
    Position(9.0, At(side, -0.02), -0.225 - TightFees(side).0, 0.0,
             [Bought(4.5, 100.0, 0.225), Bought(4.5, At(side, -0.04), TightFees(side).0)])
  }

  /** The second leg is in and the third level has been touched. */
  function TightFirst(side: Side): State {
    State(TwoLegs(side), Legs(true, false, Some(0), None, None, At(side, -0.1)),
          Exits(false, [], []), TrailStop(false, 0.0, 0.0, 0.0), 0.25, 0, 0)
  }

  function ThreeLegs(side: Side): Position {
    Position(10.0, 100.0, -0.5, 0.0, TwoLegs(side).ledger + [Bought(1.0, At(side, 0.18), TightFees(side).1)])
  }

  /** The third leg is in, the average is back at the entry and the cap stop stands 0.08 ahead of it. */
  function TightSecond(side: Side): State {
    State(ThreeLegs(side), Legs(true, true, Some(0), Some(60_000), None, At(side, 0.08)),
          Exits(false, [], []), TrailStop(false, 0.0, 0.0, 0.0), 0.25, 0, 0)
  }

  function SaleFee(side: Side): real {
    if side.Long? then 0.1250625 else 0.1249375
  }

  function OneSold(side: Side): Position {
    Position(7.5, 100.0, -0.5 + (0.125 - SaleFee(side)), 0.0,
             ThreeLegs(side).ledger + [Sold(2.5, At(side, 0.05), SaleFee(side))])
  }

  function TightExits(side: Side, first: real): Exits {
    Exits(true, [At(side, 0.05), At(side, 0.1), At(side, 0.15)], [first, 2.5, 2.5])
  }

  /** The first target sold 0.03 short of the stop. */
  function TightThird(side: Side): State {
    TightSecond(side).(pos := OneSold(side), exits := TightExits(side, 0.0), mfe := 0.9)
  }

  function TightResult(side: Side): real {
    if side.Long? then -0.2753625 else -0.2746375
  }

  lemma {:induction false} TightStart(side: Side)
    ensures Ready(Tight(side)) && Playable(TightPath(side)) && ReclaimTerms(Tight(side)) && OrderedLevels(Tight(side))
    ensures Initial(Tight(side)) == TightOpened(side) && Sound(Tight(side), TightOpened(side))
  {
    assert LegQty(Tight(side), 0.45, 100.0) == 4.5;
    assert Fee(4.5, 100.0, 0.0005) == 0.225;
  }

  // ----- the first minute

  lemma {:induction false} TightScalesIn(side: Side)
    ensures Ready(Tight(side)) && Sound(Tight(side), TightOpened(side)) && WellFormed(TightPath(side)[0])
    ensures FillLegs(Tight(side), TightOpened(side), TightPath(side)[0]) == TightFirst(side).(mfe := 0.0)
  {
    var s, c, st := Tight(side), TightPath(side)[0], TightOpened(side);
    assert LegQty(s, 0.27, s.level2) == 4.5;
    assert Fee(4.5, s.level2, 0.0005) == TightFees(side).0;
    assert Average(100.0, 4.5, s.level2, 4.5) == At(side, -0.02);
    assert Add(st.pos, 4.5, s.level2, 0.0005) == TwoLegs(side);
    assert FillSecond(s, st, c) == st.(pos := TwoLegs(side), legs := st.legs.(second := true));
  }

  /** Too early for the first target and for the trail. */
  lemma {:induction false} TightFirstHarvest(side: Side)
    ensures Ready(Tight(side)) && Sound(Tight(side), TightFirst(side).(mfe := 0.0))
    ensures Harvest(Tight(side), TightFirst(side).(mfe := 0.0), TightPath(side)[0]) == Running(TightFirst(side))
  {
    var s, c := Tight(side), TightPath(side)[0];
    var entered := TightFirst(side).(mfe := 0.0);
    assert RValue(s, At(side, -0.02), Favorable(side, c)) == 0.25;
    assert TargetRs(s, At(side, -0.02)) == [0.5, 1.0, 1.5];
    assert Excursion(s, entered, c) == TightFirst(side);
    assert Reach(s, entered, c) == TightFirst(side);
  }

  lemma {:induction false} TightFirstMinute(side: Side)
    ensures Ready(Tight(side)) && Sound(Tight(side), TightOpened(side)) && WellFormed(TightPath(side)[0])
    ensures Step(Tight(side), TightOpened(side), TightPath(side)[0]) == Running(TightFirst(side))
  {
    var s, c := Tight(side), TightPath(side)[0];
    var entered := TightFirst(side).(mfe := 0.0);
    TightScalesIn(side);
    TightFirstHarvest(side);
    assert ClosePart(side, entered.pos, 0.0, c.close, 0.0005) == entered.pos;
    assert Proceed(s, entered, c) == Harvest(s, entered, c);
    assert !Touched(s, c, Protection(s, entered).0);
  }

  // ----- the reclaim

  lemma {:induction false} CapStopAhead(side: Side)
    ensures CapStop(Tight(side), 10.0, 100.0, -0.5, Cap(side)) == At(side, 0.08)
  {
    assert Value(10.0, 100.0) == 1000.0;
  }

  lemma {:induction false} TightReclaims(side: Side)
    ensures Ready(Tight(side)) && Sound(Tight(side), TightFirst(side)) && WellFormed(TightPath(side)[1])
    ensures FillLegs(Tight(side), TightFirst(side), TightPath(side)[1]) == TightSecond(side)
  {
    var s, c, st := Tight(side), TightPath(side)[1], TightFirst(side);
    assert LegQty(s, 0.28, c.close) == 1.0;
    assert Fee(1.0, c.close, 0.0005) == TightFees(side).1;
    assert Average(At(side, -0.02), 9.0, c.close, 1.0) == 100.0;
    assert Add(st.pos, 1.0, c.close, 0.0005) == ThreeLegs(side);
    CapStopAhead(side);
    assert FillSecond(s, st, c) == st;
  }

  lemma {:induction false} TightSecondMinute(side: Side)
    ensures Ready(Tight(side)) && Sound(Tight(side), TightFirst(side)) && WellFormed(TightPath(side)[1])
    ensures Step(Tight(side), TightFirst(side), TightPath(side)[1]) == Running(TightSecond(side))
  {
    TightReclaims(side);
    assert ClosePart(side, ThreeLegs(side), 0.0, TightPath(side)[1].close, 0.0005) == ThreeLegs(side);
  }

  // ----- the early target

  lemma {:induction false} TightFreezes(side: Side)
    ensures Ready(Tight(side)) && Sound(Tight(side), TightSecond(side))
    ensures
      Excursion(Tight(side), TightSecond(side), TightPath(side)[2])
        == TightSecond(side).(exits := TightExits(side, 2.5), mfe := 0.9)
  {
    var s := Tight(side);
    assert RValue(s, 100.0, At(side, 0.09)) == 0.9;
    assert TargetRs(s, 100.0) == [0.5, 1.0, 1.5];
    assert Share(10.0, 25.0) == 2.5;
    assert Value(0.5, 0.1) == 0.05 && Value(1.0, 0.1) == 0.1 && Value(1.5, 0.1) == 0.15;
  }

  lemma {:induction false} TightSells(side: Side)
    ensures ClosePart(side, ThreeLegs(side), 2.5, At(side, 0.05), 0.0005) == OneSold(side)
  {
    assert Value(2.5, 0.05) == 0.125;
    assert Gain(side, At(side, 0.05), 100.0) == 0.05;
    assert Fee(2.5, At(side, 0.05), 0.0005) == SaleFee(side);
  }

  lemma {:induction false} TightThirdHarvest(side: Side)
    ensures Ready(Tight(side)) && Sound(Tight(side), TightSecond(side))
    ensures Harvest(Tight(side), TightSecond(side), TightPath(side)[2]) == Running(TightThird(side))
  {
    var s, c := Tight(side), TightPath(side)[2];
    TightFreezes(side);
    TightSells(side);
    var seen := Excursion(s, TightSecond(side), c);
    assert FillTarget(s, seen, c, 0) == TightThird(side);
    assert FillTargets(s, seen, c) == TightThird(side);
    assert RValue(s, 100.0, At(side, 0.09)) == 0.9;
  }

  lemma {:induction false} TightThirdMinute(side: Side)
    ensures Ready(Tight(side)) && Sound(Tight(side), TightSecond(side)) && WellFormed(TightPath(side)[2])
    ensures Step(Tight(side), TightSecond(side), TightPath(side)[2]) == Running(TightThird(side))
  {
    var s, c, st := Tight(side), TightPath(side)[2], TightSecond(side);
    TightThirdHarvest(side);
    assert FillLegs(s, st, c) == st;
    assert ClosePart(side, st.pos, 0.0, c.close, 0.0005) == st.pos;
    assert Proceed(s, st, c) == Harvest(s, st, c);
    assert !Touched(s, c, Protection(s, st).0);
  }

  // ----- the stop-out

  lemma {:induction false} TightFourthMinute(side: Side)
    ensures Ready(Tight(side)) && Sound(Tight(side), TightThird(side)) && WellFormed(TightPath(side)[3])
    ensures
      var end := Step(Tight(side), TightThird(side), TightPath(side)[3]);
      end.Done? && end.stopped && end.state.pos.realized == TightResult(side)
  {
    var s, c, st := Tight(side), TightPath(side)[3], TightThird(side);
    assert FillLegs(s, st, c) == st;
    assert Protection(s, st) == (At(side, 0.08), false);
    assert Value(7.5, 0.08) == 0.6;
    assert Gain(side, At(side, 0.08), 100.0) == 0.08;
    assert Fee(7.5, At(side, 0.08), 0.0005) == if side.Long? then 0.3753 else 0.3747;
  }

  /** The whole run ends below minus its cap, although it meets every other condition of the loss cap. */
  lemma {:induction false} ReclaimBreaksCap(side: Side)
    ensures Ready(Tight(side)) && Playable(TightPath(side)) && ReclaimTerms(Tight(side)) && OrderedLevels(Tight(side))
    ensures Replay(Tight(side), TightPath(side)).state.pos.realized == TightResult(side) < -Cap(side)
  {
    var s, path := Tight(side), TightPath(side);
    TightStart(side);
    TightFirstMinute(side);
    TightSecondMinute(side);
    TightThirdMinute(side);
    TightFourthMinute(side);
    RunOn(s, TightOpened(side), path, 0, TightFirst(side));
    RunOn(s, TightFirst(side), path, 1, TightSecond(side));
    RunOn(s, TightSecond(side), path, 2, TightThird(side));
    RunEnds(s, TightThird(side), path, 3);
  }

  /** Its second candle fills the third leg on a reclaim and is not safe, as the exact condition says. */
  lemma {:induction false} ReclaimIsUnsafe(side: Side)
    ensures Ready(Tight(side)) && Playable(TightPath(side)) && ReclaimTerms(Tight(side))
    ensures FillsAt(Tight(side), TightPath(side), 1)
    ensures !CapIsSafe(Tight(side), Filled(Tight(side), TightPath(side), 1), TightPath(side)[1])
  {
    var s, path := Tight(side), TightPath(side);
    TightStart(side);
    TightFirstMinute(side);
    TightReclaims(side);
    assert After(s, path, 0) == Some(TightOpened(side));
    assert After(s, path, 1) == Next(s, TightOpened(side), path[0]);
    ReclaimBreaksCap(side);
    if CapIsSafe(s, Filled(s, path, 1), path[1]) {
      FilledLoss(s, path, 1);
    }
  }

  // ----- a trim after an event

  /** No fees, a trim cap of 0.5R, targets that ask for everything, and an event that only fixes the exits. */
  function Noted(side: Side): Setup {
    Setup(side, At(side, -20.0), 100.0, At(side, -5.0), At(side, -10.0),
          Terms(0, None, false, [Reduce(0, None, 100.0)], (0.4, 0.3, 0.1), 1.5, 0.5, (0.5, 1.0, 1.5),
                (50.0, 25.0, 25.0), 0.0, 0.0, true, None, Some(0.5), 0, false, None, false))
  }

  /** One minute fills both scale-ins. */
  function NotedPath(side: Side): seq<Candle> {
    [Minute(side, 0, -12.0, -6.0, -8.0)]
  }

  function NotedOpened(side: Side): State {
    State(Position(0.02, 100.0, 0.0, 0.0, [Bought(0.02, 100.0, 0.0)]),
          Legs(false, false, None, None, None, At(side, -20.0)),
          Exits(false, [], []), TrailStop(false, 0.0, 0.0, 0.0), 0.0, 0, 0)
  }

  function NotedTwo(side: Side): Position {
    Position(0.04, At(side, -2.5), 0.0, 0.0, NotedOpened(side).pos.ledger + [Bought(0.02, At(side, -5.0), 0.0)])
  }

  function NotedThree(side: Side): Position {
    Position(0.05, At(side, -4.0), 0.0, 0.0, NotedTwo(side).ledger + [Bought(0.01, At(side, -10.0), 0.0)])
  }

  function NotedFilled(side: Side): State {
    NotedOpened(side).(pos := NotedThree(side), legs := Legs(true, true, None, None, Some(0), At(side, -20.0)))
  }

  /** The exits are fixed for the whole position of 0.05. */
  function NotedFixed(side: Side): State {
    NotedFilled(side).(exits := Exits(true, [At(side, 4.0), At(side, 12.0), At(side, 20.0)], [0.025, 0.0125, 0.0125]),
                       eventIndex := 1)
  }

  /** Half of it is left after the trim. */
  function NotedTrimmed(side: Side): State {
    NotedFixed(side).(pos := ClosePart(side, NotedThree(side), 0.025, At(side, -8.0), 0.0))
  }

  lemma {:induction false} NotedStart(side: Side)
    ensures Ready(Noted(side)) && Playable(NotedPath(side)) && Allocated(Noted(side))
    ensures Initial(Noted(side)) == NotedOpened(side) && Sound(Noted(side), NotedOpened(side))
  {
    assert LegQty(Noted(side), 0.4, 100.0) == 0.02;
    assert Fee(0.02, 100.0, 0.0) == 0.0;
  }

  lemma {:induction false} NotedQuantities(side: Side)
    ensures var s := Noted(side); LegQty(s, s.terms.weights.1, s.level2) == 0.02
    ensures var s := Noted(side); LegQty(s, s.terms.weights.2, s.level3) == 0.01
  {
  }

  lemma {:induction false} NotedAdds(side: Side)
    ensures Add(NotedOpened(side).pos, 0.02, At(side, -5.0), 0.0) == NotedTwo(side)
    ensures Add(NotedTwo(side), 0.01, At(side, -10.0), 0.0) == NotedThree(side)
  {
    assert Fee(0.02, At(side, -5.0), 0.0) == 0.0 && Fee(0.01, At(side, -10.0), 0.0) == 0.0;
    assert Average(100.0, 0.02, At(side, -5.0), 0.02) == At(side, -2.5);
    assert Average(At(side, -2.5), 0.04, At(side, -10.0), 0.01) == At(side, -4.0);
  }

  /** A first candle that reaches both levels fills both legs there. */
  lemma {:induction false} BothFill(s: Setup, st: State, c: Candle, q2: real, q3: real)
    requires Ready(s) && Sound(s, st) && WellFormed(c) && !st.exits.frozen && !st.legs.second && !st.legs.third
    requires !s.terms.reclaim && s.terms.lossCap.None? && s.terms.trimCap.Some?
    requires c.time >= s.terms.start + s.terms.minDelayMinutes * 60_000
    requires Touched(s, c, s.level2) && Touched(s, c, s.level3)
    requires q2 == LegQty(s, s.terms.weights.1, s.level2) && q3 == LegQty(s, s.terms.weights.2, s.level3)
    requires q2 >= 0.0 && q3 >= 0.0
    ensures
      var two := Add(st.pos, q2, s.level2, s.terms.makerFee);
      var three := Add(two, q3, s.level3, s.terms.makerFee);
      FillLegs(s, st, c) == st.(pos := three, legs := st.legs.(second := true, third := true, trimAt := Some(c.time)))
  {
  }

  lemma {:induction false} NotedFills(side: Side)
    ensures Ready(Noted(side)) && Sound(Noted(side), NotedOpened(side)) && WellFormed(NotedPath(side)[0])
    ensures FillLegs(Noted(side), NotedOpened(side), NotedPath(side)[0]) == NotedFilled(side)
  {
    var s, c := Noted(side), NotedPath(side)[0];
    NotedQuantities(side);
    BothFill(s, NotedOpened(side), c, 0.02, 0.01);
    NotedAdds(side);
  }

  lemma {:induction false} NotedFixes(side: Side)
    ensures Ready(Noted(side)) && Sound(Noted(side), NotedFilled(side))
    ensures ApplyEvents(Noted(side), NotedFilled(side), 60_000) == (NotedFixed(side), false)
  {
    var s := Noted(side);
    assert TargetRs(s, At(side, -4.0)) == [0.5, 1.0, 1.5];
    assert Value(0.5, 16.0) == 8.0 && Value(1.0, 16.0) == 16.0 && Value(1.5, 16.0) == 24.0;
    assert Share(0.05, 50.0) == 0.025 && Share(0.05, 25.0) == 0.0125;
    assert Freeze(s, NotedFilled(side).(eventIndex := 1)) == NotedFixed(side);
    assert ApplyEvents(s, NotedFixed(side), 60_000) == (NotedFixed(side), false);
  }

  lemma {:induction false} NotedTrims(side: Side)
    ensures Trim(Noted(side), NotedFixed(side), NotedPath(side)[0]) == 0.025
  {
    assert Value(At(side, -20.0), 0.0) == 0.0 && Value(At(side, -8.0), 0.0) == 0.0;
    assert Value(0.05, -16.0) == -0.8;
  }

  /** The pending targets of 0.05 outrun the 0.025 that are left open. */
  lemma {:induction false} TrimOutrunsExits(side: Side)
    ensures Ready(Noted(side)) && Playable(NotedPath(side)) && Allocated(Noted(side))
    ensures After(Noted(side), NotedPath(side), 1) == Some(NotedTrimmed(side)) && !Fits(NotedTrimmed(side))
  {
    var s, c := Noted(side), NotedPath(side)[0];
    NotedStart(side);
    NotedFills(side);
    NotedFixes(side);
    NotedTrims(side);
    assert !Touched(s, c, Protection(s, NotedFilled(side)).0);
    assert Proceed(s, NotedFixed(side), c) == Running(NotedTrimmed(side));
    assert After(s, NotedPath(side), 0) == Some(NotedOpened(side));
    assert After(s, NotedPath(side), 1) == Next(s, NotedOpened(side), c);
  }
}
