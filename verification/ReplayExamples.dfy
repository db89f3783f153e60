/**
 One run worked out by hand, in both directions: a scale-in, two targets, an armed trail and an exit on it.
 Prices are given by their distance from the entry at 100 in the direction of profit; fees are zero.
 */
module ReplayExamples {
  import opened Wrappers
  import opened Trading
  import opened ReplayModel
  import opened ReplayTrail

  function At(side: Side, distance: real): real {
    Ahead(side, 100.0, distance)
  }

  function Example(side: Side): Setup {
    Setup(side, At(side, -20.0), 100.0, At(side, -5.0), At(side, -10.0),
          Terms(0, None, false, [], (0.6, 0.3, 0.1), 1.5, 0.5, (1.0, 2.0, 3.0), (20.0, 20.0, 20.0),
                0.0, 0.0, false, None, None, 0, false, None, false))
  }

  /** A minute given by its worst and best distance. */
  function Minute(side: Side, time: int, adverse: real, favorable: real, close: real): Candle {
    if side.Long? then Candle(time, At(side, adverse), At(side, favorable), At(side, close))
    else Candle(time, At(side, favorable), At(side, adverse), At(side, close))
  }

  function Path(side: Side): seq<Candle> {
    [Minute(side, 0, -6.0, 1.0, -1.0), Minute(side, 60_000, -3.0, 34.0, 30.0), Minute(side, 120_000, 20.0, 32.0, 22.0)]
  }

  function Opened(side: Side): State {
    State(Position(0.03, 100.0, 0.0, 0.0, [Bought(0.03, 100.0, 0.0)]),
          Legs(false, false, None, None, None, At(side, -20.0)),
          Exits(false, [], []), TrailStop(false, 0.0, 0.0, 0.0), 0.0, 0, 0)
  }

  function ScaledIn(side: Side): Position {
    Position(0.05, At(side, -2.0), 0.0, 0.0, [Bought(0.03, 100.0, 0.0), Bought(0.02, At(side, -5.0), 0.0)])
  }

  function EntryLegs(side: Side): Legs {
    Legs(true, false, None, None, None, At(side, -20.0))
  }

  /** After the first minute the second leg is in and the average lies 18 from the stop. */
  function AfterFirst(side: Side): State {
    State(ScaledIn(side), EntryLegs(side), Exits(false, [], []), TrailStop(false, 0.0, 0.0, 0.0), 3.0 / 18.0, 0, 0)
  }

  function Frozen(side: Side, first: real, second: real): Exits {
    Exits(true, [At(side, 16.0), At(side, 34.0), At(side, 52.0)], [first, second, 0.01])
  }

  /** Two targets sold, 0.54R taken. */
  function Reduced(side: Side): Position {
    Position(0.03, At(side, -2.0), 0.54, 0.0,
             ScaledIn(side).ledger + [Sold(0.01, At(side, 16.0), 0.0)] + [Sold(0.01, At(side, 34.0), 0.0)])
  }

  /** After the second minute two targets are sold and the trail follows 9 behind the peak. */
  function AfterSecond(side: Side): State {
    State(Reduced(side), EntryLegs(side), Frozen(side, 0.0, 0.0), TrailStop(true, 9.0, At(side, 25.0), At(side, 34.0)),
          2.0, 0, 0)
  }

  // ----- the first minute

  lemma {:induction false} ExampleIsReady(side: Side)
    ensures Ready(Example(side)) && Playable(Path(side)) && MakerIsCheaper(Example(side))
  {
  }

  lemma {:induction false} Start(side: Side)
    ensures Ready(Example(side)) && Initial(Example(side)) == Opened(side) && Sound(Example(side), Opened(side))
  {
    assert LegQty(Example(side), 0.6, 100.0) == 0.03;
    assert Fee(0.03, 100.0, 0.0) == 0.0;
  }

  lemma {:induction false} SecondLegFills(side: Side)
    ensures Ready(Example(side)) && Sound(Example(side), Opened(side)) && WellFormed(Path(side)[0])
    ensures
      FillLegs(Example(side), Opened(side), Path(side)[0])
        == Opened(side).(pos := ScaledIn(side), legs := EntryLegs(side))
  {
    var s, c := Example(side), Path(side)[0];
    assert LegQty(s, 0.3, s.level2) == 0.02;
    assert Fee(0.02, s.level2, 0.0) == 0.0;
    assert Average(100.0, 0.03, s.level2, 0.02) == At(side, -2.0);
    assert Add(Opened(side).pos, 0.02, s.level2, 0.0) == ScaledIn(side);
    assert FillSecond(s, Opened(side), c) == Opened(side).(pos := ScaledIn(side), legs := EntryLegs(side));
  }

  lemma {:induction false} Multiples(side: Side, distance: real)
    ensures RValue(Example(side), At(side, -2.0), At(side, distance)) == (distance + 2.0) / 18.0
    ensures TargetRs(Example(side), At(side, -2.0)) == [1.0, 2.0, 3.0]
  {
  }

  /** Too early for the first target and for the trail: only the excursion is recorded. */
  lemma {:induction false} FirstHarvest(side: Side)
    ensures
      var entered := Opened(side).(pos := ScaledIn(side), legs := EntryLegs(side));
      && Ready(Example(side)) && Sound(Example(side), entered)
      && Harvest(Example(side), entered, Path(side)[0]) == Running(AfterFirst(side))
  {
    var s, c := Example(side), Path(side)[0];
    var entered := Opened(side).(pos := ScaledIn(side), legs := EntryLegs(side));
    Multiples(side, 1.0);
    assert RValue(s, At(side, -2.0), Favorable(side, c)) == 3.0 / 18.0;
    assert Excursion(s, entered, c) == AfterFirst(side);
    assert Reach(s, entered, c) == AfterFirst(side);
  }

  lemma {:induction false} FirstMinute(side: Side)
    ensures Ready(Example(side)) && Sound(Example(side), Opened(side)) && WellFormed(Path(side)[0])
    ensures Step(Example(side), Opened(side), Path(side)[0]) == Running(AfterFirst(side))
  {
    var s, c := Example(side), Path(side)[0];
    SecondLegFills(side);
    FirstHarvest(side);
    var entered := Opened(side).(pos := ScaledIn(side), legs := EntryLegs(side));
    assert ClosePart(side, entered.pos, 0.0, c.close, 0.0) == entered.pos;
    assert Proceed(s, entered, c) == Harvest(s, entered, c);
    assert !Touched(s, c, Protection(s, entered).0);
  }

  // ----- the second minute

  lemma {:induction false} TargetsFreeze(side: Side)
    ensures Ready(Example(side)) && Sound(Example(side), AfterFirst(side))
    ensures
      Excursion(Example(side), AfterFirst(side), Path(side)[1])
        == AfterFirst(side).(exits := Frozen(side, 0.01, 0.01), mfe := 2.0)
  {
    var s := Example(side);
    Multiples(side, 34.0);
    assert Share(0.05, 20.0) == 0.01;
    assert Value(1.0, 18.0) == 18.0 && Value(2.0, 18.0) == 36.0 && Value(3.0, 18.0) == 54.0;
    assert TargetPrice(s, At(side, -2.0), 1.0) == At(side, 16.0);
    assert TargetPrice(s, At(side, -2.0), 2.0) == At(side, 34.0);
    assert TargetPrice(s, At(side, -2.0), 3.0) == At(side, 52.0);
  }

  lemma {:induction false} TargetSale(side: Side, pos: Position, distance: real)
    requires pos.avg == At(side, -2.0) && pos.qty >= 0.01
    ensures ClosePart(side, pos, 0.01, At(side, distance), 0.0)
         == Position(pos.qty - 0.01, pos.avg, pos.realized + 0.01 * (distance + 2.0), pos.funding,
                     pos.ledger + [Sold(0.01, At(side, distance), 0.0)])
  {
    assert Gain(side, At(side, distance), pos.avg) == distance + 2.0;
    assert Fee(0.01, At(side, distance), 0.0) == 0.0;
  }

  lemma {:induction false} TwoTargetsSell(side: Side)
    ensures Sound(Example(side), AfterFirst(side).(exits := Frozen(side, 0.01, 0.01), mfe := 2.0))
    ensures
      FillTargets(Example(side), AfterFirst(side).(exits := Frozen(side, 0.01, 0.01), mfe := 2.0), Path(side)[1])
        == AfterFirst(side).(pos := Reduced(side), exits := Frozen(side, 0.0, 0.0), mfe := 2.0)
  {
    var s, c := Example(side), Path(side)[1];
    var seen := AfterFirst(side).(exits := Frozen(side, 0.01, 0.01), mfe := 2.0);
    TargetSale(side, ScaledIn(side), 16.0);
    var once := ClosePart(side, ScaledIn(side), 0.01, At(side, 16.0), 0.0);
    TargetSale(side, once, 34.0);
    assert ClosePart(side, once, 0.01, At(side, 34.0), 0.0) == Reduced(side);
    var first := seen.(pos := once, exits := Frozen(side, 0.0, 0.01));
    assert FillTarget(s, seen, c, 0) == first;
    var second := first.(pos := Reduced(side), exits := Frozen(side, 0.0, 0.0));
    assert FillTarget(s, first, c, 1) == second;
    assert FillTarget(s, second, c, 2) == second;
  }

  lemma {:induction false} TrailArms(side: Side)
    ensures ArmTrail(Example(side), Reduced(side), At(side, 34.0))
         == TrailStop(true, 9.0, At(side, 25.0), At(side, 34.0))
    ensures Gain(side, At(side, 34.0), RequiredFloor(Example(side), Reduced(side))) >= 0.0
  {
    var s, pos := Example(side), Reduced(side);
    assert Value(0.5, 18.0) == 9.0;
    assert Value(0.03, At(side, -2.0)) == if side.Long? then 2.94 else 3.06;
    var floor := RequiredFloor(s, pos);
    assert floor * 0.03 == if side.Long? then 2.45 else 3.55;
  }

  lemma {:induction false} SecondMinute(side: Side)
    ensures Ready(Example(side)) && Sound(Example(side), AfterFirst(side)) && WellFormed(Path(side)[1])
    ensures Step(Example(side), AfterFirst(side), Path(side)[1]) == Running(AfterSecond(side))
  {
    var s, c, st := Example(side), Path(side)[1], AfterFirst(side);
    TargetsFreeze(side);
    TwoTargetsSell(side);
    TrailArms(side);
    Multiples(side, 34.0);
    assert FillLegs(s, st, c) == st;
    assert Trim(s, st, c) == 0.0;
    assert ClosePart(side, st.pos, 0.0, c.close, 0.0) == st.pos;
    assert Harvest(s, st, c) == Running(AfterSecond(side));
  }

  // ----- the third minute

  lemma {:induction false} ThirdMinute(side: Side)
    ensures Ready(Example(side)) && Sound(Example(side), AfterSecond(side)) && WellFormed(Path(side)[2])
    ensures
      var end := Step(Example(side), AfterSecond(side), Path(side)[2]);
      end.Done? && !end.stopped && end.state.pos.qty == 0.0 && end.state.pos.realized == 1.35
  {
    var s, c, st := Example(side), Path(side)[2], AfterSecond(side);
    assert FillLegs(s, st, c) == st;
    assert Protection(s, st) == (At(side, 25.0), true);
    assert Value(0.03, 27.0) == 0.81;
    assert Gain(side, At(side, 25.0), At(side, -2.0)) == 27.0;
    assert Fee(0.03, At(side, 25.0), 0.0) == 0.0;
  }

  /** The whole run, LONG or SHORT: filled twice, reduced twice, stopped out by the trail with 1.35R. */
  lemma {:induction false} RunWorkedOut(side: Side)
    ensures Ready(Example(side)) && Playable(Path(side))
    ensures
      var end := Replay(Example(side), Path(side));
      !end.stopped && end.state.pos.qty == 0.0 && end.state.pos.realized == 1.35
  {
    var s, path := Example(side), Path(side);
    ExampleIsReady(side);
    Start(side);
    FirstMinute(side);
    SecondMinute(side);
    ThirdMinute(side);
    RunOn(s, Opened(side), path, 0, AfterFirst(side));
    RunOn(s, AfterFirst(side), path, 1, AfterSecond(side));
    RunEnds(s, AfterSecond(side), path, 2);
  }

  lemma {:induction false} RunEnds(s: Setup, st: State, candles: seq<Candle>, i: nat)
    requires Ready(s) && Sound(s, st) && Playable(candles) && i < |candles| && Step(s, st, candles[i]).Done?
    ensures Run(s, st, candles, i) == Step(s, st, candles[i])
  {
  }

  /** The run meets the hypotheses of the locked-profit theorem: its second candle arms the trail clear of the floor. */
  lemma {:induction false} RunLocksProfit(side: Side)
    ensures Ready(Example(side)) && Playable(Path(side)) && MakerIsCheaper(Example(side))
    ensures After(Example(side), Path(side), 1) == Some(AfterFirst(side)) && !AfterFirst(side).trail.armed
    ensures After(Example(side), Path(side), 2) == Some(AfterSecond(side)) && AfterSecond(side).trail.armed
    ensures ClearsFloor(Example(side), AfterSecond(side))
  {
    var s, path := Example(side), Path(side);
    ExampleIsReady(side);
    Start(side);
    FirstMinute(side);
    SecondMinute(side);
    TrailArms(side);
    assert After(s, path, 0) == Some(Opened(side));
    assert After(s, path, 1) == Next(s, Opened(side), path[0]);
    assert After(s, path, 2) == Next(s, AfterFirst(side), path[1]);
  }

  // ----- a trail armed below its floor

  /** A stop only 0.2 away and a taker fee of 0.055%: the fees of a round trip outweigh 0.4R. */
  function Narrow(side: Side): Setup {
    Setup(side, At(side, -0.2), 100.0, At(side, -0.05), At(side, -0.1),
          Terms(0, None, false, [], (0.6, 0.3, 0.1), 0.4, 0.3, (0.5, 1.0, 1.5), (25.0, 25.0, 25.0),
                0.0002, 0.00055, false, None, None, 0, false, None, false))
  }

  function NarrowPath(side: Side): seq<Candle> {
    [Minute(side, 0, -0.04, 0.08, 0.0), Minute(side, 60_000, -0.02, 0.06, 0.0)]
  }

  function NarrowOpened(side: Side): State {
    State(Position(3.0, 100.0, -0.165, 0.0, [Bought(3.0, 100.0, 0.165)]),
          Legs(false, false, None, None, None, At(side, -0.2)),
          Exits(false, [], []), TrailStop(false, 0.0, 0.0, 0.0), 0.0, 0, 0)
  }

  function NarrowExits(side: Side): Exits {
    Exits(true, [At(side, 0.1), At(side, 0.2), At(side, 0.3)], [0.75, 0.75, 0.75])
  }

  /** The trail stands at its own anchor, 0.4R up. */
  function NarrowArmed(side: Side): State {
    NarrowOpened(side).(exits := NarrowExits(side), trail := TrailStop(true, 0.0, At(side, 0.08), At(side, 0.08)),
                        mfe := 0.4)
  }

  lemma {:induction false} NarrowStart(side: Side)
    ensures Ready(Narrow(side)) && Playable(NarrowPath(side)) && MakerIsCheaper(Narrow(side))
    ensures Initial(Narrow(side)) == NarrowOpened(side) && Sound(Narrow(side), NarrowOpened(side))
  {
    assert LegQty(Narrow(side), 0.6, 100.0) == 3.0;
    assert Fee(3.0, 100.0, 0.00055) == 0.165;
  }

  lemma {:induction false} NarrowFreezes(side: Side)
    ensures Ready(Narrow(side)) && Sound(Narrow(side), NarrowOpened(side))
    ensures
      Excursion(Narrow(side), NarrowOpened(side), NarrowPath(side)[0])
        == NarrowOpened(side).(exits := NarrowExits(side), mfe := 0.4)
  {
    var s := Narrow(side);
    assert RValue(s, 100.0, At(side, 0.08)) == 0.4;
    assert TargetRs(s, 100.0) == [0.5, 1.0, 1.5];
    assert Share(3.0, 25.0) == 0.75;
    assert Value(0.5, 0.2) == 0.1 && Value(1.0, 0.2) == 0.2 && Value(1.5, 0.2) == 0.3;
  }

  /** Its anchor falls short of the price that would leave 0.05R, and the trail is armed all the same. */
  lemma {:induction false} NarrowArms(side: Side)
    ensures ArmTrail(Narrow(side), NarrowOpened(side).pos, At(side, 0.08))
         == TrailStop(true, 0.0, At(side, 0.08), At(side, 0.08))
    ensures Gain(side, At(side, 0.08), RequiredFloor(Narrow(side), NarrowOpened(side).pos)) < 0.0
  {
    var floor := RequiredFloor(Narrow(side), NarrowOpened(side).pos);
    assert Value(3.0, 100.0) == 300.0 && Value(0.3, 0.2) == 0.06;
    assert floor * 2.99835 == 300.215 || floor * 3.00165 == 299.785;
  }

  lemma {:induction false} NarrowHarvest(side: Side)
    ensures Ready(Narrow(side)) && Sound(Narrow(side), NarrowOpened(side))
    ensures Harvest(Narrow(side), NarrowOpened(side), NarrowPath(side)[0]) == Running(NarrowArmed(side))
  {
    var s, c, st := Narrow(side), NarrowPath(side)[0], NarrowOpened(side);
    NarrowFreezes(side);
    NarrowArms(side);
    var seen := Excursion(s, st, c);
    assert FillTargets(s, seen, c) == seen;
    assert RValue(s, 100.0, At(side, 0.08)) == 0.4;
  }

  lemma {:induction false} NarrowFirst(side: Side)
    ensures Ready(Narrow(side)) && Sound(Narrow(side), NarrowOpened(side)) && WellFormed(NarrowPath(side)[0])
    ensures Step(Narrow(side), NarrowOpened(side), NarrowPath(side)[0]) == Running(NarrowArmed(side))
  {
    var s, c, st := Narrow(side), NarrowPath(side)[0], NarrowOpened(side);
    NarrowHarvest(side);
    assert FillLegs(s, st, c) == st;
    assert ClosePart(side, st.pos, 0.0, c.close, 0.00055) == st.pos;
    assert Proceed(s, st, c) == Harvest(s, st, c);
    assert !Touched(s, c, Protection(s, st).0);
  }

  /** What the exit on that trail leaves: a loss, after both fees. */
  function NarrowResult(side: Side): real {
    if side.Long? then -0.090132 else -0.089868
  }

  lemma {:induction false} NarrowSecond(side: Side)
    ensures Ready(Narrow(side)) && Sound(Narrow(side), NarrowArmed(side)) && WellFormed(NarrowPath(side)[1])
    ensures
      var end := Step(Narrow(side), NarrowArmed(side), NarrowPath(side)[1]);
      end.Done? && !end.stopped && end.state.pos.realized == NarrowResult(side)
  {
    var s, c, st := Narrow(side), NarrowPath(side)[1], NarrowArmed(side);
    assert FillLegs(s, st, c) == st;
    assert Protection(s, st) == (At(side, 0.08), true);
    assert Value(3.0, 0.08) == 0.24;
    assert Gain(side, At(side, 0.08), 100.0) == 0.08;
    assert Fee(3.0, At(side, 0.08), 0.00055) == if side.Long? then 0.165132 else 0.164868;
  }

  /** A run whose trail is armed although its anchor does not clear the floor, and which exits on it below 0.05R. */
  lemma {:induction false} ArmedBelowFloor(side: Side)
    ensures Ready(Narrow(side)) && Playable(NarrowPath(side)) && MakerIsCheaper(Narrow(side))
    ensures After(Narrow(side), NarrowPath(side), 1) == Some(NarrowArmed(side))
    ensures NarrowArmed(side).trail.armed && !ClearsFloor(Narrow(side), NarrowArmed(side))
    ensures Replay(Narrow(side), NarrowPath(side)).state.pos.realized == NarrowResult(side) < LOCKED_R
  {
    var s, path := Narrow(side), NarrowPath(side);
    NarrowStart(side);
    NarrowFirst(side);
    NarrowSecond(side);
    NarrowArms(side);
    assert After(s, path, 0) == Some(NarrowOpened(side));
    assert After(s, path, 1) == Next(s, NarrowOpened(side), path[0]);
    RunOn(s, NarrowOpened(side), path, 0, NarrowArmed(side));
    RunEnds(s, NarrowArmed(side), path, 1);
  }
}
