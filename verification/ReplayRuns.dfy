/** Every replay is a run of the rules, from the checks of the request to the last candle. */
module ReplayRuns {
  import opened Wrappers
  import opened Trading
  import opened ReplayModel
  import opened ReplayRules
  import opened ReplayCandle

  // ----- the request

  predicate ValidOptions(r: Request) {
    && r.stopMultiplier > 0.0 && r.gridMultiplier > 0.0 && r.terms.minDelayMinutes >= 0
    && (r.terms.lossCap.None? || r.terms.trimCap.None?)
    && (r.terms.trimCap.Some? ==> r.terms.trimCap.value > 0.0)
  }

  /** The stop and the scale-in levels, at multiples of the planned distance on the losing side of the entry. */
  ghost predicate Places(r: Request, s: Setup) {
    var planned := Abs(r.entry - r.plannedStop);
    && s.side == r.side && s.terms == r.terms && s.level1 == r.entry
    && Gain(r.side, r.entry, s.stop) == planned * r.stopMultiplier
    && Gain(r.side, r.entry, s.level2) == r.depths.0 * planned * r.gridMultiplier
    && Gain(r.side, r.entry, s.level3) == r.depths.1 * planned * r.gridMultiplier
  }

  /** No level is at the stop or beyond it. */
  predicate LevelsClear(s: Setup) {
    if s.side.Long? then s.level1 > s.stop && s.level2 > s.stop && s.level3 > s.stop
    else s.level1 < s.stop && s.level2 < s.stop && s.level3 < s.stop
  }

  lemma {:induction false} Behind(side: Side, entry: real, distance: real)
    ensures Gain(side, entry, Ahead(side, entry, -distance)) == distance
  {
  }

  lemma {:induction false} LevelsArePlaced(r: Request) returns (s: Setup)
    ensures Places(r, s)
    ensures
      var planned := Abs(r.entry - r.plannedStop);
      s == Setup(r.side, Ahead(r.side, r.entry, -(planned * r.stopMultiplier)), r.entry,
                 Ahead(r.side, r.entry, -(r.depths.0 * planned * r.gridMultiplier)),
                 Ahead(r.side, r.entry, -(r.depths.1 * planned * r.gridMultiplier)), r.terms)
  {
    var planned := Abs(r.entry - r.plannedStop);
    var stop, first, second :=
      planned * r.stopMultiplier, r.depths.0 * planned * r.gridMultiplier, r.depths.1 * planned * r.gridMultiplier;
    Behind(r.side, r.entry, stop);
    Behind(r.side, r.entry, first);
    Behind(r.side, r.entry, second);
    s := Setup(r.side, Ahead(r.side, r.entry, -stop), r.entry, Ahead(r.side, r.entry, -first),
               Ahead(r.side, r.entry, -second), r.terms);
  }

  /** A request is refused for its options, its fees or its levels, in this order, and accepted otherwise. */
  lemma {:induction false} RequestIsChecked(r: Request) returns (s: Setup)
    ensures Places(r, s)
    ensures
      Prepare(r)
        == if !ValidOptions(r) then Err(InvalidOptions)
           else if r.terms.makerFee < 0.0 || r.terms.takerFee < 0.0 then Err(InvalidFees)
           else if !LevelsClear(s) then Err(LevelCrossedStop)
           else Ok(s)
  {
    s := LevelsArePlaced(r);
  }

  // ----- the run

  /** The position E1 opens: its weight is at risk and its fee is paid. */
  ghost predicate Opens(s: Setup, st: State) {
    var rate := if s.terms.primaryIsMaker then s.terms.makerFee else s.terms.takerFee;
    var fee := Value(Value(st.pos.qty, s.level1), rate);
    && Value(st.pos.qty, Abs(s.level1 - s.stop)) == s.terms.weights.0
    && st.pos == Position(st.pos.qty, s.level1, -fee, 0.0, [Bought(st.pos.qty, s.level1, fee)])
    && st.legs == Legs(false, false, None, None, None, s.stop)
    && !st.exits.frozen && !st.trail.armed && st.mfe == 0.0 && st.eventIndex == 0 && st.actions == 0
  }

  /** What is open at the end is marked at the last close. */
  ghost predicate Marks(s: Setup, st: State, lastClose: real, end: Outcome) {
    && Sells(s.side, st.pos, end.state.pos, st.pos.qty, lastClose, s.terms.takerFee)
    && end == Done(st.(pos := end.state.pos), false)
  }

  /**
   A run over `candles`: `states[k]` is the state before candle `k`, and `traces[k]` what that candle did. It ends with
   the candle that ends it, or after the last one.
   */
  ghost predicate Runs(
    s: Setup, candles: seq<Candle>, lastClose: real, states: seq<State>, traces: seq<Trace>, end: Outcome)
  {
    && 0 < |states| <= |candles| + 1
    && |traces| == (if |states| <= |candles| then |states| else |candles|)
    && (forall k :: 0 <= k < |states| - 1 ==> PlaysAt(s, candles, states, traces, k))
    && Ends(s, candles, lastClose, states, traces, end)
  }

  ghost predicate Ends(
    s: Setup, candles: seq<Candle>, lastClose: real, states: seq<State>, traces: seq<Trace>, end: Outcome)
    requires 0 < |states| && (|states| <= |candles| ==> |traces| == |states|)
  {
    && end.Done?
    && if |states| <= |candles| then Plays(s, states[|states| - 1], candles[|states| - 1], traces[|states| - 1], end)
       else Marks(s, states[|states| - 1], lastClose, end)
  }

  ghost predicate PlaysAt(s: Setup, candles: seq<Candle>, states: seq<State>, traces: seq<Trace>, k: nat)
    requires k < |candles| && k + 1 < |states| && k < |traces|
  {
    Plays(s, states[k], candles[k], traces[k], Running(states[k + 1]))
  }

  lemma {:induction false} EarlierPlays(
    s: Setup, candles: seq<Candle>, st: State, t: Trace, states: seq<State>, traces: seq<Trace>, k: nat)
    requires 0 < k < |states| <= |candles| && k <= |traces|
    requires PlaysAt(s, candles[1..], states, traces, k - 1)
    ensures PlaysAt(s, candles, [st] + states, [t] + traces, k)
  {
  }

  lemma {:induction false} EndsLater(
    s: Setup, candles: seq<Candle>, lastClose: real, st: State, t: Trace, states: seq<State>, traces: seq<Trace>,
    end: Outcome)
    requires candles != [] && 0 < |states| <= |candles| && (|states| < |candles| ==> |traces| == |states|)
    requires Ends(s, candles[1..], lastClose, states, traces, end)
    ensures |states| < |candles| ==> |[t] + traces| == |[st] + states|
    ensures Ends(s, candles, lastClose, [st] + states, [t] + traces, end)
  {
  }

  lemma {:induction false} OneMore(
    s: Setup, candles: seq<Candle>, lastClose: real, st: State, t: Trace, states: seq<State>, traces: seq<Trace>,
    end: Outcome)
    requires candles != [] && Runs(s, candles[1..], lastClose, states, traces, end)
    requires Plays(s, st, candles[0], t, Running(states[0]))
    ensures Runs(s, candles, lastClose, [st] + states, [t] + traces, end)
  {
    var states', traces' := [st] + states, [t] + traces;
    forall k | 0 <= k < |states'| - 1
      ensures PlaysAt(s, candles, states', traces', k)
    {
      if k > 0 { EarlierPlays(s, candles, st, t, states, traces, k); }
    }
    EndsLater(s, candles, lastClose, st, t, states, traces, end);
  }

  lemma {:induction false} RunFollows(s: Setup, st: State, candles: seq<Candle>, i: nat)
    returns (states: seq<State>, traces: seq<Trace>)
    requires Ready(s) && Sound(s, st) && Playable(candles) && i <= |candles|
    ensures Runs(s, candles[i..], candles[|candles| - 1].close, states, traces, Run(s, st, candles, i))
    ensures states[0] == st
    decreases |candles| - i
  {
    var lastClose := candles[|candles| - 1].close;
    if i == |candles| {
      AllIsSold(s.side, st.pos, lastClose, s.terms.takerFee);
      states, traces := [st], [];
    } else {
      var c, next := candles[i], Step(s, st, candles[i]);
      var t := StepFollows(s, st, c);
      states, traces := [st], [t];
      if next.Running? {
        var states', traces' := RunFollows(s, next.state, candles, i + 1);
        assert candles[i..][1..] == candles[i + 1..];
        OneMore(s, candles[i..], lastClose, st, t, states', traces', Run(s, st, candles, i));
        states, traces := [st] + states', [t] + traces';
      }
    }
  }

  lemma {:induction false} InitialOpens(s: Setup)
    requires Ready(s)
    ensures Opens(s, Initial(s))
  {
    var qty := LegQty(s, s.terms.weights.0, s.level1);
    var rate := if s.terms.primaryIsMaker then s.terms.makerFee else s.terms.takerFee;
    LegQtyRisks(s, s.terms.weights.0, s.level1);
    assert Abs(s.level1 - s.stop) == Gain(s.side, s.level1, s.stop);
    FeeIsValue(qty, s.level1, rate);
    assert Initial(s).pos.ledger == [Bought(qty, s.level1, Fee(qty, s.level1, rate))];
  }

  lemma {:induction false} FeeIsValue(qty: real, price: real, rate: real)
    ensures Fee(qty, price, rate) == Value(Value(qty, price), rate)
  {
  }

  /** Every replay is a run of the rules from the opening. */
  lemma {:induction false} ReplayFollows(s: Setup, candles: seq<Candle>)
    returns (states: seq<State>, traces: seq<Trace>)
    requires Ready(s) && Playable(candles)
    ensures Runs(s, candles, candles[|candles| - 1].close, states, traces, Replay(s, candles))
    ensures Opens(s, states[0])
  {
    InitialIsSound(s);
    InitialOpens(s);
    states, traces := RunFollows(s, Initial(s), candles, 0);
    assert candles[0..] == candles;
  }
}
