/** The pending exits never ask for more than the open position, and the runner keeps its share. */
module ReplayExits {
  import opened Wrappers
  import opened Arithmetic
  import opened Trading
  import opened ReplayModel
  import opened ReplayRisk

  function Pending(exits: Exits): real
    requires |exits.qtys| == 3
  {
    exits.qtys[0] + exits.qtys[1] + exits.qtys[2]
  }

  /** What no pending target will sell. */
  function Runner(st: State): real
    requires |st.exits.qtys| == 3
  {
    st.pos.qty - Pending(st.exits)
  }

  /** The pending quantities are nonnegative and total at most the open quantity. */
  ghost predicate Covered(st: State) {
    && |st.exits.qtys| == 3
    && st.exits.qtys[0] >= 0.0 && st.exits.qtys[1] >= 0.0 && st.exits.qtys[2] >= 0.0
    && Runner(st) >= 0.0
  }

  /** A REDUCE of the whole position leaves its targets pending on nothing, so only an open one is covered. */
  ghost predicate Fits(st: State) {
    st.exits.frozen && st.pos.qty > 0.0 ==> Covered(st)
  }

  /** The take-profit percentages ask for no more than everything. */
  predicate Allocated(s: Setup) {
    s.terms.targetPcts.0 + s.terms.targetPcts.1 + s.terms.targetPcts.2 <= 100.0
  }

  // ----- freezing

  lemma {:induction false} SharesFit(qty: real, p1: real, p2: real, p3: real)
    requires qty >= 0.0 && p1 >= 0.0 && p2 >= 0.0 && p3 >= 0.0 && p1 + p2 + p3 <= 100.0
    ensures Share(qty, p1) >= 0.0 && Share(qty, p2) >= 0.0 && Share(qty, p3) >= 0.0
    ensures Share(qty, p1) + Share(qty, p2) + Share(qty, p3) <= qty
  {
    MulNonNegative(qty, p1);
    MulNonNegative(qty, p2);
    MulNonNegative(qty, p3);
    MulMono(p1 + p2 + p3, 100.0, qty);
  }

  lemma {:induction false} FreezeFits(s: Setup, st: State)
    requires Ready(s) && Allocated(s) && Sound(s, st) && Fits(st)
    ensures Fits(Freeze(s, st))
  {
    var (p1, p2, p3) := s.terms.targetPcts;
    SharesFit(st.pos.qty, p1, p2, p3);
  }

  // ----- target fills

  /** A target of a covered position sells exactly its pending quantity: the clamp does not bind. */
  lemma {:induction false} TargetSellsItsQuantity(s: Setup, st: State, c: Candle, i: nat)
    requires Sound(s, st) && st.exits.frozen && Covered(st) && i < 3
    ensures st.exits.qtys[i] <= st.pos.qty
    ensures
      var sold := if Gain(s.side, Favorable(s.side, c), st.exits.prices[i]) >= 0.0 then st.exits.qtys[i] else 0.0;
      && FillTarget(s, st, c, i).pos.qty == st.pos.qty - sold
      && FillTarget(s, st, c, i).exits.qtys == st.exits.qtys[i := st.exits.qtys[i] - sold]
    ensures Runner(FillTarget(s, st, c, i)) == Runner(st)
    ensures Covered(FillTarget(s, st, c, i))
  {
  }

  /** However many targets a candle fills, the runner is untouched. */
  lemma {:induction false} FillTargetsKeepsRunner(s: Setup, st: State, c: Candle)
    requires Sound(s, st) && st.exits.frozen && Covered(st)
    ensures Covered(FillTargets(s, st, c)) && Runner(FillTargets(s, st, c)) == Runner(st)
  {
    TargetSellsItsQuantity(s, st, c, 0);
    TargetSellsItsQuantity(s, FillTarget(s, st, c, 0), c, 1);
    TargetSellsItsQuantity(s, FillTarget(s, FillTarget(s, st, c, 0), c, 1), c, 2);
  }

  /** A flat position has nothing to sell. */
  lemma {:induction false} FlatStaysFlat(s: Setup, st: State, c: Candle)
    requires Sound(s, st) && st.exits.frozen && st.pos.qty == 0.0
    ensures FillTargets(s, st, c).pos == st.pos
  {
  }

  // ----- REDUCE

  /** Rescaling every pending quantity with the position rescales the runner with it. */
  lemma {:induction false} ScaleArithmetic(q: real, left: real, a: real, b: real, c: real, scale: real)
    requires q > 0.0 && left > 0.0 && scale == left / q
    requires a >= 0.0 && b >= 0.0 && c >= 0.0 && a + b + c <= q
    ensures a * scale >= 0.0 && b * scale >= 0.0 && c * scale >= 0.0
    ensures left - (a * scale + b * scale + c * scale) >= 0.0
    ensures (left - (a * scale + b * scale + c * scale)) * q == (q - (a + b + c)) * left
  {
    DivPositive(left, q);
    DivTimes(left, q);
    MulNonNegative(a, scale);
    MulNonNegative(b, scale);
    MulNonNegative(c, scale);
    var rest := q - (a + b + c);
    MulNonNegative(rest, scale);
    assert rest * scale == q * scale - (a * scale + b * scale + c * scale);
    assert (rest * scale) * q == rest * (scale * q);
  }

  /** A REDUCE keeps the exits fitting and the runner's share of what is left. */
  lemma {:induction false} ReducedKeepsRunnerShare(s: Setup, st: State, pct: real, price: real)
    requires Sound(s, st) && st.exits.frozen && Covered(st) && st.pos.qty > 0.0
    requires Reduced(s, st, pct, price).pos.qty > 0.0
    ensures Covered(Reduced(s, st, pct, price))
    ensures
      var after := Reduced(s, st, pct, price);
      Value(Runner(after), st.pos.qty) == Value(Runner(st), after.pos.qty)
  {
    var after := Reduced(s, st, pct, price);
    ScaledRunner(st.pos.qty, after.pos.qty, st.exits, after.exits);
  }

  lemma {:induction false} ScaledRunner(q: real, left: real, exits: Exits, exits': Exits)
    requires q > 0.0 && left > 0.0 && |exits.qtys| == 3 && exits'.qtys == Scaled(exits.qtys, left / q)
    requires exits.qtys[0] >= 0.0 && exits.qtys[1] >= 0.0 && exits.qtys[2] >= 0.0 && Pending(exits) <= q
    ensures exits'.qtys[0] >= 0.0 && exits'.qtys[1] >= 0.0 && exits'.qtys[2] >= 0.0 && Pending(exits') <= left
    ensures Value(left - Pending(exits'), q) == Value(q - Pending(exits), left)
  {
    ScaleArithmetic(q, left, exits.qtys[0], exits.qtys[1], exits.qtys[2], left / q);
  }

  lemma {:induction false} ReducedFits(s: Setup, st: State, pct: real, price: real)
    requires Sound(s, st) && st.exits.frozen && Fits(st)
    ensures Fits(Reduced(s, st, pct, price))
  {
    if st.pos.qty > 0.0 && Reduced(s, st, pct, price).pos.qty > 0.0 {
      ReducedKeepsRunnerShare(s, st, pct, price);
    }
  }

  lemma {:induction false} ApplyEventFits(s: Setup, st: State, event: Event)
    requires Ready(s) && Allocated(s) && Sound(s, st) && Fits(st)
    ensures Fits(ApplyEvent(s, st, event).0)
  {
    FreezeFits(s, st);
    if event.Reduce? && event.closePct.Some? {
      ReducedFits(s, Freeze(s, st), event.closePct.value, event.price);
    }
  }

  lemma {:induction false} ApplyEventsFits(s: Setup, st: State, candleEnd: int) returns (left: State, closed: bool)
    requires Ready(s) && Allocated(s) && Sound(s, st) && Fits(st)
    ensures ApplyEvents(s, st, candleEnd) == (left, closed) && Fits(left)
    decreases |s.terms.events| - st.eventIndex
  {
    if st.eventIndex >= |s.terms.events| || s.terms.events[st.eventIndex].time >= candleEnd {
      left, closed := st, false;
    } else {
      var next := st.(eventIndex := st.eventIndex + 1);
      if next.pos.qty <= 0.0 {
        left, closed := ApplyEventsFits(s, next, candleEnd);
      } else {
        ApplyEventFits(s, next, s.terms.events[st.eventIndex]);
        var applied := ApplyEvent(s, next, s.terms.events[st.eventIndex]);
        if applied.1 {
          left, closed := applied.0, true;
        } else {
          left, closed := ApplyEventsFits(s, applied.0, candleEnd);
        }
      }
    }
  }

  // ----- whole runs

  /** The state in which a candle considers the targets, if it gets that far. */
  function BeforeTargets(s: Setup, st: State, c: Candle): (r: Option<State>)
    requires Ready(s) && Sound(s, st) && WellFormed(c)
    ensures r.Some? ==> Sound(s, r.value)
  {
    var entered := FillLegs(s, st, c);
    var (left, closed) := if s.terms.useEvents then ApplyEvents(s, entered, c.time + 60_000) else (entered, false);
    if Touched(s, c, Protection(s, entered).0) || closed then None
    else if Trim(s, left, c) > 0.0 || left.legs.reclaimedAt == Some(c.time) then None
    else Some(Excursion(s, left, c))
  }

  lemma {:induction false} FillLegsFits(s: Setup, st: State, c: Candle)
    requires Ready(s) && Sound(s, st) && WellFormed(c) && Fits(st)
    ensures Fits(FillLegs(s, st, c))
  {
  }

  lemma {:induction false} BeforeTargetsFits(s: Setup, st: State, c: Candle)
    requires Ready(s) && Allocated(s) && Sound(s, st) && WellFormed(c) && Fits(st)
    ensures BeforeTargets(s, st, c).Some? ==> Fits(BeforeTargets(s, st, c).value)
  {
    FillLegsFits(s, st, c);
    var left := FillLegs(s, st, c);
    if s.terms.useEvents {
      var closed;
      left, closed := ApplyEventsFits(s, left, c.time + 60_000);
      if closed { return; }
    }
    ExcursionFits(s, left, c);
  }

  lemma {:induction false} ExcursionFits(s: Setup, st: State, c: Candle)
    requires Ready(s) && Allocated(s) && Sound(s, st) && Fits(st)
    ensures Fits(Excursion(s, st, c))
  {
    FreezeFits(s, st);
    assert Fits(st.(mfe := Excursion(s, st, c).mfe));
  }

  lemma {:induction false} ConcludeFits(s: Setup, st: State, c: Candle)
    requires Ready(s) && Allocated(s) && Sound(s, st) && Fits(st)
    ensures Conclude(s, st, c).Running? ==> Fits(Conclude(s, st, c).state)
  {
    FreezeFits(s, st);
  }

  lemma {:induction false} HarvestFits(s: Setup, st: State, c: Candle)
    requires Ready(s) && Allocated(s) && Sound(s, st) && Fits(st)
    ensures Harvest(s, st, c).Running? ==> Fits(Harvest(s, st, c).state)
  {
    ExcursionFits(s, st, c);
    var seen := Excursion(s, st, c);
    if seen.exits.frozen {
      if seen.pos.qty > 0.0 { FillTargetsKeepsRunner(s, seen, c); } else { FlatStaysFlat(s, seen, c); }
    }
    ConcludeFits(s, Reach(s, st, c), c);
  }

  lemma {:induction false} NoTrim(s: Setup, st: State, c: Candle)
    requires Ready(s) && Sound(s, st) && Trim(s, st, c) <= 0.0
    ensures Proceed(s, st, c) == if st.legs.reclaimedAt == Some(c.time) then Running(st) else Harvest(s, st, c)
  {
    assert st.(pos := ClosePart(s.side, st.pos, Trim(s, st, c), c.close, s.terms.takerFee)) == st;
  }

  /** The risk trim sells nothing once the exits are fixed. */
  ghost predicate TrimsUnfixed(s: Setup, st: State, c: Candle) {
    s.terms.trimCap.None? || (!s.terms.useEvents && (Trim(s, st, c) > 0.0 ==> !st.exits.frozen))
  }

  lemma {:induction false} ProceedFits(s: Setup, st: State, c: Candle)
    requires Ready(s) && Allocated(s) && Sound(s, st) && Fits(st) && (Trim(s, st, c) > 0.0 ==> !st.exits.frozen)
    ensures Proceed(s, st, c).Running? ==> Fits(Proceed(s, st, c).state)
  {
    if Trim(s, st, c) <= 0.0 {
      NoTrim(s, st, c);
      HarvestFits(s, st, c);
    }
  }

  lemma {:induction false} LifecycleFits(s: Setup, st: State, c: Candle)
    requires Ready(s) && Allocated(s) && Sound(s, st) && Fits(st) && TrimsUnfixed(s, st, c)
    ensures Lifecycle(s, st, c).Running? ==> Fits(Lifecycle(s, st, c).state)
  {
    if s.terms.useEvents {
      var left, closed := ApplyEventsFits(s, st, c.time + 60_000);
      if !closed {
        ProceedFits(s, left, c);
      }
    } else {
      ProceedFits(s, st, c);
    }
  }

  /** Without events, an earlier trim mark is out of date on this candle. */
  ghost predicate TrimIsPast(s: Setup, st: State, c: Candle) {
    s.terms.trimCap.Some? ==> !s.terms.useEvents && (st.legs.trimAt.Some? ==> st.legs.trimAt.value < c.time)
  }

  /** So the trim can only act on the candle that fills the third leg, when the exits are not fixed yet. */
  lemma {:induction false} TrimsBeforeExits(s: Setup, st: State, c: Candle)
    requires Ready(s) && Sound(s, st) && WellFormed(c) && TrimIsPast(s, st, c)
    ensures TrimsUnfixed(s, FillLegs(s, st, c), c)
  {
  }

  lemma {:induction false} StepFits(s: Setup, st: State, c: Candle)
    requires Ready(s) && Allocated(s) && Sound(s, st) && WellFormed(c) && Fits(st) && TrimIsPast(s, st, c)
    ensures Step(s, st, c).Running? ==> Fits(Step(s, st, c).state)
  {
    FillLegsFits(s, st, c);
    TrimsBeforeExits(s, st, c);
    LifecycleFits(s, FillLegs(s, st, c), c);
  }

  lemma {:induction false} NextFits(s: Setup, st: State, c: Candle)
    requires Ready(s) && Allocated(s) && Sound(s, st) && WellFormed(c)
    ensures Fits(st) && TrimIsPast(s, st, c) && Next(s, st, c).Some? ==> Fits(Next(s, st, c).value)
  {
    if Fits(st) && TrimIsPast(s, st, c) {
      StepFits(s, st, c);
    }
  }

  // ----- the trim mark

  ghost predicate Increasing(candles: seq<Candle>) {
    forall i, j :: 0 <= i < j < |candles| ==> candles[i].time < candles[j].time
  }

  /** No risk trim, or none that an event or a repeated time could let act on fixed exits. */
  ghost predicate TrimsOnce(s: Setup, candles: seq<Candle>) {
    s.terms.trimCap.Some? ==> !s.terms.useEvents && Increasing(candles)
  }

  ghost predicate MarkedBy(legs: Legs, time: int) {
    legs.trimAt.Some? ==> legs.trimAt.value <= time
  }

  lemma {:induction false} NextIsMarked(s: Setup, st: State, c: Candle)
    requires Ready(s) && Sound(s, st) && WellFormed(c) && !s.terms.useEvents && MarkedBy(st.legs, c.time)
    ensures Next(s, st, c).Some? ==> MarkedBy(Next(s, st, c).value.legs, c.time)
  {
    ReactKeepsLegs(s, FillLegs(s, st, c), c);
  }

  lemma {:induction false} MarkedEarlier(legs: Legs, candles: seq<Candle>, k: nat)
    requires 0 < k < |candles| && Increasing(candles) && MarkedBy(legs, candles[k - 1].time)
    ensures legs.trimAt.Some? ==> legs.trimAt.value < candles[k].time
  {
  }

  lemma {:induction false} AfterIsMarked(s: Setup, candles: seq<Candle>, k: nat)
    requires Ready(s) && Playable(candles) && 0 < k <= |candles| && !s.terms.useEvents && Increasing(candles)
    requires After(s, candles, k).Some?
    ensures MarkedBy(After(s, candles, k).value.legs, candles[k - 1].time)
  {
    var before := After(s, candles, k - 1).value;
    if k > 1 {
      AfterIsMarked(s, candles, k - 1);
      MarkedEarlier(before.legs, candles, k - 1);
    }
    NextIsMarked(s, before, candles[k - 1]);
  }

  lemma {:induction false} TrimIsPastAt(s: Setup, candles: seq<Candle>, k: nat)
    requires Ready(s) && Playable(candles) && k < |candles| && TrimsOnce(s, candles)
    requires After(s, candles, k).Some?
    ensures TrimIsPast(s, After(s, candles, k).value, candles[k])
  {
    if s.terms.trimCap.Some? && k > 0 {
      AfterIsMarked(s, candles, k);
      MarkedEarlier(After(s, candles, k).value.legs, candles, k);
    }
  }

  lemma {:induction false} InitialFits(s: Setup)
    requires Ready(s)
    ensures Fits(Initial(s))
  {
  }

  lemma {:induction false} FitAfter(s: Setup, candles: seq<Candle>, k: nat, st: State)
    requires Ready(s) && Allocated(s) && Playable(candles) && 0 < k <= |candles| && TrimsOnce(s, candles)
    requires After(s, candles, k) == Some(st)
    ensures Fits(st)
  {
    var before := After(s, candles, k - 1).value;
    if k > 1 {
      FitAfter(s, candles, k - 1, before);
    } else {
      InitialFits(s);
    }
    TrimIsPastAt(s, candles, k - 1);
    NextFits(s, before, candles[k - 1]);
  }

  /**
   Pending exits fit the position on every candle of every run, lifecycle events included: after any number of candles
   they are nonnegative and total at most the open quantity. With a risk trim this needs candle times that increase
   and no events.
   */
  lemma {:induction false} PendingExitsFit(s: Setup, candles: seq<Candle>, k: nat)
    requires Ready(s) && Allocated(s) && Playable(candles) && k <= |candles| && TrimsOnce(s, candles)
    requires After(s, candles, k).Some?
    ensures Fits(After(s, candles, k).value)
  {
    if k == 0 {
      InitialFits(s);
    } else {
      FitAfter(s, candles, k, After(s, candles, k).value);
    }
  }

  /** The candle goes on from the state in which it considered the targets. */
  ghost predicate GoesThrough(s: Setup, st: State, c: Candle, seen: State)
    requires Ready(s) && Sound(s, st) && WellFormed(c) && Sound(s, seen)
  {
    Step(s, st, c) == Conclude(s, if seen.exits.frozen then FillTargets(s, seen, c) else seen, c)
  }

  lemma {:induction false} StepThroughTargets(s: Setup, st: State, c: Candle)
    requires Ready(s) && Sound(s, st) && WellFormed(c) && BeforeTargets(s, st, c).Some?
    ensures GoesThrough(s, st, c, BeforeTargets(s, st, c).value)
  {
    var entered := FillLegs(s, st, c);
    var left := if s.terms.useEvents then ApplyEvents(s, entered, c.time + 60_000).0 else entered;
    NoTrim(s, left, c);
  }

  /** The targets of this candle are sold whole and leave the runner as it was. */
  ghost predicate SellsWhole(s: Setup, seen: State, c: Candle)
    requires Sound(s, seen)
  {
    seen.exits.frozen && seen.pos.qty > 0.0 ==>
      && (forall i :: 0 <= i < 3 ==> seen.exits.qtys[i] <= seen.pos.qty)
      && Runner(FillTargets(s, seen, c)) == Runner(seen)
  }

  lemma {:induction false} FittingSellsWhole(s: Setup, seen: State, c: Candle)
    requires Sound(s, seen) && Fits(seen)
    ensures SellsWhole(s, seen, c)
  {
    if seen.exits.frozen && seen.pos.qty > 0.0 {
      TargetSellsItsQuantity(s, seen, c, 0);
      TargetSellsItsQuantity(s, seen, c, 1);
      TargetSellsItsQuantity(s, seen, c, 2);
      FillTargetsKeepsRunner(s, seen, c);
    }
  }

  /**
   So on every candle of every run that gets to its targets, the engine's step goes through the state in which it
   considers them, no target is cut short there, and the fills leave the runner alone.
   */
  lemma {:induction false} TargetsAreNeverClamped(s: Setup, candles: seq<Candle>, k: nat)
    requires Ready(s) && Allocated(s) && Playable(candles) && k < |candles| && TrimsOnce(s, candles)
    requires After(s, candles, k).Some?
    ensures
      var seen := BeforeTargets(s, After(s, candles, k).value, candles[k]);
      seen.Some? ==>
        && GoesThrough(s, After(s, candles, k).value, candles[k], seen.value)
        && SellsWhole(s, seen.value, candles[k])
  {
    PendingExitsFit(s, candles, k);
    var st, c := After(s, candles, k).value, candles[k];
    BeforeTargetsFits(s, st, c);
    var seen := BeforeTargets(s, st, c);
    if seen.Some? {
      StepThroughTargets(s, st, c);
      FittingSellsWhole(s, seen.value, c);
    }
  }
}
