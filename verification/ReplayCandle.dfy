/** The rules of a candle after its entries and events, and the theorem that every step of the engine follows them. */
module ReplayCandle {
  import opened Wrappers
  import opened Arithmetic
  import opened Trading
  import opened ReplayModel
  import opened ReplayTrail
  import opened ReplayCaps
  import opened ReplayRules

  // ----- the risk trim

  ghost predicate TrimDue(s: Setup, st: State, c: Candle) {
    && s.terms.trimCap.Some? && st.legs.trimAt == Some(c.time)
    && LiquidationValue(s, st.pos, st.legs.protective) < -s.terms.trimCap.value
    && LiquidationValue(s, st.pos, c.close) > LiquidationValue(s, st.pos, st.legs.protective)
  }

  /**
   On the candle that filled the third leg, a position whose stop-out would lose more than the cap sells at the close
   just what leaves a stop-out at the cap, or everything if that is not enough.
   */
  ghost predicate Trims(s: Setup, st: State, c: Candle, after: Position) {
    if TrimDue(s, st, c) then
      var sold, left := st.pos.qty - after.qty, LiquidationValue(s, after, st.legs.protective);
      && Sells(s.side, st.pos, after, sold, c.close, s.terms.takerFee)
      && 0.0 < sold <= st.pos.qty
      && if sold < st.pos.qty then left == -s.terms.trimCap.value else left <= -s.terms.trimCap.value
    else after == st.pos
  }

  function Trimmed(s: Setup, st: State, c: Candle): Position {
    ClosePart(s.side, st.pos, Trim(s, st, c), c.close, s.terms.takerFee)
  }

  lemma {:induction false} ImprovementIsPerUnit(s: Setup, pos: Position, price: real, stop: real)
    requires pos.qty >= 0.0
    ensures
      var now := Gain(s.side, price, pos.avg) - Value(price, s.terms.takerFee);
      var later := Gain(s.side, stop, pos.avg) - Value(stop, s.terms.takerFee);
      && LiquidationValue(s, pos, price) == LiquidationValue(s, pos, stop) + Value(pos.qty, now - later)
      && (LiquidationValue(s, pos, price) > LiquidationValue(s, pos, stop) <==> pos.qty > 0.0 && now > later)
  {
    var now := Gain(s.side, price, pos.avg) - Value(price, s.terms.takerFee);
    var later := Gain(s.side, stop, pos.avg) - Value(stop, s.terms.takerFee);
    PerUnitLiquidation(s, pos, price);
    PerUnitLiquidation(s, pos, stop);
    Exchange(pos.qty, pos.qty, now, later);
    assert Value(pos.qty - pos.qty, later) == 0.0;
    if pos.qty > 0.0 {
      if now > later { MulPositive(pos.qty, now - later); } else { MulNonNegative(pos.qty, later - now); }
    }
  }

  lemma {:induction false} WholeIsNotEnough(qty: real, missing: real, improvement: real)
    requires improvement > 0.0 && qty <= missing / improvement
    ensures Value(qty, improvement) <= missing
  {
    DivAtMost(missing, improvement, qty);
  }

  /** A trim that is due sells what its rule says. */
  lemma {:induction false} DueTrim(s: Setup, st: State, c: Candle, missing: real, improvement: real, sold: real)
    requires Ready(s) && Sound(s, st) && TrimDue(s, st, c)
    requires improvement == (Gain(s.side, c.close, st.pos.avg) - Value(c.close, s.terms.takerFee))
                            - (Gain(s.side, st.legs.protective, st.pos.avg)
                               - Value(st.legs.protective, s.terms.takerFee))
    requires missing == -s.terms.trimCap.value - LiquidationValue(s, st.pos, st.legs.protective)
    requires improvement > 0.0 && st.pos.qty > 0.0 && sold == Min(st.pos.qty, missing / improvement)
    ensures sold > 0.0
    ensures Trims(s, st, c, ClosePart(s.side, st.pos, sold, c.close, s.terms.takerFee))
  {
    DivPositive(missing, improvement);
    PartIsSold(s.side, st.pos, sold, c.close, s.terms.takerFee);
    EarlySale(s, st.pos, sold, c.close, st.legs.protective);
    if sold < st.pos.qty {
      DivTimes(missing, improvement);
    } else {
      WholeIsNotEnough(st.pos.qty, missing, improvement);
    }
  }

  /** The trim follows its rule. */
  lemma {:induction false} TrimFollows(s: Setup, st: State, c: Candle)
    requires Ready(s) && Sound(s, st)
    ensures Trims(s, st, c, Trimmed(s, st, c))
    ensures Trim(s, st, c) > 0.0 <==> TrimDue(s, st, c)
  {
    PerUnitLiquidation(s, st.pos, st.legs.protective);
    ImprovementIsPerUnit(s, st.pos, c.close, st.legs.protective);
    if TrimDue(s, st, c) {
      var now := Gain(s.side, c.close, st.pos.avg) - Value(c.close, s.terms.takerFee);
      var later := Gain(s.side, st.legs.protective, st.pos.avg) - Value(st.legs.protective, s.terms.takerFee);
      var missing := -s.terms.trimCap.value - LiquidationValue(s, st.pos, st.legs.protective);
      DueTrim(s, st, c, missing, now - later, Trim(s, st, c));
    }
  }

  // ----- the favorable half

  /** The price by which the trailing stop is armed. */
  function Anchor(s: Setup, c: Candle): real {
    if s.terms.activateOnClose then c.close else if s.side.Long? then c.high else c.low
  }

  predicate ReachesTrail(s: Setup, avg: real, c: Candle) {
    Gain(s.side, Anchor(s, c), avg) >= Value(s.terms.trailAt, Abs(avg - s.stop))
  }

  /** The larger of `mfe` and `best`, measured in `distance`. */
  ghost predicate Peaks(mfe: real, distance: real, best: real, after: real) {
    if Value(mfe, distance) >= best then after == mfe else Value(after, distance) == best
  }

  lemma {:induction false} LargerPeaks(mfe: real, distance: real, best: real)
    requires distance > 0.0
    ensures Peaks(mfe, distance, best, Max(mfe, best / distance))
  {
    DivTimes(best, distance);
    DivAtMost(best, distance, mfe);
  }

  /**
   The excursion is the largest so far, in units of the distance to the stop. The exits, `fixed` around the average, are
   fixed at the latest on the candle that gets to the first of them or to the trail.
   */
  ghost predicate Watches(s: Setup, st: State, c: Candle, fixed: Exits, seen: State) {
    var best := Gain(s.side, if s.side.Long? then c.high else c.low, st.pos.avg);
    && Fixes(s, st.pos, st.exits, fixed) && fixed.frozen && |fixed.prices| == 3
    && seen == st.(mfe := seen.mfe, exits := seen.exits)
    && Peaks(st.mfe, Abs(st.pos.avg - s.stop), best, seen.mfe)
    && seen.exits == if RisesTo(s, c, fixed.prices[0]) || ReachesTrail(s, st.pos.avg, c) then fixed else st.exits
  }

  lemma {:induction false} TargetIsReached(s: Setup, avg: real, price: real, r: real)
    requires avg != s.stop
    ensures RValue(s, avg, price) >= r <==> Gain(s.side, price, TargetPrice(s, avg, r)) >= 0.0
    ensures RValue(s, avg, price) >= r <==> Gain(s.side, price, avg) >= Value(r, Abs(avg - s.stop))
    ensures Value(RValue(s, avg, price), Abs(avg - s.stop)) == Gain(s.side, price, avg)
  {
    QuotientCompares(Gain(s.side, price, avg), Abs(avg - s.stop), r);
  }

  lemma {:induction false} ExcursionIsFixed(s: Setup, st: State, c: Candle, fixed: Exits)
    requires Ready(s) && Sound(s, st) && fixed == Freeze(s, st).exits
    ensures
      Excursion(s, st, c).exits
        == if st.exits.frozen || RisesTo(s, c, fixed.prices[0]) || ReachesTrail(s, st.pos.avg, c) then fixed
           else st.exits
  {
    var avg := st.pos.avg;
    TargetIsReached(s, avg, Favorable(s.side, c), TargetRs(s, avg)[0]);
    TargetIsReached(s, avg, Activation(s, c), s.terms.trailAt);
  }

  /** The excursion follows its rule. */
  lemma {:induction false} ExcursionFollows(s: Setup, st: State, c: Candle)
    requires Ready(s) && Sound(s, st)
    ensures Watches(s, st, c, Freeze(s, st).exits, Excursion(s, st, c))
  {
    FreezeFollows(s, st.pos, st.exits);
    ExcursionIsFixed(s, st, c, Freeze(s, st).exits);
    LargerPeaks(st.mfe, Abs(st.pos.avg - s.stop), Gain(s.side, Favorable(s.side, c), st.pos.avg));
  }

  /** What a pending target asks for on this candle. */
  function Asked(s: Setup, exits: Exits, c: Candle, i: nat): real
    requires i < |exits.qtys| && i < |exits.prices|
  {
    if exits.qtys[i] > 0.0 && RisesTo(s, c, exits.prices[i]) then exits.qtys[i] else 0.0
  }

  /** The targets a candle gets to are sold at their prices for the maker fee, in order, as far as the position goes. */
  ghost predicate SellsTargets(s: Setup, st: State, c: Candle, first: Position, second: Position, after: State) {
    && |st.exits.prices| == |st.exits.qtys| == 3
    && Sells(s.side, st.pos, first, Sellable(Asked(s, st.exits, c, 0), st.pos.qty), st.exits.prices[0],
             s.terms.makerFee)
    && Sells(s.side, first, second, Sellable(Asked(s, st.exits, c, 1), first.qty), st.exits.prices[1], s.terms.makerFee)
    && Sells(s.side, second, after.pos, Sellable(Asked(s, st.exits, c, 2), second.qty), st.exits.prices[2],
             s.terms.makerFee)
    && after == st.(pos := after.pos, exits := st.exits.(qtys := after.exits.qtys))
    && |after.exits.qtys| == 3
    && (forall i :: 0 <= i < 3 ==>
          after.exits.qtys[i] == if Asked(s, st.exits, c, i) > 0.0 then 0.0 else st.exits.qtys[i])
  }

  lemma {:induction false} TargetFollows(s: Setup, st: State, c: Candle, i: nat)
    requires Sound(s, st) && st.exits.frozen && i < 3
    ensures
      var r := FillTarget(s, st, c, i);
      && Sells(s.side, st.pos, r.pos, Sellable(Asked(s, st.exits, c, i), st.pos.qty), st.exits.prices[i],
               s.terms.makerFee)
      && r == st.(pos := r.pos, exits := st.exits.(qtys := r.exits.qtys))
      && r.exits.qtys
         == if Asked(s, st.exits, c, i) > 0.0 then st.exits.qtys[i := 0.0] else st.exits.qtys
  {
    PartIsSold(s.side, st.pos, st.exits.qtys[i], st.exits.prices[i], s.terms.makerFee);
    PartIsSold(s.side, st.pos, 0.0, st.exits.prices[i], s.terms.makerFee);
  }

  /** The targets follow their rule. */
  lemma {:induction false} TargetsFollow(s: Setup, st: State, c: Candle) returns (first: Position, second: Position)
    requires Sound(s, st) && st.exits.frozen
    ensures SellsTargets(s, st, c, first, second, FillTargets(s, st, c))
  {
    var one := FillTarget(s, st, c, 0);
    var two := FillTarget(s, one, c, 1);
    first, second := one.pos, two.pos;
    TargetFollows(s, st, c, 0);
    TargetFollows(s, one, c, 1);
    TargetFollows(s, two, c, 2);
    assert Asked(s, one.exits, c, 1) == Asked(s, st.exits, c, 1);
    assert Asked(s, two.exits, c, 2) == Asked(s, st.exits, c, 2);
  }

  // ----- the end of a candle

  /** The time is up, and the close is no better than the limit. */
  predicate TimesOut(s: Setup, st: State, c: Candle) {
    && s.terms.timeStop.Some?
    && c.time + 60_000 - s.terms.start >= s.terms.timeStop.value.afterMinutes * 60_000
    && Gain(s.side, c.close, st.pos.avg) <= Value(s.terms.timeStop.value.maxCloseR, Abs(st.pos.avg - s.stop))
    && (!s.terms.timeStop.value.onlyBeforeTrail || st.mfe < s.terms.trailAt)
  }

  /**
   A fresh trailing stop starts at its full distance behind the anchor. Where selling everything there would not leave
   0.05R after the fee it is moved up to where it just does, but never beyond the anchor.
   */
  ghost predicate Arms(s: Setup, pos: Position, anchor: real, trail: TrailStop) {
    var full := Value(s.terms.trailBy, Abs(pos.avg - s.stop));
    && trail.armed && trail.peak == anchor && trail.price == Ahead(s.side, anchor, -trail.distance)
    && if LiquidationValue(s, pos, Ahead(s.side, anchor, -full)) >= 0.05 then trail.distance == full
       else if LiquidationValue(s, pos, anchor) >= 0.05 then LiquidationValue(s, pos, trail.price) == 0.05
       else trail.distance == 0.0
  }

  /** An armed trailing stop keeps its distance behind the best price. */
  ghost predicate Pulls(s: Setup, trail: TrailStop, best: real, after: TrailStop) {
    after == if Gain(s.side, best, trail.peak) > 0.0
             then TrailStop(trail.armed, trail.distance, Ahead(s.side, best, -trail.distance), best) else trail
  }

  ghost predicate Trails(s: Setup, st: State, c: Candle, after: State) {
    if !ReachesTrail(s, st.pos.avg, c) then after == st
    else if !st.trail.armed then
      && Fixes(s, st.pos, st.exits, after.exits) && Arms(s, st.pos, Anchor(s, c), after.trail)
      && after == st.(exits := after.exits, trail := after.trail)
    else
      && Pulls(s, st.trail, if s.side.Long? then c.high else c.low, after.trail)
      && after == st.(trail := after.trail)
  }

  /** A flat position is done, one whose time is up is sold at the close, any other goes on with its trailing stop. */
  ghost predicate Concludes(s: Setup, st: State, c: Candle, r: Outcome) {
    if st.pos.qty <= 0.0 then r == Done(st, false)
    else if TimesOut(s, st, c) then
      && Sells(s.side, st.pos, r.state.pos, st.pos.qty, c.close, s.terms.takerFee)
      && r == Done(st.(pos := r.state.pos), false)
    else r.Running? && Trails(s, st, c, r.state)
  }

  lemma {:induction false} ArmFollows(s: Setup, pos: Position, anchor: real)
    requires pos.qty > 0.0 && 0.0 <= s.terms.takerFee < 1.0 && s.terms.trailBy >= 0.0
    ensures Arms(s, pos, anchor, ArmTrail(s, pos, anchor))
  {
    var full := Value(s.terms.trailBy, Abs(pos.avg - s.stop));
    var floor := RequiredFloor(s, pos);
    MulNonNegative(s.terms.trailBy, Abs(pos.avg - s.stop));
    assert full >= 0.0;
    FloorLeavesLockedR(s, pos);
    var behind := Ahead(s.side, anchor, -full);
    if Gain(s.side, anchor, floor) >= 0.0 {
      BetterPriceSellsForMore(s, pos, anchor, floor);
    } else {
      StrictlyWorsePrice(s, pos, anchor, floor);
    }
    if Gain(s.side, behind, floor) >= 0.0 {
      BetterPriceSellsForMore(s, pos, behind, floor);
    } else {
      StrictlyWorsePrice(s, pos, behind, floor);
    }
  }

  lemma {:induction false} TrailFollows(s: Setup, st: State, c: Candle)
    requires Ready(s) && Sound(s, st) && st.pos.qty > 0.0
    ensures Trails(s, st, c, Trail(s, st, c))
  {
    TargetIsReached(s, st.pos.avg, Activation(s, c), s.terms.trailAt);
    FreezeFollows(s, st.pos, st.exits);
    ArmFollows(s, st.pos, Activation(s, c));
  }

  lemma {:induction false} TimeStopFollows(s: Setup, st: State, c: Candle)
    requires st.pos.avg != s.stop
    ensures TimeStopHits(s, st, c) == TimesOut(s, st, c)
  {
    if s.terms.timeStop.Some? {
      AboveIsNotAtMost(Gain(s.side, c.close, st.pos.avg), Abs(st.pos.avg - s.stop), s.terms.timeStop.value.maxCloseR);
    }
  }

  lemma {:induction false} AboveIsNotAtMost(gain: real, distance: real, x: real)
    requires distance > 0.0
    ensures gain / distance <= x <==> gain <= Value(x, distance)
  {
    DivAtMost(gain, distance, x);
  }

  /** The end of a candle follows its rule. */
  lemma {:induction false} ConclusionFollows(s: Setup, st: State, c: Candle)
    requires Ready(s) && Sound(s, st)
    ensures Concludes(s, st, c, Conclude(s, st, c))
  {
    TimeStopFollows(s, st, c);
    if st.pos.qty > 0.0 {
      if TimesOut(s, st, c) {
        AllIsSold(s.side, st.pos, c.close, s.terms.takerFee);
      } else {
        TrailFollows(s, st, c);
      }
    }
  }

  // ----- the whole candle

  /** The states a candle passes through. Those after the point where it ended are of no account. */
  datatype Trace = Trace(
    mid: Position,
    entered: State,
    events: seq<State>,
    closed: bool,
    trimmed: State,
    fixed: Exits,
    seen: State,
    first: Position,
    second: Position,
    sold: State)

  /** The tighter of the protective stop and an armed trailing stop. */
  function Guard(s: Setup, st: State): real {
    var tighter := if s.side.Long? then st.trail.price > st.legs.protective else st.trail.price < st.legs.protective;
    if st.trail.armed && tighter then st.trail.price else st.legs.protective
  }

  ghost predicate Harvests(s: Setup, st: State, c: Candle, t: Trace, r: Outcome) {
    && Watches(s, st, c, t.fixed, t.seen)
    && (if t.seen.exits.frozen then SellsTargets(s, t.seen, c, t.first, t.second, t.sold) else t.sold == t.seen)
    && Concludes(s, t.sold, c, r)
  }

  /** A candle that trims, or whose close is the entry of a reclaim, goes no further. */
  ghost predicate Proceeds(s: Setup, st: State, c: Candle, t: Trace, r: Outcome) {
    && Trims(s, st, c, t.trimmed.pos) && t.trimmed == st.(pos := t.trimmed.pos)
    && if TrimDue(s, st, c) || st.legs.reclaimedAt == Some(c.time) then r == Running(t.trimmed)
       else Harvests(s, t.trimmed, c, t, r)
  }

  ghost predicate Happens(s: Setup, st: State, c: Candle, t: Trace, r: Outcome) {
    && (if s.terms.useEvents then TakesAll(s, t.events, c.time + 60_000, t.closed) else |t.events| == 1 && !t.closed)
    && t.events[0] == st
    && if t.closed then r == Done(t.events[|t.events| - 1], false) else Proceeds(s, t.events[|t.events| - 1], c, t, r)
  }

  /** A stop that is touched sells everything at its price; the flag tells a protective stop from a trailing one. */
  ghost predicate StopsOut(s: Setup, st: State, r: Outcome) {
    && Sells(s.side, st.pos, r.state.pos, st.pos.qty, Guard(s, st), s.terms.takerFee)
    && r == Done(st.(pos := r.state.pos), Guard(s, st) == st.legs.protective)
  }

  /** One candle by the rules: entries, then the stop, then everything else. */
  ghost predicate Plays(s: Setup, st: State, c: Candle, t: Trace, r: Outcome) {
    && Enters(s, st, c, t.mid, t.entered)
    && if FallsTo(s, c, Guard(s, t.entered)) then StopsOut(s, t.entered, r) else Happens(s, t.entered, c, t, r)
  }

  lemma {:induction false} HarvestFollows(s: Setup, st: State, c: Candle, t: Trace) returns (t': Trace)
    requires Ready(s) && Sound(s, st)
    ensures Harvests(s, st, c, t', Harvest(s, st, c))
    ensures t' == t.(fixed := t'.fixed, seen := t'.seen, first := t'.first, second := t'.second, sold := t'.sold)
  {
    var seen, sold := Excursion(s, st, c), Reach(s, st, c);
    ExcursionFollows(s, st, c);
    var first, second := t.first, t.second;
    if seen.exits.frozen { first, second := TargetsFollow(s, seen, c); }
    ConclusionFollows(s, sold, c);
    t' := t.(fixed := Freeze(s, st).exits, seen := seen, first := first, second := second, sold := sold);
  }

  lemma {:induction false} ProceedFollows(s: Setup, st: State, c: Candle, t: Trace) returns (t': Trace)
    requires Ready(s) && Sound(s, st)
    ensures Proceeds(s, st, c, t', Proceed(s, st, c))
    ensures t'.mid == t.mid && t'.entered == t.entered && t'.events == t.events && t'.closed == t.closed
  {
    TrimFollows(s, st, c);
    var trimmed := st.(pos := Trimmed(s, st, c));
    t' := t.(trimmed := trimmed);
    if !TrimDue(s, st, c) && st.legs.reclaimedAt != Some(c.time) {
      t' := HarvestFollows(s, trimmed, c, t');
    }
  }

  /** The states the events of a candle lead through. */
  lemma {:induction false} LifecycleEvents(s: Setup, st: State, c: Candle) returns (events: seq<State>, closed: bool)
    requires Ready(s) && Sound(s, st)
    ensures if s.terms.useEvents then TakesAll(s, events, c.time + 60_000, closed) else |events| == 1 && !closed
    ensures events[0] == st && (!closed ==> Sound(s, events[|events| - 1]))
    ensures Lifecycle(s, st, c) == if closed then Done(events[|events| - 1], false)
                                   else Proceed(s, events[|events| - 1], c)
  {
    events, closed := [st], false;
    if s.terms.useEvents {
      events := EventsFollow(s, st, c.time + 60_000);
      closed := ApplyEvents(s, st, c.time + 60_000).1;
    }
  }

  lemma {:induction false} LifecycleFollows(s: Setup, st: State, c: Candle, t: Trace) returns (t': Trace)
    requires Ready(s) && Sound(s, st)
    ensures Happens(s, st, c, t', Lifecycle(s, st, c)) && t'.mid == t.mid && t'.entered == t.entered
  {
    var events, closed := LifecycleEvents(s, st, c);
    t' := t.(events := events, closed := closed);
    if !closed {
      t' := ProceedFollows(s, events[|events| - 1], c, t');
    }
  }

  /** Every step of the engine follows the rules. */
  lemma {:induction false} StepFollows(s: Setup, st: State, c: Candle) returns (t: Trace)
    requires Ready(s) && Sound(s, st) && WellFormed(c)
    ensures Plays(s, st, c, t, Step(s, st, c))
  {
    var mid := EntriesFollow(s, st, c);
    var entered := FillLegs(s, st, c);
    t := Trace(mid, entered, [entered], false, entered, entered.exits, entered, mid, mid, entered);
    if FallsTo(s, c, Guard(s, entered)) {
      AllIsSold(s.side, entered.pos, Guard(s, entered), s.terms.takerFee);
    } else {
      t := LifecycleFollows(s, entered, c, t);
    }
  }
}
