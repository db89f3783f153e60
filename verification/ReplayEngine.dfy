/**
 The replay as it is written: one object whose fields the helpers update in place, a loop over the
 candles and early returns. Every method is tied to the step functions of ReplayModel, so the
 theorems about runs hold for what this engine computes.
 */
module ReplayEngine {
  import opened Wrappers
  import opened Trading
  import opened ReplayModel

  /** What a replay returns. */
  datatype Report = Report(
    start: int,
    netR: real,
    mfeR: real,
    stopped: bool,
    lifecycleActions: nat,
    fundingR: real,
    entryLegsFilled: nat)

  /** The report tells the final state: its cash, its excursion, what funding paid, and the legs that were in. */
  ghost predicate Tells(report: Report, start: int, end: Outcome) {
    && end.Done? && report.stopped == end.stopped && report.start == start
    && report.netR == end.state.pos.realized && report.fundingR == end.state.pos.funding
    && report.mfeR == end.state.mfe && report.lifecycleActions == end.state.actions
    && report.entryLegsFilled == 1 + (if end.state.legs.second then 1 else 0) + (if end.state.legs.third then 1 else 0)
  }

  class Engine {
    const s: Setup

    var qty: real
    var avg: real
    var realized: real
    var fundingR: real
    ghost var ledger: seq<Flow>

    var secondFilled: bool
    var thirdFilled: bool
    var touchedAt: Option<int>
    var reclaimedAt: Option<int>
    var trimAt: Option<int>
    var protectiveStop: real

    var frozen: bool
    var targetPrices: seq<real>
    var targetQtys: seq<real>

    var trailing: bool
    var trailDistance: real
    var trailPrice: real
    var trailPeak: real

    var mfe: real
    var eventIndex: nat
    var lifecycleActions: nat

    ghost function Pos(): Position
      reads this`qty, this`avg, this`realized, this`fundingR, this`ledger
    {
      Position(qty, avg, realized, fundingR, ledger)
    }

    ghost function EntryLegs(): Legs
      reads this`secondFilled, this`thirdFilled, this`touchedAt, this`reclaimedAt, this`trimAt, this`protectiveStop
    {
      Legs(secondFilled, thirdFilled, touchedAt, reclaimedAt, trimAt, protectiveStop)
    }

    ghost function PendingExits(): Exits
      reads this`frozen, this`targetPrices, this`targetQtys
    {
      Exits(frozen, targetPrices, targetQtys)
    }

    ghost function Trailing(): TrailStop
      reads this`trailing, this`trailDistance, this`trailPrice, this`trailPeak
    {
      TrailStop(trailing, trailDistance, trailPrice, trailPeak)
    }

    /** The state of the model this object stands for. */
    ghost function View(): State
      reads this
    {
      State(Pos(), EntryLegs(), PendingExits(), Trailing(), mfe, eventIndex, lifecycleActions)
    }

    ghost predicate Valid()
      reads this
    {
      Ready(s) && Sound(s, View())
    }

    constructor (setup: Setup)
      requires Ready(setup)
      ensures s == setup && View() == Initial(setup) && Valid()
    {
      InitialIsSound(setup);
      var fee := Fee(LegQty(setup, setup.terms.weights.0, setup.level1), setup.level1,
                     if setup.terms.primaryIsMaker then setup.terms.makerFee else setup.terms.takerFee);
      s := setup;
      qty := LegQty(setup, setup.terms.weights.0, setup.level1);
      avg := setup.level1;
      realized := -fee;
      fundingR := 0.0;
      ledger := [Bought(LegQty(setup, setup.terms.weights.0, setup.level1), setup.level1, fee)];
      secondFilled, thirdFilled := false, false;
      touchedAt, reclaimedAt, trimAt := None, None, None;
      protectiveStop := setup.stop;
      frozen, targetPrices, targetQtys := false, [], [];
      trailing, trailDistance, trailPrice, trailPeak := false, 0.0, 0.0, 0.0;
      mfe, eventIndex, lifecycleActions := 0.0, 0, 0;
    }

    // ----- entries

    /** Averages a fill in and pays its fee. */
    method Enter(fillQty: real, price: real, feeRate: real)
      requires qty + fillQty != 0.0
      modifies this`qty, this`avg, this`realized, this`ledger
      ensures Pos() == Add(old(Pos()), fillQty, price, feeRate)
    {
      var oldQty := qty;
      qty := qty + fillQty;
      avg := Average(avg, oldQty, price, fillQty);
      realized := realized - Fee(fillQty, price, feeRate);
      ledger := ledger + [Bought(fillQty, price, Fee(fillQty, price, feeRate))];
    }

    method FillSecondLeg(c: Candle)
      requires Valid()
      modifies this`qty, this`avg, this`realized, this`ledger, this`secondFilled
      ensures Valid() && View() == FillSecond(s, old(View()), c)
    {
      ghost var before := View();
      if !secondFilled && Touched(s, c, s.level2) {
        LegQtyRisks(s, s.terms.weights.1, s.level2);
        Enter(LegQty(s, s.terms.weights.1, s.level2), s.level2, s.terms.makerFee);
        secondFilled := true;
        assert View() == FillSecond(s, before, c);
      }
    }

    /** The third leg at `price`, with its stop cap or risk trim. */
    method EnterThird(price: real, feeRate: real, time: int)
      requires 0.0 <= s.terms.takerFee < 1.0 && s.terms.weights.2 >= 0.0 && Gain(s.side, price, s.stop) > 0.0
      requires qty > 0.0
      modifies this`qty, this`avg, this`realized, this`ledger, this`thirdFilled, this`trimAt, this`protectiveStop
      ensures LegQty(s, s.terms.weights.2, price) >= 0.0
      ensures Pos() == Add(old(Pos()), LegQty(s, s.terms.weights.2, price), price, feeRate)
      ensures EntryLegs() == ThirdFilled(s, Pos(), old(EntryLegs()), time)
    {
      LegQtyRisks(s, s.terms.weights.2, price);
      Enter(LegQty(s, s.terms.weights.2, price), price, feeRate);
      thirdFilled := true;
      if s.terms.trimCap.Some? {
        trimAt := Some(time);
      }
      if s.terms.lossCap.Some? {
        var capStop := CapStop(s, qty, avg, realized, s.terms.lossCap.value);
        protectiveStop := if s.side.Long? then Max(protectiveStop, capStop) else Min(protectiveStop, capStop);
      }
    }

    method FillThirdLeg(c: Candle)
      requires Valid() && !frozen && WellFormed(c)
      modifies this`qty, this`avg, this`realized, this`ledger, this`thirdFilled, this`trimAt, this`protectiveStop,
               this`touchedAt, this`reclaimedAt
      ensures Valid() && View() == FillThird(s, old(View()), c)
    {
      ghost var before := View();
      if thirdFilled || c.time < s.terms.start + s.terms.minDelayMinutes * 60_000 {
        return;
      }
      if s.terms.reclaim {
        if touchedAt.None? {
          if Touched(s, c, s.level3) {
            touchedAt := Some(c.time);
          }
          return;
        }
        if c.time <= touchedAt.value || !Reclaimed(s, c) {
          return;
        }
        reclaimedAt := Some(c.time);
        ghost var legs := EntryLegs();
        EnterThird(c.close, s.terms.takerFee, c.time);
        assert View() == AddThird(s, before, c.close, s.terms.takerFee, legs, c.time);
      } else if Touched(s, c, s.level3) {
        EnterThird(s.level3, s.terms.makerFee, c.time);
        assert View() == AddThird(s, before, s.level3, s.terms.makerFee, before.legs, c.time);
      }
    }

    /** The pending scale-ins, in order, while the exits are not fixed. */
    method FillEntries(c: Candle)
      requires Valid() && WellFormed(c)
      modifies this
      ensures Valid() && View() == FillLegs(s, old(View()), c)
    {
      if !frozen {
        FillSecondLeg(c);
        FillThirdLeg(c);
      }
    }

    // ----- exits

    /** Closes at most the open quantity. */
    method Close(requested: real, price: real, feeRate: real)
      modifies this`qty, this`realized, this`ledger
      ensures Pos() == ClosePart(s.side, old(Pos()), requested, price, feeRate)
    {
      var amount := Min(requested, qty);
      if amount <= 0.0 {
        return;
      }
      realized := realized + (Value(amount, Gain(s.side, price, avg)) - Fee(amount, price, feeRate));
      qty := Max(0.0, qty - amount);
      ledger := ledger + [Sold(amount, price, Fee(amount, price, feeRate))];
    }

    /** Fixes the exits once. */
    method Fix()
      requires Valid()
      modifies this`frozen, this`targetPrices, this`targetQtys
      ensures Valid() && View() == Freeze(s, old(View()))
    {
      if frozen {
        return;
      }
      frozen := true;
      var rs := TargetRs(s, avg);
      targetPrices := [TargetPrice(s, avg, rs[0]), TargetPrice(s, avg, rs[1]), TargetPrice(s, avg, rs[2])];
      var pcts := s.terms.targetPcts;
      targetQtys := [Share(qty, pcts.0), Share(qty, pcts.1), Share(qty, pcts.2)];
    }

    /** A REDUCE, with the rescaling of what is still pending. */
    method Reduce(pct: real, price: real)
      requires Valid() && frozen
      modifies this`qty, this`realized, this`ledger, this`targetQtys, this`lifecycleActions
      ensures Valid() && View() == Reduced(s, old(View()), pct, price)
    {
      var before := qty;
      Close(Share(before, pct), price, s.terms.takerFee);
      lifecycleActions := lifecycleActions + 1;
      if before > 0.0 && qty > 0.0 {
        targetQtys := Scaled(targetQtys, qty / before);
      }
    }

    /** One event on an open position; reports whether it closed everything. */
    method HandleEvent(event: Event) returns (closed: bool)
      requires Valid()
      modifies this
      ensures (View(), closed) == ApplyEvent(s, old(View()), event) && (!closed ==> Valid())
    {
      if event.FundingPaid? {
        var payment := Fee(qty, event.price, event.rate);
        realized := realized + payment;
        fundingR := fundingR + payment;
        ledger := ledger + [Funding(payment)];
        return false;
      }
      Fix();
      if event.CloseAll? {
        Close(qty, event.price, s.terms.takerFee);
        lifecycleActions := lifecycleActions + 1;
        return true;
      }
      if event.closePct.Some? {
        Reduce(event.closePct.value, event.price);
      }
      return false;
    }

    /** The events before `candleEnd`, in order, until one closes the position. */
    method HandleEvents(candleEnd: int) returns (closed: bool)
      requires Valid()
      modifies this
      ensures (View(), closed) == ApplyEvents(s, old(View()), candleEnd) && (!closed ==> Valid())
    {
      closed := false;
      while eventIndex < |s.terms.events| && s.terms.events[eventIndex].time < candleEnd
        invariant Valid()
        invariant ApplyEvents(s, View(), candleEnd) == ApplyEvents(s, old(View()), candleEnd)
        decreases |s.terms.events| - eventIndex
      {
        var event := s.terms.events[eventIndex];
        ghost var before := View();
        eventIndex := eventIndex + 1;
        assert View() == before.(eventIndex := before.eventIndex + 1);
        if qty <= 0.0 {
          continue;
        }
        closed := HandleEvent(event);
        if closed {
          return;
        }
      }
    }

    /** The risk trim on the candle that filled the third leg; reports what it asked to sell. */
    method TrimRisk(c: Candle) returns (trimmed: bool)
      requires Valid()
      modifies this`qty, this`realized, this`ledger
      ensures View() == TrimmedState(s, old(View()), c) && trimmed == (Trim(s, old(View()), c) > 0.0) && Valid()
    {
      trimmed := false;
      if s.terms.trimCap.Some? && trimAt == Some(c.time) {
        var cap := s.terms.trimCap.value;
        var stopOut := Gain(s.side, protectiveStop, avg) - Value(protectiveStop, s.terms.takerFee);
        var closeOut := Gain(s.side, c.close, avg) - Value(c.close, s.terms.takerFee);
        var projected := realized + Value(qty, stopOut);
        var improvement := closeOut - stopOut;
        if projected < -cap && improvement > 0.0 {
          var amount := Min(qty, (-cap - projected) / improvement);
          Close(amount, c.close, s.terms.takerFee);
          trimmed := amount > 0.0;
        }
      }
    }

    /** One pending target, if the candle reached it. */
    method SellTarget(c: Candle, i: nat)
      requires Valid() && frozen && i < 3
      modifies this`qty, this`realized, this`ledger, this`targetQtys
      ensures Valid() && frozen && View() == FillTarget(s, old(View()), c, i)
    {
      ghost var before := View();
      if targetQtys[i] <= 0.0 || Gain(s.side, Favorable(s.side, c), targetPrices[i]) < 0.0 {
        return;
      }
      Close(targetQtys[i], targetPrices[i], s.terms.makerFee);
      targetQtys := targetQtys[i := 0.0];
      assert View() == FillTarget(s, before, c, i);
    }

    /** The pending targets the candle reached, in order. */
    method SellTargets(c: Candle)
      requires Valid() && frozen
      modifies this`qty, this`realized, this`ledger, this`targetQtys
      ensures Valid() && View() == FillTargets(s, old(View()), c)
    {
      ghost var before := View();
      for i := 0 to 3
        invariant Valid() && frozen
        invariant View() == TargetsUpTo(s, before, c, i)
      {
        SellTarget(c, i);
      }
      AllTargets(s, before, c);
    }

    /** Records the excursion, fixes the exits when due and sells the targets reached. */
    method Advance(c: Candle)
      requires Valid()
      modifies this
      ensures Valid() && View() == Reach(s, old(View()), c)
    {
      var currentR := RValue(s, avg, Favorable(s.side, c));
      mfe := Max(mfe, currentR);
      if !frozen && (currentR >= TargetRs(s, avg)[0] || RValue(s, avg, Activation(s, c)) >= s.terms.trailAt) {
        Fix();
      }
      assert View() == Excursion(s, old(View()), c);
      if frozen {
        SellTargets(c);
      }
    }

    /** Arms the trailing stop at `anchor`. */
    method Arm(anchor: real)
      requires qty > 0.0 && 0.0 <= s.terms.takerFee < 1.0
      modifies this`trailing, this`trailDistance, this`trailPrice, this`trailPeak
      ensures Trailing() == ArmTrail(s, Pos(), anchor)
    {
      var floor := FloorPrice(s, qty, avg, realized);
      trailDistance := Min(Value(s.terms.trailBy, Abs(avg - s.stop)), Max(0.0, Gain(s.side, anchor, floor)));
      trailPrice := Ahead(s.side, anchor, -trailDistance);
      trailPeak := anchor;
      trailing := true;
    }

    /** Arms the trailing stop or moves it behind a new peak. */
    method UpdateTrail(c: Candle)
      requires Valid() && qty > 0.0
      modifies this`frozen, this`targetPrices, this`targetQtys,
               this`trailing, this`trailDistance, this`trailPrice, this`trailPeak
      ensures Valid() && View() == Trail(s, old(View()), c)
    {
      ghost var before := View();
      var anchor := Activation(s, c);
      if RValue(s, avg, anchor) < s.terms.trailAt {
        return;
      }
      var favorable := Favorable(s.side, c);
      if !trailing {
        Fix();
        Arm(anchor);
        assert View() == Freeze(s, before).(trail := ArmTrail(s, before.pos, anchor));
      } else {
        if Gain(s.side, favorable, trailPeak) > 0.0 {
          trailPeak := favorable;
          trailPrice := Ahead(s.side, favorable, -trailDistance);
        }
        assert View() == before.(trail := RaiseTrail(s, before.trail, favorable));
      }
    }

    /** One candle; reports whether it ended the replay, and whether at the stop. */
    method Play(c: Candle) returns (done: bool, stopped: bool)
      requires Valid() && WellFormed(c)
      modifies this
      ensures Step(s, old(View()), c) == if done then Done(View(), stopped) else Running(View())
      ensures !done ==> Valid()
    {
      FillEntries(c);
      ghost var entered := View();
      var protection, trailed := protectiveStop, false;
      if trailing && Gain(s.side, trailPrice, protection) > 0.0 {
        protection, trailed := trailPrice, true;
      }
      if Touched(s, c, protection) {
        Close(qty, protection, s.terms.takerFee);
        return true, !trailed;
      }
      done, stopped := Live(c);
      assert Step(s, old(View()), c) == React(s, entered, c);
    }

    /** The candle after its stop: the lifecycle events, then the rest. */
    method Live(c: Candle) returns (done: bool, stopped: bool)
      requires Valid()
      modifies this
      ensures Lifecycle(s, old(View()), c) == if done then Done(View(), stopped) else Running(View())
      ensures !done ==> Valid()
    {
      if s.terms.useEvents {
        var closed := HandleEvents(c.time + 60_000);
        if closed {
          return true, false;
        }
      }
      done, stopped := Resume(c);
    }

    /** The candle after its adverse half: risk trim, targets, time stop and trailing stop. */
    method Resume(c: Candle) returns (done: bool, stopped: bool)
      requires Valid()
      modifies this
      ensures Proceed(s, old(View()), c) == if done then Done(View(), stopped) else Running(View())
      ensures !done ==> Valid()
    {
      stopped := false;
      var trimmed := TrimRisk(c);
      if trimmed || reclaimedAt == Some(c.time) {
        return false, false;
      }
      ghost var left := View();
      Advance(c);
      ghost var reached := View();
      assert Proceed(s, old(View()), c) == Conclude(s, reached, c);
      if qty <= 0.0 {
        return true, false;
      }
      if s.terms.timeStop.Some? {
        var limit := s.terms.timeStop.value;
        if c.time + 60_000 - s.terms.start >= limit.afterMinutes * 60_000
           && RValue(s, avg, c.close) <= limit.maxCloseR
           && (!limit.onlyBeforeTrail || mfe < s.terms.trailAt)
        {
          Close(qty, c.close, s.terms.takerFee);
          return true, false;
        }
      }
      UpdateTrail(c);
      return false, false;
    }

    /** Marks what is still open at the last close. */
    method CloseOut(price: real)
      modifies this`qty, this`realized, this`ledger
      ensures View() == Liquidate(s, old(View()), price)
    {
      Close(qty, price, s.terms.takerFee);
    }

    method MakeResult(stopped: bool) returns (report: Report)
      ensures Tells(report, s.terms.start, Done(View(), stopped))
    {
      var entryLegs := 1 + (if secondFilled then 1 else 0) + (if thirdFilled then 1 else 0);
      report := Report(s.terms.start, realized, mfe, stopped, lifecycleActions, fundingR, entryLegs);
    }
  }

  function TrimmedState(s: Setup, st: State, c: Candle): State {
    st.(pos := ClosePart(s.side, st.pos, Trim(s, st, c), c.close, s.terms.takerFee))
  }

  /** The state after the first `i` targets were considered. */
  function TargetsUpTo(s: Setup, st: State, c: Candle, i: nat): (r: State)
    requires Sound(s, st) && st.exits.frozen && i <= 3
    ensures Sound(s, r) && r.exits.frozen
  {
    if i == 0 then st else FillTarget(s, TargetsUpTo(s, st, c, i - 1), c, i - 1)
  }

  lemma {:induction false} AllTargets(s: Setup, st: State, c: Candle)
    requires Sound(s, st) && st.exits.frozen
    ensures TargetsUpTo(s, st, c, 3) == FillTargets(s, st, c)
  {
    assert TargetsUpTo(s, st, c, 1) == FillTarget(s, st, c, 0);
    assert TargetsUpTo(s, st, c, 2) == FillTarget(s, TargetsUpTo(s, st, c, 1), c, 1);
  }

  /**
   A replay from request to report. Where the checks reject the request nothing runs; otherwise the
   report is that of the model's run.
   */
  method ReplayCase(request: Request, candles: seq<Candle>) returns (r: Result<Report, Rejection>)
    requires Playable(candles)
    requires Prepare(request).Ok? ==> Ready(Prepare(request).value)
    ensures Prepare(request).Err? ==> r == Err(Prepare(request).error)
    ensures Prepare(request).Ok? ==>
              r.Ok? && Tells(r.value, request.terms.start, Replay(Prepare(request).value, candles))
  {
    var prepared := Prepare(request);
    if prepared.Err? {
      return Err(prepared.error);
    }
    var s := prepared.value;
    var engine := new Engine(s);
    for i := 0 to |candles|
      invariant engine.s == s && engine.Valid()
      invariant Run(s, engine.View(), candles, i) == Replay(s, candles)
    {
      ghost var before := engine.View();
      var done, stopped := engine.Play(candles[i]);
      if done {
        var report := engine.MakeResult(stopped);
        return Ok(report);
      }
      RunOn(s, before, candles, i, engine.View());
    }
    engine.CloseOut(candles[|candles| - 1].close);
    var report := engine.MakeResult(false);
    r := Ok(report);
  }
}
