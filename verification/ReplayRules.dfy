/**
 The rules of one candle, written out over the fields of a position. They name no step of the engine: they say in
 prices, quantities and fee rates what is bought and sold, when, and what is left as it was.
 */
module ReplayRules {
  import opened Wrappers
  import opened Arithmetic
  import opened Trading
  import opened ReplayModel
  import opened ReplayTrail
  import opened ReplayCaps

  // ----- cash

  /** `after` has bought `amount` at `price`: its average is the mean price paid, and the fee is paid at once. */
  ghost predicate Buys(pos: Position, after: Position, amount: real, price: real, rate: real) {
    && after.qty == pos.qty + amount
    && Value(after.avg, after.qty) == Value(pos.avg, pos.qty) + Value(price, amount)
    && after.realized == pos.realized - Value(Value(amount, price), rate)
    && after.funding == pos.funding
    && after.ledger == pos.ledger + [Bought(amount, price, Value(Value(amount, price), rate))]
  }

  /** A leg that risks `weight` between `price` and the stop. */
  ghost predicate BuysLeg(s: Setup, pos: Position, after: Position, weight: real, price: real, rate: real) {
    var amount := after.qty - pos.qty;
    Value(amount, Abs(price - s.stop)) == weight && Buys(pos, after, amount, price, rate)
  }

  /** `after` has sold `amount` of what was open at `price`, less the fee. */
  ghost predicate Sells(side: Side, pos: Position, after: Position, amount: real, price: real, rate: real) {
    && 0.0 <= amount <= pos.qty
    && after.qty == pos.qty - amount && after.avg == pos.avg
    && after.realized == pos.realized + Value(amount, Gain(side, price, pos.avg)) - Value(Value(amount, price), rate)
    && after.funding == pos.funding
    && after.ledger == if amount > 0.0 then pos.ledger + [Sold(amount, price, Value(Value(amount, price), rate))]
                       else pos.ledger
  }

  /** At most what is open, and nothing negative. */
  function Sellable(amount: real, open: real): real {
    Max(0.0, Min(amount, open))
  }

  lemma {:induction false} AddBuys(pos: Position, qty: real, price: real, rate: real)
    requires pos.qty + qty != 0.0
    ensures Buys(pos, Add(pos, qty, price, rate), qty, price, rate)
  {
    DivTimes(pos.avg * pos.qty + price * qty, pos.qty + qty);
  }

  lemma {:induction false} LegIsBought(s: Setup, pos: Position, weight: real, price: real, rate: real)
    requires Gain(s.side, price, s.stop) > 0.0 && weight >= 0.0
    requires pos.qty + LegQty(s, weight, price) != 0.0
    ensures BuysLeg(s, pos, Add(pos, LegQty(s, weight, price), price, rate), weight, price, rate)
  {
    LegQtyRisks(s, weight, price);
    AddBuys(pos, LegQty(s, weight, price), price, rate);
    assert Add(pos, LegQty(s, weight, price), price, rate).qty - pos.qty == LegQty(s, weight, price);
  }

  lemma {:induction false} PartIsSold(side: Side, pos: Position, amount: real, price: real, rate: real)
    requires pos.qty >= 0.0
    ensures Sells(side, pos, ClosePart(side, pos, amount, price, rate), Sellable(amount, pos.qty), price, rate)
  {
    if Min(amount, pos.qty) <= 0.0 {
      assert Value(0.0, Gain(side, price, pos.avg)) == 0.0 && Value(Value(0.0, price), rate) == 0.0;
    }
  }

  lemma {:induction false} AllIsSold(side: Side, pos: Position, price: real, rate: real)
    requires pos.qty >= 0.0
    ensures Sells(side, pos, ClosePart(side, pos, pos.qty, price, rate), pos.qty, price, rate)
  {
    PartIsSold(side, pos, pos.qty, price, rate);
  }

  // ----- entries

  /** The candle's worse extreme gets to `level`. */
  predicate FallsTo(s: Setup, c: Candle, level: real) {
    if s.side.Long? then c.low <= level else c.high >= level
  }

  /** The candle's better extreme gets to `level`. */
  predicate RisesTo(s: Setup, c: Candle, level: real) {
    if s.side.Long? then c.high >= level else c.low <= level
  }

  predicate SecondDue(s: Setup, st: State, c: Candle) {
    !st.exits.frozen && !st.legs.second && FallsTo(s, c, s.level2)
  }

  predicate ThirdOpen(s: Setup, st: State, c: Candle) {
    !st.exits.frozen && !st.legs.third && c.time >= s.terms.start + s.terms.minDelayMinutes * 60_000
  }

  /** The third leg fills at its level. */
  predicate LimitDue(s: Setup, st: State, c: Candle) {
    ThirdOpen(s, st, c) && !s.terms.reclaim && FallsTo(s, c, s.level3)
  }

  /** Under reclaim a touch of the third level is only noted. */
  predicate TouchDue(s: Setup, st: State, c: Candle) {
    ThirdOpen(s, st, c) && s.terms.reclaim && st.legs.touchedAt.None? && FallsTo(s, c, s.level3)
  }

  /** After the touch, the third leg fills at the close of a later candle that recovered the second level. */
  predicate ReclaimDue(s: Setup, st: State, c: Candle) {
    && ThirdOpen(s, st, c) && s.terms.reclaim
    && st.legs.touchedAt.Some? && c.time > st.legs.touchedAt.value
    && if s.side.Long? then c.close >= s.level2 else c.close <= s.level2
  }

  /** A stop that already keeps the loss within the cap stays; any other moves to where it is exactly the cap. */
  ghost predicate Caps(s: Setup, pos: Position, stop: real, moved: real) {
    if s.terms.lossCap.None? || LiquidationValue(s, pos, stop) >= -s.terms.lossCap.value then moved == stop
    else LiquidationValue(s, pos, moved) == -s.terms.lossCap.value
  }

  ghost predicate Notes(s: Setup, st: State, c: Candle, entered: State) {
    var filled := LimitDue(s, st, c) || ReclaimDue(s, st, c);
    && entered.legs.second == (st.legs.second || SecondDue(s, st, c))
    && entered.legs.third == (st.legs.third || filled)
    && entered.legs.touchedAt == (if TouchDue(s, st, c) then Some(c.time) else st.legs.touchedAt)
    && entered.legs.reclaimedAt == (if ReclaimDue(s, st, c) then Some(c.time) else st.legs.reclaimedAt)
    && entered.legs.trimAt == (if filled && s.terms.trimCap.Some? then Some(c.time) else st.legs.trimAt)
    && if filled then Caps(s, entered.pos, st.legs.protective, entered.legs.protective)
       else entered.legs.protective == st.legs.protective
  }

  /** The scale-ins of a candle: `mid` is the position after the second leg. */
  ghost predicate Enters(s: Setup, st: State, c: Candle, mid: Position, entered: State) {
    && (if SecondDue(s, st, c) then BuysLeg(s, st.pos, mid, s.terms.weights.1, s.level2, s.terms.makerFee)
        else mid == st.pos)
    && (if LimitDue(s, st, c) then BuysLeg(s, mid, entered.pos, s.terms.weights.2, s.level3, s.terms.makerFee)
        else if ReclaimDue(s, st, c) then BuysLeg(s, mid, entered.pos, s.terms.weights.2, c.close, s.terms.takerFee)
        else entered.pos == mid)
    && Notes(s, st, c, entered)
    && entered == st.(pos := entered.pos, legs := entered.legs)
  }

  lemma {:induction false} StopIsCapped(s: Setup, pos: Position, legs: Legs, time: int)
    requires pos.qty > 0.0 && 0.0 <= s.terms.takerFee < 1.0
    ensures Caps(s, pos, legs.protective, ThirdFilled(s, pos, legs, time).protective)
  {
    if s.terms.lossCap.Some? {
      var stop := CapStop(s, pos.qty, pos.avg, pos.realized, s.terms.lossCap.value);
      CapStopLeavesCap(s, pos, s.terms.lossCap.value);
      if Gain(s.side, stop, legs.protective) > 0.0 {
        StrictlyWorsePrice(s, pos, legs.protective, stop);
      } else {
        BetterPriceSellsForMore(s, pos, legs.protective, stop);
      }
    }
  }

  lemma {:induction false} SecondFollows(s: Setup, st: State, c: Candle)
    requires Ready(s) && Sound(s, st) && !st.exits.frozen
    ensures
      var mid := FillSecond(s, st, c);
      && (if SecondDue(s, st, c) then BuysLeg(s, st.pos, mid.pos, s.terms.weights.1, s.level2, s.terms.makerFee)
          else mid.pos == st.pos)
      && mid == st.(pos := mid.pos, legs := st.legs.(second := st.legs.second || SecondDue(s, st, c)))
  {
    if SecondDue(s, st, c) {
      LegQtyRisks(s, s.terms.weights.1, s.level2);
      LegIsBought(s, st.pos, s.terms.weights.1, s.level2, s.terms.makerFee);
    }
  }

  lemma {:induction false} AddThirdFollows(s: Setup, st: State, price: real, rate: real, legs: Legs, time: int)
    requires Ready(s) && Sound(s, st) && !st.exits.frozen && !st.legs.third
    requires price > 0.0 && Gain(s.side, price, s.stop) > 0.0
    ensures
      var r := AddThird(s, st, price, rate, legs, time);
      && BuysLeg(s, st.pos, r.pos, s.terms.weights.2, price, rate)
      && Caps(s, r.pos, legs.protective, r.legs.protective)
      && r.legs == legs.(third := true, protective := r.legs.protective,
                         trimAt := if s.terms.trimCap.Some? then Some(time) else legs.trimAt)
      && r == st.(pos := r.pos, legs := r.legs)
  {
    LegQtyRisks(s, s.terms.weights.2, price);
    LegIsBought(s, st.pos, s.terms.weights.2, price, rate);
    StopIsCapped(s, AddThird(s, st, price, rate, legs, time).pos, legs, time);
  }

  /** The pending scale-ins follow the rules. */
  lemma {:induction false} EntriesFollow(s: Setup, st: State, c: Candle) returns (mid: Position)
    requires Ready(s) && Sound(s, st) && WellFormed(c)
    ensures Enters(s, st, c, mid, FillLegs(s, st, c))
  {
    mid := st.pos;
    if !st.exits.frozen {
      SecondFollows(s, st, c);
      var second := FillSecond(s, st, c);
      mid := second.pos;
      if LimitDue(s, st, c) {
        AddThirdFollows(s, second, s.level3, s.terms.makerFee, second.legs, c.time);
      } else if ReclaimDue(s, st, c) {
        AddThirdFollows(s, second, c.close, s.terms.takerFee, second.legs.(reclaimedAt := Some(c.time)), c.time);
      }
    }
  }

  // ----- fixing the exits

  /** A trader target between half an R and the last multiple. */
  predicate CapsTargets(s: Setup, target: real, distance: real) {
    s.terms.traderTarget.Some? && Value(0.5, distance) <= target < Value(s.terms.targetRs.2, distance)
  }

  /**
   The three target prices. A trader target between half an R and the last multiple is the third price; the first two
   are kept and put halfway, or, if it is no further than the first multiple, all three keep their proportions.
   */
  ghost predicate Targets(s: Setup, avg: real, prices: seq<real>)
    requires |prices| == 3
  {
    var r, distance := s.terms.targetRs, Abs(avg - s.stop);
    var target := if s.terms.traderTarget.Some? then Gain(s.side, s.terms.traderTarget.value, avg) else 0.0;
    if CapsTargets(s, target, distance) then
      if target > Value(r.0, distance) then
        && prices[0] == Ahead(s.side, avg, Value(r.0, distance))
        && prices[1] + prices[1] == prices[0] + prices[2]
        && prices[2] == s.terms.traderTarget.value
      else
        && Value(Gain(s.side, prices[0], avg), r.2) == Value(r.0, target)
        && Value(Gain(s.side, prices[1], avg), r.2) == Value(r.1, target)
        && Value(Gain(s.side, prices[2], avg), r.2) == Value(r.2, target)
    else
      && prices[0] == Ahead(s.side, avg, Value(r.0, distance))
      && prices[1] == Ahead(s.side, avg, Value(r.1, distance))
      && prices[2] == Ahead(s.side, avg, Value(r.2, distance))
  }

  /** The exits are fixed once: three prices around the average, and percentages of what is then open. */
  ghost predicate Fixes(s: Setup, pos: Position, exits: Exits, fixed: Exits) {
    if exits.frozen then fixed == exits
    else
      && fixed.frozen && |fixed.prices| == 3 && Targets(s, pos.avg, fixed.prices)
      && |fixed.qtys| == 3
      && 100.0 * fixed.qtys[0] == Value(pos.qty, s.terms.targetPcts.0)
      && 100.0 * fixed.qtys[1] == Value(pos.qty, s.terms.targetPcts.1)
      && 100.0 * fixed.qtys[2] == Value(pos.qty, s.terms.targetPcts.2)
  }

  lemma {:induction false} QuotientCompares(gain: real, distance: real, x: real)
    requires distance > 0.0
    ensures gain / distance < x <==> gain < Value(x, distance)
    ensures x <= gain / distance <==> Value(x, distance) <= gain
    ensures Value(gain / distance, distance) == gain
  {
    DivAtMost(gain, distance, x);
    DivTimes(gain, distance);
  }

  lemma {:induction false} RescaledGain(r: real, reached: real, last: real, distance: real, target: real)
    requires last > 0.0 && Value(reached, distance) == target
    ensures Value(Value(Rescale(r, reached, last), distance), last) == Value(r, target)
  {
    DivTimes(r * reached, last);
    var q := Rescale(r, reached, last);
    assert (q * distance) * last == (q * last) * distance == r * (reached * distance);
  }

  lemma {:induction false} Halfway(s: Setup, avg: real, r: real, reached: real, distance: real)
    ensures
      var middle := Ahead(s.side, avg, Value((r + reached) / 2.0, distance));
      middle + middle == Ahead(s.side, avg, Value(r, distance)) + Ahead(s.side, avg, Value(reached, distance))
  {
    assert Value((r + reached) / 2.0, distance) == (Value(r, distance) + Value(reached, distance)) / 2.0;
  }

  function PricesAt(s: Setup, avg: real, rs: seq<real>): (r: seq<real>)
    requires |rs| == 3
    ensures |r| == 3
  {
    [TargetPrice(s, avg, rs[0]), TargetPrice(s, avg, rs[1]), TargetPrice(s, avg, rs[2])]
  }

  lemma {:induction false} ScaledPrices(s: Setup, avg: real, reached: real, target: real)
    requires s.terms.targetRs.2 > 0.0 && Value(reached, Abs(avg - s.stop)) == target
    requires CapsTargets(s, target, Abs(avg - s.stop)) && target == Gain(s.side, s.terms.traderTarget.value, avg)
    requires target <= Value(s.terms.targetRs.0, Abs(avg - s.stop))
    ensures
      var r := s.terms.targetRs;
      var rs := [Rescale(r.0, reached, r.2), Rescale(r.1, reached, r.2), Rescale(r.2, reached, r.2)];
      Targets(s, avg, PricesAt(s, avg, rs))
  {
    var r, distance := s.terms.targetRs, Abs(avg - s.stop);
    RescaledGain(r.0, reached, r.2, distance, target);
    RescaledGain(r.1, reached, r.2, distance, target);
    RescaledGain(r.2, reached, r.2, distance, target);
  }

  lemma {:induction false} KeptPrices(s: Setup, avg: real, reached: real, target: real)
    requires Value(reached, Abs(avg - s.stop)) == target
    requires CapsTargets(s, target, Abs(avg - s.stop)) && target == Gain(s.side, s.terms.traderTarget.value, avg)
    requires target > Value(s.terms.targetRs.0, Abs(avg - s.stop))
    ensures
      var r := s.terms.targetRs;
      Targets(s, avg, PricesAt(s, avg, [r.0, (r.0 + reached) / 2.0, reached]))
  {
    Halfway(s, avg, s.terms.targetRs.0, reached, Abs(avg - s.stop));
  }

  lemma {:induction false} PolicyPrices(s: Setup, avg: real, target: real)
    requires s.terms.traderTarget.Some? ==> target == Gain(s.side, s.terms.traderTarget.value, avg)
    requires !CapsTargets(s, target, Abs(avg - s.stop))
    ensures
      var r := s.terms.targetRs;
      Targets(s, avg, PricesAt(s, avg, [r.0, r.1, r.2]))
  {
  }

  lemma {:induction false} FixedPrices(s: Setup, avg: real)
    requires Ready(s) && avg != s.stop
    ensures Targets(s, avg, PricesAt(s, avg, TargetRs(s, avg)))
  {
    var r, distance := s.terms.targetRs, Abs(avg - s.stop);
    if s.terms.traderTarget.None? {
      PolicyPrices(s, avg, 0.0);
    } else {
      var target := Gain(s.side, s.terms.traderTarget.value, avg);
      var reached := RValue(s, avg, s.terms.traderTarget.value);
      QuotientCompares(target, distance, 0.5);
      QuotientCompares(target, distance, r.0);
      QuotientCompares(target, distance, r.2);
      AboveQuotient(target, distance, r.0);
      if !CapsTargets(s, target, distance) {
        PolicyPrices(s, avg, target);
      } else if target > Value(r.0, distance) {
        KeptPrices(s, avg, reached, target);
      } else {
        ScaledPrices(s, avg, reached, target);
      }
    }
  }

  lemma {:induction false} AboveQuotient(gain: real, distance: real, x: real)
    requires distance > 0.0
    ensures gain / distance > x <==> gain > Value(x, distance)
  {
    DivAtMost(gain, distance, x);
  }

  lemma {:induction false} FreezeFollows(s: Setup, pos: Position, exits: Exits)
    requires Ready(s) && pos.avg != s.stop
    requires exits.frozen ==> |exits.prices| == |exits.qtys| == 3
    ensures Fixes(s, pos, exits, FreezeExits(s, pos, exits))
  {
    FixedPrices(s, pos.avg);
  }

  // ----- lifecycle events

  /** A REDUCE sells its percentage, and what is pending then keeps its share of what is left. */
  ghost predicate Reduces(s: Setup, st: State, pct: real, price: real, fixed: Exits, after: State) {
    && Fixes(s, st.pos, st.exits, fixed) && |fixed.qtys| == |after.exits.qtys|
    && Sells(s.side, st.pos, after.pos, Sellable(Value(st.pos.qty, pct) / 100.0, st.pos.qty), price, s.terms.takerFee)
    && after.exits == fixed.(qtys := after.exits.qtys)
    && (after.pos.qty <= 0.0 ==> after.exits == fixed)
    && (after.pos.qty > 0.0 ==>
          forall i :: 0 <= i < |fixed.qtys| ==>
            Value(after.exits.qtys[i], st.pos.qty) == Value(fixed.qtys[i], after.pos.qty))
    && after.actions == st.actions + 1
  }

  /** A funding payment moves cash only. */
  ghost predicate Funds(pos: Position, after: Position, payment: real) {
    && after.qty == pos.qty && after.avg == pos.avg
    && after.realized == pos.realized + payment && after.funding == pos.funding + payment
    && after.ledger == pos.ledger + [Funding(payment)]
  }

  /** What one event does to an open position. */
  ghost predicate Answers(s: Setup, st: State, event: Event, after: State) {
    match event
    case FundingPaid(_, rate, price) =>
      Funds(st.pos, after.pos, Value(Value(st.pos.qty, price), rate)) && after.exits == st.exits
      && after.actions == st.actions
    case CloseAll(_, price) =>
      && Sells(s.side, st.pos, after.pos, st.pos.qty, price, s.terms.takerFee)
      && Fixes(s, st.pos, st.exits, after.exits) && after.actions == st.actions + 1
    case Reduce(_, Some(pct), price) =>
      exists fixed :: Reduces(s, st, pct, price, fixed, after)
    case Reduce(_, None, _) =>
      after.pos == st.pos && Fixes(s, st.pos, st.exits, after.exits) && after.actions == st.actions
  }

  /** One event is taken; on a flat position it does nothing. */
  ghost predicate Handles(s: Setup, st: State, event: Event, after: State) {
    && after.eventIndex == st.eventIndex + 1
    && after.legs == st.legs && after.trail == st.trail && after.mfe == st.mfe
    && if st.pos.qty <= 0.0 then after.pos == st.pos && after.exits == st.exits && after.actions == st.actions
       else Answers(s, st, event, after)
  }

  /** The event closes the whole position. */
  predicate ClosesAll(s: Setup, st: State) {
    st.eventIndex < |s.terms.events| && s.terms.events[st.eventIndex].CloseAll? && st.pos.qty > 0.0
  }

  predicate EventDue(s: Setup, st: State, candleEnd: int) {
    st.eventIndex < |s.terms.events| && s.terms.events[st.eventIndex].time < candleEnd
  }

  /** The next event of `st` is due and leads to `after`. */
  ghost predicate Takes(s: Setup, st: State, candleEnd: int, after: State) {
    EventDue(s, st, candleEnd) && Handles(s, st, s.terms.events[st.eventIndex], after)
  }

  /** The events of a candle, one state after another, until one closes the position or none is due. */
  ghost predicate TakesAll(s: Setup, trace: seq<State>, candleEnd: int, closed: bool) {
    && trace != []
    && (forall i :: 0 <= i < |trace| - 1 ==> Takes(s, trace[i], candleEnd, trace[i + 1]))
    && (forall i :: 0 <= i < |trace| - 2 ==> !ClosesAll(s, trace[i]))
    && (if closed then |trace| > 1 && ClosesAll(s, trace[|trace| - 2])
        else !EventDue(s, trace[|trace| - 1], candleEnd) && (|trace| > 1 ==> !ClosesAll(s, trace[|trace| - 2])))
  }

  lemma {:induction false} ScaledShares(amounts: seq<real>, left: real, whole: real)
    requires whole != 0.0
    ensures |Scaled(amounts, left / whole)| == |amounts|
    ensures forall i :: 0 <= i < |amounts| ==>
              Value(Scaled(amounts, left / whole)[i], whole) == Value(amounts[i], left)
  {
    forall i | 0 <= i < |amounts|
      ensures Value(Scaled(amounts, left / whole)[i], whole) == Value(amounts[i], left)
    {
      DivTimes(left, whole);
      assert (amounts[i] * (left / whole)) * whole == amounts[i] * ((left / whole) * whole);
    }
  }

  lemma {:induction false} ReduceFollows(s: Setup, st: State, pct: real, price: real)
    requires Ready(s) && Sound(s, st) && st.pos.qty > 0.0
    ensures Reduces(s, st, pct, price, Freeze(s, st).exits, Reduced(s, Freeze(s, st), pct, price))
  {
    FreezeFollows(s, st.pos, st.exits);
    PartIsSold(s.side, st.pos, Share(st.pos.qty, pct), price, s.terms.takerFee);
    var fixed := Freeze(s, st);
    var after := Reduced(s, fixed, pct, price);
    ScaledShares(fixed.exits.qtys, after.pos.qty, st.pos.qty);
  }

  lemma {:induction false} EventFollows(s: Setup, st: State, event: Event)
    requires Ready(s) && Sound(s, st) && st.pos.qty > 0.0
    ensures Answers(s, st, event, ApplyEvent(s, st, event).0)
    ensures ApplyEvent(s, st, event).1 <==> event.CloseAll?
    ensures ApplyEvent(s, st, event).0 == st.(pos := ApplyEvent(s, st, event).0.pos,
                                              exits := ApplyEvent(s, st, event).0.exits,
                                              actions := ApplyEvent(s, st, event).0.actions)
  {
    FreezeFollows(s, st.pos, st.exits);
    if event.CloseAll? {
      AllIsSold(s.side, st.pos, event.price, s.terms.takerFee);
    } else if event.Reduce? && event.closePct.Some? {
      ReduceFollows(s, st, event.closePct.value, event.price);
    }
  }

  lemma {:induction false} Prepended(s: Setup, st: State, rest: seq<State>, candleEnd: int, closed: bool)
    returns (trace: seq<State>)
    requires TakesAll(s, rest, candleEnd, closed) && Takes(s, st, candleEnd, rest[0]) && !ClosesAll(s, st)
    ensures trace == [st] + rest && TakesAll(s, trace, candleEnd, closed)
  {
    trace := [st] + rest;
    forall i | 0 <= i < |trace| - 1
      ensures Takes(s, trace[i], candleEnd, trace[i + 1])
    {
      if i > 0 { assert Takes(s, rest[i - 1], candleEnd, rest[i]); }
    }
    forall i | 0 <= i < |trace| - 2
      ensures !ClosesAll(s, trace[i])
    {
      if i > 0 { assert !ClosesAll(s, rest[i - 1]); }
    }
  }

  lemma {:induction false} AnswersAtIndex(s: Setup, st: State, next: State, event: Event, after: State)
    requires next == st.(eventIndex := st.eventIndex + 1) && st.pos.qty > 0.0
    requires Answers(s, next, event, after)
    requires after == next.(pos := after.pos, exits := after.exits, actions := after.actions)
    ensures Handles(s, st, event, after)
  {
    if event.Reduce? && event.closePct.Some? {
      var pct := event.closePct.value;
      var fixed :| Reduces(s, next, pct, event.price, fixed, after);
      assert Reduces(s, st, pct, event.price, fixed, after);
    }
  }

  /** One turn of the event loop. */
  lemma {:induction false} NextEvent(s: Setup, st: State, candleEnd: int) returns (after: State, closed: bool)
    requires Ready(s) && Sound(s, st) && EventDue(s, st, candleEnd)
    ensures Takes(s, st, candleEnd, after) && closed == ClosesAll(s, st)
    ensures after.eventIndex == st.eventIndex + 1 && (!closed ==> Sound(s, after))
    ensures ApplyEvents(s, st, candleEnd) == if closed then (after, true) else ApplyEvents(s, after, candleEnd)
  {
    var event := s.terms.events[st.eventIndex];
    after, closed := st.(eventIndex := st.eventIndex + 1), false;
    if st.pos.qty > 0.0 {
      var next := after;
      EventFollows(s, next, event);
      var applied := ApplyEvent(s, next, event);
      after, closed := applied.0, applied.1;
      AnswersAtIndex(s, st, next, event, after);
    }
  }

  lemma {:induction false} NoneTaken(s: Setup, st: State, candleEnd: int)
    requires !EventDue(s, st, candleEnd)
    ensures TakesAll(s, [st], candleEnd, false)
  {
  }

  lemma {:induction false} LastTaken(s: Setup, st: State, after: State, candleEnd: int)
    requires Takes(s, st, candleEnd, after) && ClosesAll(s, st)
    ensures TakesAll(s, [st, after], candleEnd, true)
  {
  }

  /** The event loop follows the rules. */
  lemma {:induction false} EventsFollow(s: Setup, st: State, candleEnd: int) returns (trace: seq<State>)
    requires Ready(s) && Sound(s, st)
    ensures TakesAll(s, trace, candleEnd, ApplyEvents(s, st, candleEnd).1)
    ensures trace[0] == st && trace[|trace| - 1] == ApplyEvents(s, st, candleEnd).0
    decreases |s.terms.events| - st.eventIndex
  {
    if !EventDue(s, st, candleEnd) {
      NoneTaken(s, st, candleEnd);
      trace := [st];
    } else {
      var after, closed := NextEvent(s, st, candleEnd);
      if closed {
        LastTaken(s, st, after, candleEnd);
        trace := [st, after];
      } else {
        var rest := EventsFollow(s, after, candleEnd);
        trace := Prepended(s, st, rest, candleEnd, ApplyEvents(s, st, candleEnd).1);
      }
    }
  }
}
