/** The fee schedule of a run, and the cash its targets bring in. */
module ReplayFees {
  import opened Wrappers
  import opened Arithmetic
  import opened Trading
  import opened ReplayModel
  import opened ReplayAccounts
  import opened ReplayExits
  import opened ReplayRules
  import opened ReplayCandle
  import opened ReplayRuns

  // ----- what a candle turns over at the maker rate

  /** What a leg that risks `weight` between `price` and the stop costs. */
  function LegCost(s: Setup, weight: real, price: real): real
    requires price != s.stop
  {
    Value(weight / Abs(price - s.stop), price)
  }

  /** The scale-ins that fill at their levels. */
  function LevelFills(s: Setup, st: State, c: Candle): real
    requires LevelsClear(s)
  {
    (if SecondDue(s, st, c) then LegCost(s, s.terms.weights.1, s.level2) else 0.0)
    + (if LimitDue(s, st, c) then LegCost(s, s.terms.weights.2, s.level3) else 0.0)
  }

  /** The targets the candle gets to, as far as the position goes. */
  function TargetsSold(s: Setup, seen: State, c: Candle, first: Position, second: Position): real
    requires |seen.exits.prices| == |seen.exits.qtys| == 3
  {
    Value(Sellable(Asked(s, seen.exits, c, 0), seen.pos.qty), seen.exits.prices[0])
    + Value(Sellable(Asked(s, seen.exits, c, 1), first.qty), seen.exits.prices[1])
    + Value(Sellable(Asked(s, seen.exits, c, 2), second.qty), seen.exits.prices[2])
  }

  /** Whether the candle got as far as selling targets. */
  ghost predicate OffersTargets(s: Setup, c: Candle, t: Trace) {
    && !FallsTo(s, c, Guard(s, t.entered)) && t.events != [] && !t.closed
    && !TrimDue(s, t.events[|t.events| - 1], c) && t.events[|t.events| - 1].legs.reclaimedAt != Some(c.time)
    && t.seen.exits.frozen && |t.seen.exits.prices| == |t.seen.exits.qtys| == 3
  }

  ghost function TargetSales(s: Setup, c: Candle, t: Trace): real {
    if OffersTargets(s, c, t) then TargetsSold(s, t.seen, c, t.first, t.second) else 0.0
  }

  // ----- charging

  /**
   Between two positions of a run, fees were charged at the maker rate on `levels` of what was bought and `targets` of
   what was sold, and at the taker rate on all the rest.
   */
  ghost predicate Charges(s: Setup, pos: Position, after: Position, levels: real, targets: real) {
    var a, b := AccountOf(s, pos.ledger), AccountOf(s, after.ledger);
    b.fees - a.fees
      == Value(levels + targets, s.terms.makerFee)
         + Value((b.cost - a.cost - levels) + (b.proceeds - a.proceeds - targets), s.terms.takerFee)
  }

  lemma {:induction false} ValueAdds(x: real, y: real, rate: real)
    ensures Value(x, rate) + Value(y, rate) == Value(x + y, rate)
  {
  }

  lemma {:induction false} ChargesAdd(
    s: Setup, one: Position, two: Position, three: Position, levels: real, targets: real, levels': real, targets': real)
    requires Charges(s, one, two, levels, targets) && Charges(s, two, three, levels', targets')
    ensures Charges(s, one, three, levels + levels', targets + targets')
  {
    var a, b, c := AccountOf(s, one.ledger), AccountOf(s, two.ledger), AccountOf(s, three.ledger);
    ValueAdds(levels + targets, levels' + targets', s.terms.makerFee);
    ValueAdds((b.cost - a.cost - levels) + (b.proceeds - a.proceeds - targets),
              (c.cost - b.cost - levels') + (c.proceeds - b.proceeds - targets'), s.terms.takerFee);
  }

  lemma {:induction false} NothingCharged(s: Setup, pos: Position, after: Position)
    requires after.ledger == pos.ledger
    ensures Charges(s, pos, after, 0.0, 0.0)
  {
    assert Value(0.0, s.terms.makerFee) == 0.0 && Value(0.0, s.terms.takerFee) == 0.0;
  }

  lemma {:induction false} NothingAtAll(rate: real)
    ensures Value(0.0, rate) == 0.0
  {
  }

  lemma {:induction false} PurchaseCharges(
    s: Setup, pos: Position, after: Position, amount: real, price: real, rate: real)
    requires Buys(pos, after, amount, price, rate)
    ensures rate == s.terms.makerFee ==> Charges(s, pos, after, Value(amount, price), 0.0)
    ensures rate == s.terms.takerFee ==> Charges(s, pos, after, 0.0, 0.0)
  {
    AccountSnoc(s, pos.ledger, Bought(amount, price, Value(Value(amount, price), rate)));
    NothingAtAll(s.terms.makerFee);
    NothingAtAll(s.terms.takerFee);
  }

  lemma {:induction false} LegCharges(s: Setup, pos: Position, after: Position, weight: real, price: real, rate: real)
    requires BuysLeg(s, pos, after, weight, price, rate) && price != s.stop
    ensures rate == s.terms.makerFee ==> Charges(s, pos, after, LegCost(s, weight, price), 0.0)
    ensures rate == s.terms.takerFee ==> Charges(s, pos, after, 0.0, 0.0)
  {
    var amount := after.qty - pos.qty;
    Quotient(amount, Abs(price - s.stop), weight);
    PurchaseCharges(s, pos, after, amount, price, rate);
  }

  lemma {:induction false} Quotient(x: real, y: real, product: real)
    requires y != 0.0 && Value(x, y) == product
    ensures x == product / y
  {
    DivTimes(product, y);
    assert (x - product / y) * y == 0.0;
  }

  lemma {:induction false} SaleCharges(s: Setup, pos: Position, after: Position, amount: real, price: real, rate: real)
    requires Sells(s.side, pos, after, amount, price, rate)
    ensures rate == s.terms.makerFee ==> Charges(s, pos, after, 0.0, Value(amount, price))
    ensures rate == s.terms.takerFee ==> Charges(s, pos, after, 0.0, 0.0)
  {
    NothingAtAll(s.terms.makerFee);
    NothingAtAll(s.terms.takerFee);
    if amount > 0.0 {
      AccountSnoc(s, pos.ledger, Sold(amount, price, Value(Value(amount, price), rate)));
    } else {
      NothingAtAll(price);
    }
  }

  // ----- one candle

  lemma {:induction false} EntriesCharge(s: Setup, st: State, c: Candle, mid: Position, entered: State)
    requires Enters(s, st, c, mid, entered) && LevelsClear(s)
    ensures Charges(s, st.pos, entered.pos, LevelFills(s, st, c), 0.0)
  {
    var first := if SecondDue(s, st, c) then LegCost(s, s.terms.weights.1, s.level2) else 0.0;
    var second := if LimitDue(s, st, c) then LegCost(s, s.terms.weights.2, s.level3) else 0.0;
    if SecondDue(s, st, c) {
      LegCharges(s, st.pos, mid, s.terms.weights.1, s.level2, s.terms.makerFee);
    } else {
      NothingCharged(s, st.pos, mid);
    }
    if LimitDue(s, st, c) {
      LegCharges(s, mid, entered.pos, s.terms.weights.2, s.level3, s.terms.makerFee);
    } else if ReclaimDue(s, st, c) {
      LegCharges(s, mid, entered.pos, s.terms.weights.2, c.close, s.terms.takerFee);
    } else {
      NothingCharged(s, mid, entered.pos);
    }
    ChargesAdd(s, st.pos, mid, entered.pos, first, 0.0, second, 0.0);
  }

  lemma {:induction false} FundingCharges(s: Setup, pos: Position, after: Position, payment: real)
    requires Funds(pos, after, payment)
    ensures Charges(s, pos, after, 0.0, 0.0)
  {
    AccountSnoc(s, pos.ledger, Funding(payment));
    NothingAtAll(s.terms.makerFee);
    NothingAtAll(s.terms.takerFee);
  }

  lemma {:induction false} EventCharges(s: Setup, st: State, event: Event, after: State)
    requires Handles(s, st, event, after)
    ensures Charges(s, st.pos, after.pos, 0.0, 0.0)
  {
    if st.pos.qty <= 0.0 {
      NothingCharged(s, st.pos, after.pos);
    } else {
      match event
      case FundingPaid(_, rate, price) =>
        FundingCharges(s, st.pos, after.pos, Value(Value(st.pos.qty, price), rate));
      case CloseAll(_, price) =>
        SaleCharges(s, st.pos, after.pos, st.pos.qty, price, s.terms.takerFee);
      case Reduce(_, Some(pct), price) =>
        var sold := Sellable(Value(st.pos.qty, pct) / 100.0, st.pos.qty);
        SaleCharges(s, st.pos, after.pos, sold, price, s.terms.takerFee);
      case Reduce(_, None, _) =>
        NothingCharged(s, st.pos, after.pos);
    }
  }

  lemma {:induction false} EventsCharge(s: Setup, events: seq<State>, candleEnd: int, n: nat)
    requires n < |events| && forall i :: 0 <= i < |events| - 1 ==> Takes(s, events[i], candleEnd, events[i + 1])
    ensures Charges(s, events[0].pos, events[n].pos, 0.0, 0.0)
  {
    if n == 0 {
      NothingCharged(s, events[0].pos, events[0].pos);
    } else {
      EventsCharge(s, events, candleEnd, n - 1);
      assert Takes(s, events[n - 1], candleEnd, events[n]);
      EventCharges(s, events[n - 1], s.terms.events[events[n - 1].eventIndex], events[n]);
      ChargesAdd(s, events[0].pos, events[n - 1].pos, events[n].pos, 0.0, 0.0, 0.0, 0.0);
    }
  }

  lemma {:induction false} ThreeCharges(
    s: Setup, one: Position, two: Position, three: Position, four: Position, a: real, b: real, c: real)
    requires Charges(s, one, two, 0.0, a) && Charges(s, two, three, 0.0, b) && Charges(s, three, four, 0.0, c)
    ensures Charges(s, one, four, 0.0, a + b + c)
  {
    ChargesAdd(s, one, two, three, 0.0, a, 0.0, b);
    ChargesAdd(s, one, three, four, 0.0, a + b, 0.0, c);
  }

  lemma {:induction false} TargetsCharge(
    s: Setup, st: State, c: Candle, first: Position, second: Position, after: State)
    requires SellsTargets(s, st, c, first, second, after)
    ensures Charges(s, st.pos, after.pos, 0.0, TargetsSold(s, st, c, first, second))
  {
    var prices := st.exits.prices;
    var one := Sellable(Asked(s, st.exits, c, 0), st.pos.qty);
    var two := Sellable(Asked(s, st.exits, c, 1), first.qty);
    var three := Sellable(Asked(s, st.exits, c, 2), second.qty);
    SaleCharges(s, st.pos, first, one, prices[0], s.terms.makerFee);
    SaleCharges(s, first, second, two, prices[1], s.terms.makerFee);
    SaleCharges(s, second, after.pos, three, prices[2], s.terms.makerFee);
    ThreeCharges(s, st.pos, first, second, after.pos, Value(one, prices[0]), Value(two, prices[1]),
                 Value(three, prices[2]));
  }

  lemma {:induction false} ConclusionCharges(s: Setup, st: State, c: Candle, r: Outcome)
    requires Concludes(s, st, c, r)
    ensures Charges(s, st.pos, r.state.pos, 0.0, 0.0)
  {
    if st.pos.qty > 0.0 && TimesOut(s, st, c) {
      SaleCharges(s, st.pos, r.state.pos, st.pos.qty, c.close, s.terms.takerFee);
    } else {
      NothingCharged(s, st.pos, r.state.pos);
    }
  }

  lemma {:induction false} TargetsThenNothing(s: Setup, one: Position, two: Position, three: Position, targets: real)
    requires Charges(s, one, two, 0.0, targets) && Charges(s, two, three, 0.0, 0.0)
    ensures Charges(s, one, three, 0.0, targets)
  {
    ChargesAdd(s, one, two, three, 0.0, targets, 0.0, 0.0);
  }

  lemma {:induction false} SalesCharge(
    s: Setup, seen: State, c: Candle, first: Position, second: Position, sold: State, r: Outcome)
    requires SellsTargets(s, seen, c, first, second, sold) && Concludes(s, sold, c, r)
    ensures Charges(s, seen.pos, r.state.pos, 0.0, TargetsSold(s, seen, c, first, second))
  {
    TargetsCharge(s, seen, c, first, second, sold);
    ConclusionCharges(s, sold, c, r);
    TargetsThenNothing(s, seen.pos, sold.pos, r.state.pos, TargetsSold(s, seen, c, first, second));
  }

  lemma {:induction false} HarvestCharges(s: Setup, st: State, c: Candle, t: Trace, r: Outcome)
    requires Harvests(s, st, c, t, r)
    ensures !t.seen.exits.frozen ==> Charges(s, st.pos, r.state.pos, 0.0, 0.0)
    ensures t.seen.exits.frozen ==>
              && |t.seen.exits.prices| == |t.seen.exits.qtys| == 3
              && Charges(s, st.pos, r.state.pos, 0.0, TargetsSold(s, t.seen, c, t.first, t.second))
  {
    assert t.seen.pos == st.pos;
    if t.seen.exits.frozen {
      SalesCharge(s, t.seen, c, t.first, t.second, t.sold, r);
    } else {
      ConclusionCharges(s, t.sold, c, r);
    }
  }

  lemma {:induction false} TrimCharges(s: Setup, st: State, c: Candle, after: Position)
    requires Trims(s, st, c, after)
    ensures Charges(s, st.pos, after, 0.0, 0.0)
  {
    if TrimDue(s, st, c) {
      SaleCharges(s, st.pos, after, st.pos.qty - after.qty, c.close, s.terms.takerFee);
    } else {
      NothingCharged(s, st.pos, after);
    }
  }

  lemma {:induction false} ProceedCharges(s: Setup, st: State, c: Candle, t: Trace, r: Outcome, targets: real)
    requires Proceeds(s, st, c, t, r)
    requires
      var offers := !TrimDue(s, st, c) && st.legs.reclaimedAt != Some(c.time) && t.seen.exits.frozen
                    && |t.seen.exits.prices| == |t.seen.exits.qtys| == 3;
      targets == if offers then TargetsSold(s, t.seen, c, t.first, t.second) else 0.0
    ensures Charges(s, st.pos, r.state.pos, 0.0, targets)
  {
    TrimCharges(s, st, c, t.trimmed.pos);
    if !TrimDue(s, st, c) && st.legs.reclaimedAt != Some(c.time) {
      HarvestCharges(s, t.trimmed, c, t, r);
    }
  }

  lemma {:induction false} LifecycleCharges(s: Setup, events: seq<State>, candleEnd: int, closed: bool)
    requires if s.terms.useEvents then TakesAll(s, events, candleEnd, closed) else |events| == 1
    ensures Charges(s, events[0].pos, events[|events| - 1].pos, 0.0, 0.0)
  {
    if s.terms.useEvents {
      EventsCharge(s, events, candleEnd, |events| - 1);
    } else {
      NothingCharged(s, events[0].pos, events[0].pos);
    }
  }

  lemma {:induction false} ReactionCharges(s: Setup, st: State, c: Candle, t: Trace, r: Outcome)
    requires Happens(s, st, c, t, r) && t.entered == st && !FallsTo(s, c, Guard(s, st))
    ensures Charges(s, st.pos, r.state.pos, 0.0, TargetSales(s, c, t))
  {
    var left := t.events[|t.events| - 1];
    LifecycleCharges(s, t.events, c.time + 60_000, t.closed);
    if !t.closed {
      ProceedCharges(s, left, c, t, r, TargetSales(s, c, t));
      ChargesAdd(s, st.pos, left.pos, r.state.pos, 0.0, 0.0, 0.0, TargetSales(s, c, t));
    }
  }

  lemma {:induction false} LevelsThenTargets(
    s: Setup, one: Position, two: Position, three: Position, levels: real, targets: real)
    requires Charges(s, one, two, levels, 0.0) && Charges(s, two, three, 0.0, targets)
    ensures Charges(s, one, three, levels, targets)
  {
    ChargesAdd(s, one, two, three, levels, 0.0, 0.0, targets);
  }

  lemma {:induction false} RestCharges(s: Setup, c: Candle, t: Trace, r: Outcome)
    requires
      if FallsTo(s, c, Guard(s, t.entered)) then StopsOut(s, t.entered, r) else Happens(s, t.entered, c, t, r)
    ensures Charges(s, t.entered.pos, r.state.pos, 0.0, TargetSales(s, c, t))
  {
    if FallsTo(s, c, Guard(s, t.entered)) {
      SaleCharges(s, t.entered.pos, r.state.pos, t.entered.pos.qty, Guard(s, t.entered), s.terms.takerFee);
    } else {
      ReactionCharges(s, t.entered, c, t, r);
    }
  }

  /** One candle charges the maker rate on its level fills and target sales, and the taker rate on all else. */
  lemma {:induction false} CandleCharges(s: Setup, st: State, c: Candle, t: Trace, r: Outcome)
    requires Plays(s, st, c, t, r) && LevelsClear(s)
    ensures Charges(s, st.pos, r.state.pos, LevelFills(s, st, c), TargetSales(s, c, t))
  {
    EntriesCharge(s, st, c, t.mid, t.entered);
    RestCharges(s, c, t, r);
    LevelsThenTargets(s, st.pos, t.entered.pos, r.state.pos, LevelFills(s, st, c), TargetSales(s, c, t));
  }

  // ----- whole runs

  /** What fills at the levels over the first `n` candles. */
  function LevelTotal(s: Setup, candles: seq<Candle>, states: seq<State>, n: nat): real
    requires LevelsClear(s) && n <= |candles| && n <= |states|
  {
    if n == 0 then 0.0 else LevelTotal(s, candles, states, n - 1) + LevelFills(s, states[n - 1], candles[n - 1])
  }

  /** What the targets sell over the first `n` candles. */
  ghost function TargetTotal(s: Setup, candles: seq<Candle>, traces: seq<Trace>, n: nat): real
    requires n <= |candles| && n <= |traces|
  {
    if n == 0 then 0.0 else TargetTotal(s, candles, traces, n - 1) + TargetSales(s, candles[n - 1], traces[n - 1])
  }

  ghost predicate ChargesAt(s: Setup, candles: seq<Candle>, states: seq<State>, traces: seq<Trace>, k: nat)
    requires LevelsClear(s) && k < |candles| && k + 1 < |states| && k < |traces|
  {
    Charges(s, states[k].pos, states[k + 1].pos, LevelFills(s, states[k], candles[k]),
            TargetSales(s, candles[k], traces[k]))
  }

  lemma {:induction false} CandlesCharge(s: Setup, candles: seq<Candle>, states: seq<State>, traces: seq<Trace>, k: nat)
    requires LevelsClear(s) && k < |candles| && k + 1 < |states| && k < |traces|
    requires PlaysAt(s, candles, states, traces, k)
    ensures ChargesAt(s, candles, states, traces, k)
  {
    CandleCharges(s, states[k], candles[k], traces[k], Running(states[k + 1]));
  }

  lemma {:induction false} LastCharges(
    s: Setup, candles: seq<Candle>, lastClose: real, states: seq<State>, traces: seq<Trace>, end: Outcome)
    requires Runs(s, candles, lastClose, states, traces, end) && LevelsClear(s)
    ensures
      var n := |states| - 1;
      if n < |candles|
      then Charges(s, states[n].pos, end.state.pos, LevelFills(s, states[n], candles[n]),
                   TargetSales(s, candles[n], traces[n]))
      else Charges(s, states[n].pos, end.state.pos, 0.0, 0.0)
  {
    var n := |states| - 1;
    if n < |candles| {
      CandleCharges(s, states[n], candles[n], traces[n], end);
    } else {
      SaleCharges(s, states[n].pos, end.state.pos, states[n].pos.qty, lastClose, s.terms.takerFee);
    }
  }

  lemma {:induction false} RunCharges(s: Setup, candles: seq<Candle>, states: seq<State>, traces: seq<Trace>, k: nat)
    requires LevelsClear(s) && k < |states| <= |candles| + 1 && |states| <= |traces| + 1
    requires forall j :: 0 <= j < |states| - 1 ==> ChargesAt(s, candles, states, traces, j)
    ensures Charges(s, states[0].pos, states[k].pos, LevelTotal(s, candles, states, k),
                    TargetTotal(s, candles, traces, k))
  {
    if k == 0 {
      NothingCharged(s, states[0].pos, states[0].pos);
    } else {
      RunCharges(s, candles, states, traces, k - 1);
      assert ChargesAt(s, candles, states, traces, k - 1);
      ChargesAdd(s, states[0].pos, states[k - 1].pos, states[k].pos,
                 LevelTotal(s, candles, states, k - 1), TargetTotal(s, candles, traces, k - 1),
                 LevelFills(s, states[k - 1], candles[k - 1]), TargetSales(s, candles[k - 1], traces[k - 1]));
    }
  }

  lemma {:induction false} EndCharges(
    s: Setup, candles: seq<Candle>, lastClose: real, states: seq<State>, traces: seq<Trace>, end: Outcome)
    requires Runs(s, candles, lastClose, states, traces, end) && LevelsClear(s)
    ensures Charges(s, states[0].pos, end.state.pos, LevelTotal(s, candles, states, |traces|),
                    TargetTotal(s, candles, traces, |traces|))
  {
    forall k | 0 <= k < |states| - 1
      ensures ChargesAt(s, candles, states, traces, k)
    {
      CandlesCharge(s, candles, states, traces, k);
    }
    LastCharges(s, candles, lastClose, states, traces, end);
    AddLast(s, candles, states, traces, end.state.pos);
  }

  lemma {:induction false} AddLast(
    s: Setup, candles: seq<Candle>, states: seq<State>, traces: seq<Trace>, last: Position)
    requires LevelsClear(s) && 0 < |states| <= |candles| + 1
    requires |traces| == if |states| <= |candles| then |states| else |candles|
    requires forall k :: 0 <= k < |states| - 1 ==> ChargesAt(s, candles, states, traces, k)
    requires
      var n := |states| - 1;
      if n < |candles|
      then Charges(s, states[n].pos, last, LevelFills(s, states[n], candles[n]), TargetSales(s, candles[n], traces[n]))
      else Charges(s, states[n].pos, last, 0.0, 0.0)
    ensures Charges(s, states[0].pos, last, LevelTotal(s, candles, states, |traces|),
                    TargetTotal(s, candles, traces, |traces|))
  {
    var n := |states| - 1;
    RunCharges(s, candles, states, traces, n);
    var levels, targets := LevelTotal(s, candles, states, n), TargetTotal(s, candles, traces, n);
    if n < |candles| {
      ChargesAdd(s, states[0].pos, states[n].pos, last, levels, targets,
                 LevelFills(s, states[n], candles[n]), TargetSales(s, candles[n], traces[n]));
    } else {
      ChargesAdd(s, states[0].pos, states[n].pos, last, levels, targets, 0.0, 0.0);
    }
  }

  lemma {:induction false} OpeningAccount(s: Setup, st: State)
    requires Opens(s, st) && s.level1 != s.stop
    ensures
      var a := AccountOf(s, st.pos.ledger);
      && a.cost == LegCost(s, s.terms.weights.0, s.level1) && a.proceeds == 0.0
      && a.fees == Value(a.cost, if s.terms.primaryIsMaker then s.terms.makerFee else s.terms.takerFee)
  {
    Quotient(st.pos.qty, Abs(s.level1 - s.stop), s.terms.weights.0);
    var ledger := st.pos.ledger;
    assert ledger == [] + [ledger[0]];
    AccountSnoc(s, [], ledger[0]);
  }

  /** What the fees of an account come to on this schedule. */
  ghost predicate OnSchedule(s: Setup, a: Account, primary: real, levels: real, targets: real) {
    a.fees
      == Value(primary, if s.terms.primaryIsMaker then s.terms.makerFee else s.terms.takerFee)
         + Value(levels + targets, s.terms.makerFee)
         + Value((a.cost - primary - levels) + (a.proceeds - targets), s.terms.takerFee)
  }

  lemma {:induction false} OpenedOnSchedule(s: Setup, opening: State, end: Position, levels: real, targets: real)
    requires Opens(s, opening) && s.level1 != s.stop && Charges(s, opening.pos, end, levels, targets)
    ensures OnSchedule(s, AccountOf(s, end.ledger), LegCost(s, s.terms.weights.0, s.level1), levels, targets)
  {
    OpeningAccount(s, opening);
  }

  /**
   The fee schedule of every run: E1 pays its own rate, fills at the scale-in levels and sales at targets pay the maker
   rate, and all other purchases and sales (a reclaim, stops, events, trims, the end) pay the taker rate.
   */
  lemma {:induction false} FeesFollowSchedule(s: Setup, candles: seq<Candle>)
    returns (states: seq<State>, traces: seq<Trace>)
    requires Ready(s) && Playable(candles)
    ensures Runs(s, candles, candles[|candles| - 1].close, states, traces, Replay(s, candles)) && Opens(s, states[0])
    ensures OnSchedule(s, AccountOf(s, Replay(s, candles).state.pos.ledger), LegCost(s, s.terms.weights.0, s.level1),
                       LevelTotal(s, candles, states, |traces|), TargetTotal(s, candles, traces, |traces|))
  {
    states, traces := ReplayFollows(s, candles);
    EndCharges(s, candles, candles[|candles| - 1].close, states, traces, Replay(s, candles));
    OpenedOnSchedule(s, states[0], Replay(s, candles).state.pos, LevelTotal(s, candles, states, |traces|),
                     TargetTotal(s, candles, traces, |traces|));
  }

  // ----- what targets bring in

  /** The cash of one target sale, after the maker fee. */
  function NetSale(s: Setup, amount: real, price: real, avg: real): real {
    Value(amount, Gain(s.side, price, avg)) - Value(Value(amount, price), s.terms.makerFee)
  }

  lemma {:induction false} CoveredSells(s: Setup, st: State, c: Candle, first: Position, second: Position, after: State)
    requires SellsTargets(s, st, c, first, second, after) && Covered(st)
    ensures Sellable(Asked(s, st.exits, c, 0), st.pos.qty) == Asked(s, st.exits, c, 0)
    ensures Sellable(Asked(s, st.exits, c, 1), first.qty) == Asked(s, st.exits, c, 1)
    ensures Sellable(Asked(s, st.exits, c, 2), second.qty) == Asked(s, st.exits, c, 2)
  {
  }

  /**
   With the pending exits covered, a candle's targets bring in exactly the gain of each pending quantity it gets to,
   less the maker fee on its value.
   */
  lemma {:induction false} TargetProceeds(s: Setup, st: State, c: Candle)
    requires Sound(s, st) && st.exits.frozen && Covered(st)
    ensures
      var avg, exits := st.pos.avg, st.exits;
      FillTargets(s, st, c).pos.realized
        == st.pos.realized
           + NetSale(s, Asked(s, exits, c, 0), exits.prices[0], avg)
           + NetSale(s, Asked(s, exits, c, 1), exits.prices[1], avg)
           + NetSale(s, Asked(s, exits, c, 2), exits.prices[2], avg)
  {
    var first, second := TargetsFollow(s, st, c);
    CoveredSells(s, st, c, first, second, FillTargets(s, st, c));
  }
}
