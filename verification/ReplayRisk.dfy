/** The loss bound of every replay run: no exit lies beyond the effective stop. */
module ReplayRisk {
  import opened Wrappers
  import opened Sequences
  import opened Arithmetic
  import opened Trading
  import opened ReplayModel
  import opened ReplayAccounts

  /**
   The account seen from the stop: what the trades fetched is what the exits saved over the stop
   minus what the entries risked, up to the quantity still open.
   */
  ghost predicate FromStop(s: Setup, a: Account) {
    Signed(s.side, a.proceeds - a.cost) == a.saved - a.risk - Signed(s.side, Value(a.open, s.stop))
  }

  lemma {:induction false} AccountFromStop(s: Setup, ledger: seq<Flow>)
    ensures FromStop(s, AccountOf(s, ledger))
  {
    if ledger != [] {
      AccountFromStop(s, Init(ledger));
      PostFromStop(s, AccountOf(s, Init(ledger)), Last(ledger));
    }
  }

  lemma {:induction false} PostFromStop(s: Setup, a: Account, flow: Flow)
    requires FromStop(s, a)
    ensures FromStop(s, Post(s, a, flow))
  {
    match flow
    case Bought(qty, price, _) =>
      GainFromStop(s, qty, price);
      ValueSum(a.open, qty, s.stop);
    case Sold(qty, price, _) =>
      GainFromStop(s, qty, price);
      ValueSum(a.open - qty, qty, s.stop);
    case Funding(_) =>
  }

  lemma {:induction false} GainFromStop(s: Setup, qty: real, price: real)
    ensures Value(qty, Gain(s.side, price, s.stop)) == Signed(s.side, Value(qty, price) - Value(qty, s.stop))
  {
  }

  lemma {:induction false} ValueSum(p: real, q: real, price: real)
    ensures Value(p + q, price) == Value(p, price) + Value(q, price)
  {
  }

  // ----- no exit beyond the stop

  function Saved(s: Setup, pos: Position): real {
    AccountOf(s, pos.ledger).saved
  }

  predicate TargetsAhead(side: Side, avg: real, exits: Exits) {
    exits.frozen ==> forall i :: 0 <= i < |exits.prices| ==> Gain(side, exits.prices[i], avg) > 0.0
  }

  /** Protection and targets lie on the safe side, and no exit so far fell beyond the stop. */
  ghost predicate Guarded(s: Setup, st: State) {
    && Gain(s.side, st.legs.protective, s.stop) >= 0.0
    && TargetsAhead(s.side, st.pos.avg, st.exits)
    && Saved(s, st.pos) >= 0.0
  }

  /** Lifecycle exits happened at or above the effective stop; trivially so when events are off. */
  ghost predicate SafeEvents(s: Setup) {
    s.terms.useEvents ==>
      forall i :: 0 <= i < |s.terms.events| && !s.terms.events[i].FundingPaid? ==>
        Gain(s.side, s.terms.events[i].price, s.stop) >= 0.0
  }

  lemma {:induction false} SafeSale(s: Setup, pos: Position, amount: real, price: real, feeRate: real)
    requires Saved(s, pos) >= 0.0 && Gain(s.side, price, s.stop) >= 0.0
    ensures Saved(s, ClosePart(s.side, pos, amount, price, feeRate)) >= 0.0
  {
    var a := Min(amount, pos.qty);
    if a > 0.0 {
      AccountSnoc(s, pos.ledger, Sold(a, price, Fee(a, price, feeRate)));
      MulNonNegative(a, Gain(s.side, price, s.stop));
      assert Value(a, Gain(s.side, price, s.stop)) >= 0.0;
    }
  }

  lemma {:induction false} BuyingSavesNothing(s: Setup, pos: Position, qty: real, price: real, feeRate: real)
    requires pos.qty + qty != 0.0
    ensures Saved(s, Add(pos, qty, price, feeRate)) == Saved(s, pos)
  {
    AccountSnoc(s, pos.ledger, Bought(qty, price, Fee(qty, price, feeRate)));
  }

  lemma {:induction false} FillLegsIsGuarded(s: Setup, st: State, c: Candle)
    requires Ready(s) && Sound(s, st) && WellFormed(c) && Guarded(s, st)
    ensures Guarded(s, FillLegs(s, st, c))
  {
    if !st.exits.frozen {
      FillSecondIsGuarded(s, st, c);
      FillThirdIsGuarded(s, FillSecond(s, st, c), c);
    }
  }

  lemma {:induction false} FillSecondIsGuarded(s: Setup, st: State, c: Candle)
    requires Ready(s) && Sound(s, st) && !st.exits.frozen && Guarded(s, st)
    ensures Guarded(s, FillSecond(s, st, c))
  {
    if !st.legs.second && Touched(s, c, s.level2) {
      LegQtyRisks(s, s.terms.weights.1, s.level2);
      BuyingSavesNothing(s, st.pos, LegQty(s, s.terms.weights.1, s.level2), s.level2, s.terms.makerFee);
    }
  }

  lemma {:induction false} AddThirdIsGuarded(s: Setup, st: State, price: real, feeRate: real, legs: Legs, time: int)
    requires Ready(s) && Sound(s, st) && !st.exits.frozen && !st.legs.third && Guarded(s, st)
    requires price > 0.0 && Gain(s.side, price, s.stop) > 0.0
    requires legs.protective == st.legs.protective
    ensures Guarded(s, AddThird(s, st, price, feeRate, legs, time))
  {
    LegQtyRisks(s, s.terms.weights.2, price);
    BuyingSavesNothing(s, st.pos, LegQty(s, s.terms.weights.2, price), price, feeRate);
  }

  lemma {:induction false} FillThirdIsGuarded(s: Setup, st: State, c: Candle)
    requires Ready(s) && Sound(s, st) && !st.exits.frozen && WellFormed(c) && Guarded(s, st)
    ensures Guarded(s, FillThird(s, st, c))
  {
    if !st.legs.third {
      if Reclaimed(s, c) {
        AddThirdIsGuarded(s, st, c.close, s.terms.takerFee, st.legs.(reclaimedAt := Some(c.time)), c.time);
      }
      AddThirdIsGuarded(s, st, s.level3, s.terms.makerFee, st.legs, c.time);
    }
  }

  // ----- targets lie ahead of the average

  lemma {:induction false} TargetRsArePositive(s: Setup, avg: real)
    requires Ready(s) && avg != s.stop
    ensures forall i :: 0 <= i < 3 ==> TargetRs(s, avg)[i] > 0.0
  {
    var (r1, r2, r3) := s.terms.targetRs;
    if s.terms.traderTarget.Some? {
      var reached := RValue(s, avg, s.terms.traderTarget.value);
      if reached >= 0.5 {
        RescalePositive(r1, reached, r3);
        RescalePositive(r2, reached, r3);
        RescalePositive(r3, reached, r3);
      }
    }
  }

  lemma {:induction false} RescalePositive(r: real, reached: real, last: real)
    requires r > 0.0 && reached > 0.0 && last > 0.0
    ensures Rescale(r, reached, last) > 0.0
  {
    MulPositive(r, reached);
    DivPositive(r * reached, last);
  }

  lemma {:induction false} TargetPriceIsAhead(s: Setup, avg: real, r: real)
    requires r > 0.0 && avg != s.stop
    ensures Gain(s.side, TargetPrice(s, avg, r), avg) > 0.0
  {
    MulPositive(r, Abs(avg - s.stop));
    assert Value(r, Abs(avg - s.stop)) > 0.0;
  }

  lemma {:induction false} FreezeSetsTargetsAhead(s: Setup, st: State)
    requires Ready(s) && Sound(s, st) && TargetsAhead(s.side, st.pos.avg, st.exits)
    ensures TargetsAhead(s.side, st.pos.avg, Freeze(s, st).exits)
  {
    if !st.exits.frozen {
      var avg := st.pos.avg;
      TargetRsArePositive(s, avg);
      var rs := TargetRs(s, avg);
      TargetPriceIsAhead(s, avg, rs[0]);
      TargetPriceIsAhead(s, avg, rs[1]);
      TargetPriceIsAhead(s, avg, rs[2]);
    }
  }

  // ----- what follows the entries

  lemma {:induction false} SalesKeepLegs(s: Setup, st: State, c: Candle)
    requires Sound(s, st) && st.exits.frozen
    ensures
      var r := FillTargets(s, st, c);
      SameLegs(st, r) && r.exits.prices == st.exits.prices
  {
  }

  /** A state later in the candle, with the same legs and average. */
  ghost predicate SameLegs(st: State, r: State) {
    r.legs == st.legs && r.pos.avg == st.pos.avg
  }

  lemma {:induction false} HarvestKeepsLegs(s: Setup, st: State, c: Candle)
    requires Ready(s) && Sound(s, st)
    ensures SameLegs(st, Harvest(s, st, c).state)
  {
    var seen := Excursion(s, st, c);
    if seen.exits.frozen {
      SalesKeepLegs(s, seen, c);
    }
  }

  /** Without events, what follows the entries changes neither the legs nor the average. */
  lemma {:induction false} ReactKeepsLegs(s: Setup, st: State, c: Candle)
    requires Ready(s) && Sound(s, st) && !s.terms.useEvents
    ensures SameLegs(st, React(s, st, c).state)
  {
    var trim := Trim(s, st, c);
    var left := st.(pos := ClosePart(s.side, st.pos, trim, c.close, s.terms.takerFee));
    HarvestKeepsLegs(s, left, c);
  }

  // ----- every phase stays guarded

  lemma {:induction false} LiquidateIsGuarded(s: Setup, st: State, price: real)
    requires Guarded(s, st) && Gain(s.side, price, s.stop) >= 0.0
    ensures Guarded(s, Liquidate(s, st, price))
  {
    SafeSale(s, st.pos, st.pos.qty, price, s.terms.takerFee);
  }

  lemma {:induction false} ReducedIsGuarded(s: Setup, st: State, pct: real, price: real)
    requires Guarded(s, st) && Gain(s.side, price, s.stop) >= 0.0
    ensures Guarded(s, Reduced(s, st, pct, price))
  {
    SafeSale(s, st.pos, Share(st.pos.qty, pct), price, s.terms.takerFee);
  }

  lemma {:induction false} ApplyEventIsGuarded(s: Setup, st: State, event: Event)
    requires Ready(s) && Sound(s, st) && Guarded(s, st)
    requires event.FundingPaid? || Gain(s.side, event.price, s.stop) >= 0.0
    ensures Guarded(s, ApplyEvent(s, st, event).0)
  {
    FreezeSetsTargetsAhead(s, st);
    if event.FundingPaid? {
      AccountSnoc(s, st.pos.ledger, Funding(Fee(st.pos.qty, event.price, event.rate)));
    } else if event.CloseAll? {
      LiquidateIsGuarded(s, Freeze(s, st), event.price);
    } else if event.closePct.Some? {
      ReducedIsGuarded(s, Freeze(s, st), event.closePct.value, event.price);
    }
  }

  lemma {:induction false} ApplyEventsIsGuarded(s: Setup, st: State, candleEnd: int) returns (left: State, closed: bool)
    requires Ready(s) && Sound(s, st) && Guarded(s, st) && SafeEvents(s) && s.terms.useEvents
    ensures ApplyEvents(s, st, candleEnd) == (left, closed) && Guarded(s, left)
    decreases |s.terms.events| - st.eventIndex
  {
    if st.eventIndex >= |s.terms.events| || s.terms.events[st.eventIndex].time >= candleEnd {
      left, closed := st, false;
    } else {
      var next := st.(eventIndex := st.eventIndex + 1);
      if next.pos.qty <= 0.0 {
        left, closed := ApplyEventsIsGuarded(s, next, candleEnd);
      } else {
        ApplyEventIsGuarded(s, next, s.terms.events[st.eventIndex]);
        var applied := ApplyEvent(s, next, s.terms.events[st.eventIndex]);
        if applied.1 {
          left, closed := applied.0, true;
        } else {
          left, closed := ApplyEventsIsGuarded(s, applied.0, candleEnd);
        }
      }
    }
  }

  lemma {:induction false} FillTargetIsGuarded(s: Setup, st: State, c: Candle, i: nat)
    requires Sound(s, st) && st.exits.frozen && i < 3 && Guarded(s, st)
    ensures Guarded(s, FillTarget(s, st, c, i))
  {
    assert Gain(s.side, st.exits.prices[i], st.pos.avg) > 0.0;
    SafeSale(s, st.pos, st.exits.qtys[i], st.exits.prices[i], s.terms.makerFee);
  }

  lemma {:induction false} ExcursionIsGuarded(s: Setup, st: State, c: Candle)
    requires Ready(s) && Sound(s, st) && Guarded(s, st)
    ensures Guarded(s, Excursion(s, st, c))
  {
    FreezeSetsTargetsAhead(s, st);
  }

  lemma {:induction false} ReachIsGuarded(s: Setup, st: State, c: Candle)
    requires Ready(s) && Sound(s, st) && Guarded(s, st)
    ensures Guarded(s, Reach(s, st, c))
  {
    ExcursionIsGuarded(s, st, c);
    var seen := Excursion(s, st, c);
    if seen.exits.frozen {
      FillTargetIsGuarded(s, seen, c, 0);
      FillTargetIsGuarded(s, FillTarget(s, seen, c, 0), c, 1);
      FillTargetIsGuarded(s, FillTarget(s, FillTarget(s, seen, c, 0), c, 1), c, 2);
    }
  }

  lemma {:induction false} ConcludeIsGuarded(s: Setup, st: State, c: Candle)
    requires Ready(s) && Sound(s, st) && Guarded(s, st) && Gain(s.side, c.close, s.stop) >= 0.0
    ensures Guarded(s, Conclude(s, st, c).state)
  {
    LiquidateIsGuarded(s, st, c.close);
    FreezeSetsTargetsAhead(s, st);
  }

  lemma {:induction false} HarvestIsGuarded(s: Setup, st: State, c: Candle)
    requires Ready(s) && Sound(s, st) && Guarded(s, st) && Gain(s.side, c.close, s.stop) >= 0.0
    ensures Guarded(s, Harvest(s, st, c).state)
  {
    ReachIsGuarded(s, st, c);
    ConcludeIsGuarded(s, Reach(s, st, c), c);
  }

  lemma {:induction false} ProceedIsGuarded(s: Setup, st: State, c: Candle)
    requires Ready(s) && Sound(s, st) && Guarded(s, st) && Gain(s.side, c.close, s.stop) >= 0.0
    ensures Guarded(s, Proceed(s, st, c).state)
  {
    var trim := Trim(s, st, c);
    SafeSale(s, st.pos, trim, c.close, s.terms.takerFee);
    var left := st.(pos := ClosePart(s.side, st.pos, trim, c.close, s.terms.takerFee));
    if !(trim > 0.0) && left.legs.reclaimedAt != Some(c.time) {
      HarvestIsGuarded(s, left, c);
    }
  }

  /** An untouched protection puts the close on the safe side of the stop. */
  lemma {:induction false} CloseIsSafe(s: Setup, st: State, c: Candle)
    requires WellFormed(c) && Guarded(s, st)
    ensures Gain(s.side, Protection(s, st).0, s.stop) >= 0.0
    ensures !Touched(s, c, Protection(s, st).0) ==> Gain(s.side, c.close, s.stop) > 0.0
  {
  }

  lemma {:induction false} LifecycleIsGuarded(s: Setup, st: State, c: Candle)
    requires Ready(s) && Sound(s, st) && Guarded(s, st) && SafeEvents(s) && Gain(s.side, c.close, s.stop) >= 0.0
    ensures Guarded(s, Lifecycle(s, st, c).state)
  {
    if s.terms.useEvents {
      var left, closed := ApplyEventsIsGuarded(s, st, c.time + 60_000);
      if !closed {
        ProceedIsGuarded(s, left, c);
      }
    } else {
      ProceedIsGuarded(s, st, c);
    }
  }

  lemma {:induction false} ReactIsGuarded(s: Setup, st: State, c: Candle)
    requires Ready(s) && Sound(s, st) && WellFormed(c) && Guarded(s, st) && SafeEvents(s)
    ensures Guarded(s, React(s, st, c).state)
    ensures React(s, st, c).Running? ==> Gain(s.side, c.close, s.stop) >= 0.0
  {
    CloseIsSafe(s, st, c);
    if Touched(s, c, Protection(s, st).0) {
      LiquidateIsGuarded(s, st, Protection(s, st).0);
    } else {
      LifecycleIsGuarded(s, st, c);
    }
  }

  lemma {:induction false} StepIsGuarded(s: Setup, st: State, c: Candle)
    requires Ready(s) && Sound(s, st) && WellFormed(c) && Guarded(s, st) && SafeEvents(s)
    ensures Guarded(s, Step(s, st, c).state)
    ensures Step(s, st, c).Running? ==> Gain(s.side, c.close, s.stop) >= 0.0
  {
    FillLegsIsGuarded(s, st, c);
    ReactIsGuarded(s, FillLegs(s, st, c), c);
  }

  lemma {:induction false} NextIsGuarded(s: Setup, st: State, c: Candle)
    requires Ready(s) && Sound(s, st) && WellFormed(c) && Guarded(s, st) && SafeEvents(s)
    ensures Next(s, st, c).Some? ==> Guarded(s, Next(s, st, c).value)
  {
    StepIsGuarded(s, st, c);
  }

  lemma {:induction false} RunIsGuarded(s: Setup, st: State, candles: seq<Candle>, i: nat)
    requires Ready(s) && Sound(s, st) && Guarded(s, st) && SafeEvents(s)
    requires Playable(candles) && i <= |candles|
    requires i > 0 ==> Gain(s.side, candles[i - 1].close, s.stop) >= 0.0
    ensures Guarded(s, Run(s, st, candles, i).state)
    decreases |candles| - i
  {
    if i == |candles| {
      LiquidateIsGuarded(s, st, candles[|candles| - 1].close);
    } else {
      StepIsGuarded(s, st, candles[i]);
      var next := Step(s, st, candles[i]);
      if next.Running? {
        RunIsGuarded(s, next.state, candles, i + 1);
      }
    }
  }

  lemma {:induction false} InitialIsGuarded(s: Setup)
    requires Ready(s)
    ensures Sound(s, Initial(s)) && Guarded(s, Initial(s))
  {
    InitialIsSound(s);
    var ledger := Initial(s).pos.ledger;
    assert ledger == [] + [ledger[0]];
    AccountSnoc(s, [], ledger[0]);
  }

  /** The result before fees and funding. */
  function Gross(a: Account, pos: Position): real {
    pos.realized + a.fees - a.funding
  }

  lemma {:induction false} SettledGross(s: Setup, a: Account, pos: Position, weight: real)
    requires Settled(s.side, a, pos, weight)
    requires FromStop(s, a)
    ensures Gross(a, pos) == a.saved - weight
  {
    assert Value(0.0, s.stop) == 0.0;
  }

  /** Every run's gross result is what its exits saved over the stop minus the filled weights. */
  lemma {:induction false} GrossResult(s: Setup, candles: seq<Candle>)
    requires Ready(s) && Playable(candles)
    ensures
      var end := Replay(s, candles).state;
      var a := AccountOf(s, end.pos.ledger);
      Gross(a, end.pos) == a.saved - FilledWeight(s, end.legs)
  {
    ReplayConservesCash(s, candles);
    var end := Replay(s, candles).state;
    AccountFromStop(s, end.pos.ledger);
    SettledGross(s, AccountOf(s, end.pos.ledger), end.pos, FilledWeight(s, end.legs));
  }

  /**
   The loss bound: with lifecycle exits no worse than the stop (in particular without events), a
   run never loses more than its filled weights before fees, so never more than 1R.
   */
  lemma {:induction false} LossIsBounded(s: Setup, candles: seq<Candle>)
    requires Ready(s) && Playable(candles) && SafeEvents(s)
    ensures
      var end := Replay(s, candles).state;
      Gross(AccountOf(s, end.pos.ledger), end.pos) >= -FilledWeight(s, end.legs)
    ensures
      s.terms.weights.0 + s.terms.weights.1 + s.terms.weights.2 == 1.0 ==>
        var end := Replay(s, candles).state;
        Gross(AccountOf(s, end.pos.ledger), end.pos) >= -1.0
  {
    InitialIsGuarded(s);
    RunIsGuarded(s, Initial(s), candles, 0);
    GrossResult(s, candles);
  }
}
