/** Cash conservation of every replay run, and what each fill puts at risk. */
module ReplayAccounts {
  import opened Wrappers
  import opened Sequences
  import opened Trading
  import opened ReplayModel

  /**
   What the ledger says, without the engine's own running sums. `risk` is what the entries would
   lose at the stop, `saved` what the exits fetched beyond it.
   */
  datatype Account = Account(open: real, cost: real, proceeds: real, fees: real, funding: real, risk: real, saved: real)

  function PostBuy(s: Setup, a: Account, qty: real, price: real, fee: real): Account {
    Account(a.open + qty, a.cost + Value(qty, price), a.proceeds, a.fees + fee, a.funding,
            a.risk + Value(qty, Gain(s.side, price, s.stop)), a.saved)
  }

  function PostSale(s: Setup, a: Account, qty: real, price: real, fee: real): Account {
    Account(a.open - qty, a.cost, a.proceeds + Value(qty, price), a.fees + fee, a.funding,
            a.risk, a.saved + Value(qty, Gain(s.side, price, s.stop)))
  }

  function Post(s: Setup, a: Account, flow: Flow): Account {
    match flow
    case Bought(qty, price, fee) => PostBuy(s, a, qty, price, fee)
    case Sold(qty, price, fee) => PostSale(s, a, qty, price, fee)
    case Funding(amount) => a.(funding := a.funding + amount)
  }

  function AccountOf(s: Setup, ledger: seq<Flow>): Account {
    if ledger == [] then Account(0.0, 0.0, 0.0, 0.0, 0.0, 0.0, 0.0)
    else Post(s, AccountOf(s, Init(ledger)), Last(ledger))
  }

  function Signed(side: Side, x: real): real {
    if side.Long? then x else -x
  }

  function FilledWeight(s: Setup, legs: Legs): real {
    s.terms.weights.0
    + (if legs.second then s.terms.weights.1 else 0.0)
    + (if legs.third then s.terms.weights.2 else 0.0)
  }

  /** The engine's sums agree with the account, and the fills risked exactly `weight`. */
  ghost predicate Agrees(side: Side, a: Account, qty: real, worth: real, realized: real, funding: real, weight: real) {
    && qty == a.open
    && realized == Signed(side, a.proceeds - a.cost + worth) - a.fees + a.funding
    && funding == a.funding
    && a.risk == weight
  }

  /** The open quantity at its average price. */
  function Worth(pos: Position): real {
    Value(pos.qty, pos.avg)
  }

  ghost predicate Books(s: Setup, pos: Position, weight: real) {
    Agrees(s.side, AccountOf(s, pos.ledger), pos.qty, Worth(pos), pos.realized, pos.funding, weight)
  }

  lemma {:induction false} AccountSnoc(s: Setup, ledger: seq<Flow>, flow: Flow)
    ensures AccountOf(s, ledger + [flow]) == Post(s, AccountOf(s, ledger), flow)
  {
    InitSnoc(ledger, flow);
  }

  /** The arithmetic of one booking, with every product already taken. */
  lemma {:induction false} AgreesAfter(
    side: Side, a: Account, pos: Position, a': Account, pos': Position, worth: real, worth': real,
    weight: real, weight': real, delta: real, worthAdded: real, cost: real, proceeds: real, fee: real)
    requires Agrees(side, a, pos.qty, worth, pos.realized, pos.funding, weight)
    requires a'.open == a.open + delta && pos'.qty == pos.qty + delta
    requires worth' == worth + worthAdded
    requires a'.cost == a.cost + cost && a'.proceeds == a.proceeds + proceeds && a'.fees == a.fees + fee
    requires a'.funding == a.funding && pos'.funding == pos.funding
    requires a'.risk - a.risk == weight' - weight
    requires pos'.realized == pos.realized + Signed(side, proceeds - cost + worthAdded) - fee
    ensures Agrees(side, a', pos'.qty, worth', pos'.realized, pos'.funding, weight')
  {
  }

  /** An averaging fill: the paid average times the quantity is the money paid. */
  lemma {:induction false} AddKeepsBooks(
    s: Setup, pos: Position, qty: real, price: real, feeRate: real, weight: real, legWeight: real)
    requires Books(s, pos, weight) && pos.qty >= 0.0 && qty >= 0.0 && pos.qty + qty > 0.0
    requires Value(qty, Gain(s.side, price, s.stop)) == legWeight
    ensures Books(s, Add(pos, qty, price, feeRate), weight + legWeight)
  {
    var pos' := Add(pos, qty, price, feeRate);
    var a, a' := AccountOf(s, pos.ledger), AccountOf(s, pos'.ledger);
    var cost, fee := Value(qty, price), Fee(qty, price, feeRate);
    AccountSnoc(s, pos.ledger, Bought(qty, price, fee));
    AverageWorth(pos, qty, price, feeRate);
    AgreesAfter(s.side, a, pos, a', pos', Worth(pos), Worth(pos'), weight, weight + legWeight,
                qty, cost, cost, 0.0, fee);
  }

  lemma {:induction false} AverageWorth(pos: Position, qty: real, price: real, feeRate: real)
    requires pos.qty >= 0.0 && qty >= 0.0 && pos.qty + qty > 0.0
    ensures Worth(Add(pos, qty, price, feeRate)) == Worth(pos) + Value(qty, price)
  {
    AverageIsBetween(pos.avg, pos.qty, price, qty);
  }

  lemma {:induction false} ClosePartKeepsBooks(
    s: Setup, pos: Position, amount: real, price: real, feeRate: real, weight: real)
    requires Books(s, pos, weight) && pos.qty >= 0.0
    ensures Books(s, ClosePart(s.side, pos, amount, price, feeRate), weight)
    ensures amount >= pos.qty ==> ClosePart(s.side, pos, amount, price, feeRate).qty == 0.0
  {
    var a := Min(amount, pos.qty);
    if a > 0.0 {
      var pos' := ClosePart(s.side, pos, amount, price, feeRate);
      var acc, acc' := AccountOf(s, pos.ledger), AccountOf(s, pos'.ledger);
      var proceeds, cost, fee := Value(a, price), Value(a, pos.avg), Fee(a, price, feeRate);
      AccountSnoc(s, pos.ledger, Sold(a, price, fee));
      SoldWorth(s.side, pos, a, price);
      AgreesAfter(s.side, acc, pos, acc', pos', Worth(pos), Worth(pos'), weight, weight, -a, -cost, 0.0, proceeds, fee);
    }
  }

  lemma {:induction false} SoldWorth(side: Side, pos: Position, a: real, price: real)
    ensures Value(pos.qty - a, pos.avg) == Worth(pos) - Value(a, pos.avg)
    ensures Value(a, Gain(side, price, pos.avg)) == Signed(side, Value(a, price) - Value(a, pos.avg))
  {
  }

  lemma {:induction false} FundingKeepsBooks(s: Setup, pos: Position, amount: real, weight: real)
    requires Books(s, pos, weight)
    ensures Books(s, ReceiveFunding(pos, amount), weight)
  {
    AccountSnoc(s, pos.ledger, Funding(amount));
    assert Worth(ReceiveFunding(pos, amount)) == Worth(pos);
    AgreesAfterFunding(s.side, AccountOf(s, pos.ledger), pos.qty, Worth(pos), pos.realized, pos.funding,
                       weight, amount);
  }

  lemma {:induction false} AgreesAfterFunding(
    side: Side, a: Account, qty: real, worth: real, realized: real, funding: real, weight: real, amount: real)
    requires Agrees(side, a, qty, worth, realized, funding, weight)
    ensures Agrees(side, a.(funding := a.funding + amount), qty, worth, realized + amount, funding + amount, weight)
  {
  }

  // ----- every phase keeps the books

  ghost predicate Booked(s: Setup, st: State) {
    Books(s, st.pos, FilledWeight(s, st.legs))
  }

  lemma {:induction false} FillSecondIsBooked(s: Setup, st: State, c: Candle)
    requires Ready(s) && Sound(s, st) && Booked(s, st)
    ensures Booked(s, FillSecond(s, st, c))
  {
    if !st.legs.second && Touched(s, c, s.level2) {
      LegQtyRisks(s, s.terms.weights.1, s.level2);
      AddKeepsBooks(s, st.pos, LegQty(s, s.terms.weights.1, s.level2), s.level2, s.terms.makerFee,
                    FilledWeight(s, st.legs), s.terms.weights.1);
    }
  }

  lemma {:induction false} AddThirdIsBooked(s: Setup, st: State, price: real, feeRate: real, legs: Legs, time: int)
    requires Ready(s) && Sound(s, st) && !st.exits.frozen && !st.legs.third && Booked(s, st)
    requires price > 0.0 && Gain(s.side, price, s.stop) > 0.0
    requires legs.second == st.legs.second
    ensures Booked(s, AddThird(s, st, price, feeRate, legs, time))
  {
    LegQtyRisks(s, s.terms.weights.2, price);
    AddKeepsBooks(s, st.pos, LegQty(s, s.terms.weights.2, price), price, feeRate,
                  FilledWeight(s, st.legs), s.terms.weights.2);
  }

  lemma {:induction false} FillLegsIsBooked(s: Setup, st: State, c: Candle)
    requires Ready(s) && Sound(s, st) && WellFormed(c) && Booked(s, st)
    ensures Booked(s, FillLegs(s, st, c))
  {
    if !st.exits.frozen {
      FillSecondIsBooked(s, st, c);
      var mid := FillSecond(s, st, c);
      if !mid.legs.third {
        if Reclaimed(s, c) {
          AddThirdIsBooked(s, mid, c.close, s.terms.takerFee, mid.legs.(reclaimedAt := Some(c.time)), c.time);
        }
        AddThirdIsBooked(s, mid, s.level3, s.terms.makerFee, mid.legs, c.time);
      }
    }
  }

  lemma {:induction false} LiquidateIsBooked(s: Setup, st: State, price: real)
    requires Booked(s, st) && st.pos.qty >= 0.0
    ensures Booked(s, Liquidate(s, st, price)) && Liquidate(s, st, price).pos.qty == 0.0
  {
    ClosePartKeepsBooks(s, st.pos, st.pos.qty, price, s.terms.takerFee, FilledWeight(s, st.legs));
  }

  lemma {:induction false} ReducedIsBooked(s: Setup, st: State, pct: real, price: real)
    requires Booked(s, st) && st.pos.qty >= 0.0
    ensures Booked(s, Reduced(s, st, pct, price))
  {
    ClosePartKeepsBooks(s, st.pos, Share(st.pos.qty, pct), price, s.terms.takerFee, FilledWeight(s, st.legs));
  }

  lemma {:induction false} ApplyEventIsBooked(s: Setup, st: State, event: Event)
    requires Ready(s) && Sound(s, st) && Booked(s, st)
    ensures Booked(s, ApplyEvent(s, st, event).0)
    ensures ApplyEvent(s, st, event).1 ==> ApplyEvent(s, st, event).0.pos.qty == 0.0
  {
    if event.FundingPaid? {
      FundingKeepsBooks(s, st.pos, Fee(st.pos.qty, event.price, event.rate), FilledWeight(s, st.legs));
    } else if event.CloseAll? {
      LiquidateIsBooked(s, st, event.price);
    } else if event.closePct.Some? {
      ReducedIsBooked(s, Freeze(s, st), event.closePct.value, event.price);
    }
  }

  lemma {:induction false} ApplyEventsIsBooked(s: Setup, st: State, candleEnd: int) returns (left: State, closed: bool)
    requires Ready(s) && Sound(s, st) && Booked(s, st)
    ensures ApplyEvents(s, st, candleEnd) == (left, closed)
    ensures Booked(s, left) && (closed ==> left.pos.qty == 0.0)
    decreases |s.terms.events| - st.eventIndex
  {
    if st.eventIndex >= |s.terms.events| || s.terms.events[st.eventIndex].time >= candleEnd {
      left, closed := st, false;
    } else {
      var next := st.(eventIndex := st.eventIndex + 1);
      if next.pos.qty <= 0.0 {
        left, closed := ApplyEventsIsBooked(s, next, candleEnd);
      } else {
        ApplyEventIsBooked(s, next, s.terms.events[st.eventIndex]);
        var applied := ApplyEvent(s, next, s.terms.events[st.eventIndex]);
        if applied.1 {
          left, closed := applied.0, true;
        } else {
          left, closed := ApplyEventsIsBooked(s, applied.0, candleEnd);
        }
      }
    }
  }

  lemma {:induction false} FillTargetIsBooked(s: Setup, st: State, c: Candle, i: nat)
    requires Sound(s, st) && st.exits.frozen && i < 3 && Booked(s, st)
    ensures Booked(s, FillTarget(s, st, c, i))
  {
    ClosePartKeepsBooks(s, st.pos, st.exits.qtys[i], st.exits.prices[i], s.terms.makerFee, FilledWeight(s, st.legs));
  }

  lemma {:induction false} FillTargetsIsBooked(s: Setup, st: State, c: Candle)
    requires Sound(s, st) && st.exits.frozen && Booked(s, st)
    ensures Booked(s, FillTargets(s, st, c))
  {
    FillTargetIsBooked(s, st, c, 0);
    FillTargetIsBooked(s, FillTarget(s, st, c, 0), c, 1);
    FillTargetIsBooked(s, FillTarget(s, FillTarget(s, st, c, 0), c, 1), c, 2);
  }

  lemma {:induction false} ReachIsBooked(s: Setup, st: State, c: Candle)
    requires Ready(s) && Sound(s, st) && Booked(s, st)
    ensures Booked(s, Reach(s, st, c))
  {
    var seen := Excursion(s, st, c);
    assert seen.pos == st.pos && seen.legs == st.legs;
    if seen.exits.frozen { FillTargetsIsBooked(s, seen, c); }
  }

  /** The books of an outcome: kept, and closed with a flat position on every return. */
  ghost predicate Closes(s: Setup, r: Outcome) {
    Booked(s, r.state) && (r.Done? ==> r.state.pos.qty == 0.0)
  }

  lemma {:induction false} ConcludeIsBooked(s: Setup, st: State, c: Candle)
    requires Ready(s) && Sound(s, st) && Booked(s, st)
    ensures Closes(s, Conclude(s, st, c))
  {
    LiquidateIsBooked(s, st, c.close);
  }

  lemma {:induction false} HarvestIsBooked(s: Setup, st: State, c: Candle)
    requires Ready(s) && Sound(s, st) && Booked(s, st)
    ensures Closes(s, Harvest(s, st, c))
  {
    ReachIsBooked(s, st, c);
    ConcludeIsBooked(s, Reach(s, st, c), c);
  }

  lemma {:induction false} ProceedIsBooked(s: Setup, st: State, c: Candle)
    requires Ready(s) && Sound(s, st) && Booked(s, st)
    ensures Closes(s, Proceed(s, st, c))
  {
    var trim := Trim(s, st, c);
    ClosePartKeepsBooks(s, st.pos, trim, c.close, s.terms.takerFee, FilledWeight(s, st.legs));
    var left := st.(pos := ClosePart(s.side, st.pos, trim, c.close, s.terms.takerFee));
    if !(trim > 0.0) && left.legs.reclaimedAt != Some(c.time) {
      HarvestIsBooked(s, left, c);
    }
  }

  lemma {:induction false} LifecycleIsBooked(s: Setup, st: State, c: Candle)
    requires Ready(s) && Sound(s, st) && Booked(s, st)
    ensures Closes(s, Lifecycle(s, st, c))
  {
    if s.terms.useEvents {
      var left, closed := ApplyEventsIsBooked(s, st, c.time + 60_000);
      assert Lifecycle(s, st, c) == if closed then Done(left, false) else Proceed(s, left, c);
      if !closed {
        ProceedIsBooked(s, left, c);
      }
    } else {
      ProceedIsBooked(s, st, c);
    }
  }

  lemma {:induction false} ReactIsBooked(s: Setup, st: State, c: Candle)
    requires Ready(s) && Sound(s, st) && Booked(s, st)
    ensures Closes(s, React(s, st, c))
  {
    LiquidateIsBooked(s, st, Protection(s, st).0);
    LifecycleIsBooked(s, st, c);
  }

  /** One candle keeps the books, and every return leaves the position flat. */
  lemma {:induction false} StepIsBooked(s: Setup, st: State, c: Candle)
    requires Ready(s) && Sound(s, st) && WellFormed(c) && Booked(s, st)
    ensures Closes(s, Step(s, st, c))
  {
    FillLegsIsBooked(s, st, c);
    ReactIsBooked(s, FillLegs(s, st, c), c);
  }

  lemma {:induction false} RunIsBooked(s: Setup, st: State, candles: seq<Candle>, i: nat)
    requires Ready(s) && Sound(s, st) && Booked(s, st)
    requires Playable(candles) && i <= |candles|
    ensures Booked(s, Run(s, st, candles, i).state) && Run(s, st, candles, i).state.pos.qty == 0.0
    decreases |candles| - i
  {
    if i == |candles| {
      LiquidateIsBooked(s, st, candles[|candles| - 1].close);
    } else {
      StepIsBooked(s, st, candles[i]);
      var next := Step(s, st, candles[i]);
      if next.Running? {
        RunIsBooked(s, next.state, candles, i + 1);
      }
    }
  }

  lemma {:induction false} InitialIsBooked(s: Setup)
    requires Ready(s)
    ensures Sound(s, Initial(s)) && Booked(s, Initial(s))
  {
    InitialIsSound(s);
    LegQtyRisks(s, s.terms.weights.0, s.level1);
    var ledger := Initial(s).pos.ledger;
    assert ledger == [] + [ledger[0]];
    AccountSnoc(s, [], ledger[0]);
  }

  /** A flat position: the result is the account's signed trading result, less fees, plus funding. */
  ghost predicate Settled(side: Side, a: Account, pos: Position, weight: real) {
    && pos.qty == 0.0 && a.open == 0.0
    && pos.realized == Signed(side, a.proceeds - a.cost) - a.fees + a.funding
    && pos.funding == a.funding
    && a.risk == weight
  }

  lemma {:induction false} FlatAgrees(side: Side, a: Account, pos: Position, weight: real)
    requires Agrees(side, a, pos.qty, Worth(pos), pos.realized, pos.funding, weight) && pos.qty == 0.0
    ensures Settled(side, a, pos, weight)
  {
    assert Worth(pos) == 0.0;
  }

  /**
   Cash conservation: every run ends flat, and its result is the signed exit proceeds minus the
   signed entry cost, minus fees, plus funding. The entries risked exactly the filled weights.
   */
  lemma {:induction false} ReplayConservesCash(s: Setup, candles: seq<Candle>)
    requires Ready(s) && Playable(candles)
    ensures
      var end := Replay(s, candles).state;
      Settled(s.side, AccountOf(s, end.pos.ledger), end.pos, FilledWeight(s, end.legs))
  {
    InitialIsBooked(s);
    RunIsBooked(s, Initial(s), candles, 0);
    var end := Replay(s, candles).state;
    FlatAgrees(s.side, AccountOf(s, end.pos.ledger), end.pos, FilledWeight(s, end.legs));
  }
}
