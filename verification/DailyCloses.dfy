/** Cutting the cash chain into UTC days, and what the resulting series satisfies. */
module DailyCloses {
  import opened Wrappers
  import opened Sequences
  import opened EulerTrails
  import opened Ledger
  import opened BalanceHistory
  import opened DemoBalance

  function DayOfRow(row: LedgerRow): int {
    row.time / DAY_MS
  }

  function ActivityOf(row: LedgerRow): Activity {
    Activity(row.time * 1000, row.kind, row.category, row.symbol, row.side,
             row.quantity, row.price, row.cashFlow, row.fee, row.funding, row.change)
  }

  /** The public records of one day, in ledger order. */
  function ActivityOn(rows: seq<LedgerRow>, date: int): seq<Activity> {
    if rows == [] then []
    else
      ActivityOn(Init(rows), date) + (if DayOfRow(Last(rows)) == date then [ActivityOf(Last(rows))] else [])
  }

  method PublicActivities(rows: seq<LedgerRow>) returns (activities: map<int, seq<Activity>>)
    ensures forall date :: ActivityOn(rows, date) == if date in activities then activities[date] else []
  {
    activities := map[];
    var i := 0;
    while i < |rows|
      invariant 0 <= i <= |rows|
      invariant forall date :: ActivityOn(rows[..i], date) == if date in activities then activities[date] else []
    {
      var day := DayOfRow(rows[i]);
      assert Init(rows[..i + 1]) == rows[..i];
      activities := activities[day := (if day in activities then activities[day] else []) + [ActivityOf(rows[i])]];
      i := i + 1;
    }
    assert rows[..i] == rows;
  }

  // ----- the declarative daily series

  /** The last close strictly before an instant (milliseconds), if any row was seen by then. */
  function BalanceBefore(closes: seq<Close>, instant: int): Option<real> {
    if closes == [] then None
    else if Last(closes).time < instant then Some(Last(closes).balance)
    else BalanceBefore(Init(closes), instant)
  }

  function CloseOn(closes: seq<Close>, wallet: real, today: int, date: int): Option<real> {
    if date == today then Some(wallet) else BalanceBefore(closes, (date + 1) * DAY_MS)
  }

  function ChangeOn(closes: seq<Close>, wallet: real, today: int, date: int): Option<real> {
    var opening := BalanceBefore(closes, date * DAY_MS);
    var close := CloseOn(closes, wallet, today, date);
    if close.Some? && opening.Some? then Some(close.value - opening.value) else None
  }

  /** A day stated directly: its close, what it moved, and whether it is settled. */
  function DayRecord(rows: seq<LedgerRow>, closes: seq<Close>, wallet: real, start: nat, today: int, date: int): Day {
    Day(date, CloseOn(closes, wallet, today, date), ChangeOn(closes, wallet, today, date),
        CloseOn(closes, wallet, today, date).Some? && start <= Midnight(date) && date != today,
        ActivityOn(rows, date))
  }

  ghost predicate Increasing(closes: seq<Close>) {
    forall j, k :: 0 <= j < k < |closes| ==> closes[j].time < closes[k].time
  }

  lemma {:induction false} BalanceBeforeAt(closes: seq<Close>, index: nat, instant: int)
    requires Increasing(closes) && index <= |closes|
    requires forall k :: 0 <= k < index ==> closes[k].time < instant
    requires forall k :: index <= k < |closes| ==> closes[k].time >= instant
    ensures BalanceBefore(closes, instant) == if index == 0 then None else Some(closes[index - 1].balance)
    decreases |closes|
  {
    if index < |closes| {
      assert closes[|closes| - 1].time >= instant;
      BalanceBeforeAt(Init(closes), index, instant);
    } else if closes != [] {
      assert closes[|closes| - 1].time < instant;
    }
  }

  /** `index` closes lie before the instant, and `balance` is the last of them. */
  ghost predicate UpTo(closes: seq<Close>, index: int, balance: Option<real>, instant: int) {
    && 0 <= index <= |closes|
    && (forall k :: 0 <= k < index ==> closes[k].time < instant)
    && (forall k :: index <= k < |closes| ==> closes[k].time >= instant)
    && balance == if index == 0 then None else Some(closes[index - 1].balance)
  }

  /** Consumes the closes before the instant. */
  method Advance(closes: seq<Close>, index0: int, balance0: Option<real>, ghost before: int, instant: int)
    returns (index: int, balance: Option<real>)
    requires Increasing(closes) && before <= instant && UpTo(closes, index0, balance0, before)
    ensures UpTo(closes, index, balance, instant)
    ensures balance == BalanceBefore(closes, instant)
  {
    index, balance := index0, balance0;
    while index < |closes| && closes[index].time < instant
      invariant 0 <= index <= |closes|
      invariant forall k :: 0 <= k < index ==> closes[k].time < instant
      invariant balance == if index == 0 then None else Some(closes[index - 1].balance)
    {
      balance := Some(closes[index].balance);
      index := index + 1;
    }
    forall k | index <= k < |closes| ensures closes[k].time >= instant {
      assert k == index || closes[index].time < closes[k].time;
    }
    BalanceBeforeAt(closes, index, instant);
  }

  /** The days from `start` on are the declared records. */
  ghost predicate Records(
    days: seq<Day>, rows: seq<LedgerRow>, closes: seq<Close>, wallet: real, start: nat, today: int)
  {
    forall i :: 0 <= i < |days| ==> days[i] == DayRecord(rows, closes, wallet, start, today, DateOf(start) + i)
  }

  lemma {:induction false} RecordsSnoc(
    days: seq<Day>, day: Day, rows: seq<LedgerRow>, closes: seq<Close>, wallet: real, start: nat, today: int)
    requires Records(days, rows, closes, wallet, start, today)
    requires day == DayRecord(rows, closes, wallet, start, today, DateOf(start) + |days|)
    ensures Records(days + [day], rows, closes, wallet, start, today)
  {
  }

  /** The two-pointer pass over days and closes, refining the declarative series. */
  method CutIntoDays(
    start: nat, asOf: nat, closes: seq<Close>, wallet: real, activities: map<int, seq<Activity>>,
    ghost rows: seq<LedgerRow>)
    returns (days: seq<Day>)
    requires start <= asOf && Increasing(closes)
    requires forall k :: 0 <= k < |closes| ==> DateOf(start) * DAY_MS <= closes[k].time
    requires forall date :: ActivityOn(rows, date) == if date in activities then activities[date] else []
    ensures |days| == DateOf(asOf) - DateOf(start) + 1
    ensures Records(days, rows, closes, wallet, start, DateOf(asOf))
  {
    days := [];
    var cursor := DateOf(start);
    var balance: Option<real> := None;
    var index := 0;
    BalanceBeforeAt(closes, 0, cursor * DAY_MS);
    while cursor <= DateOf(asOf)
      invariant DateOf(start) <= cursor <= DateOf(asOf) + 1
      invariant |days| == cursor - DateOf(start)
      invariant UpTo(closes, index, balance, cursor * DAY_MS) && balance == BalanceBefore(closes, cursor * DAY_MS)
      invariant Records(days, rows, closes, wallet, start, DateOf(asOf))
      decreases DateOf(asOf) + 1 - cursor
    {
      var opening := balance;
      index, balance := Advance(closes, index, balance, cursor * DAY_MS, (cursor + 1) * DAY_MS);
      var current := cursor == DateOf(asOf);
      var close := if current then Some(wallet) else balance;
      var change := if close.Some? && opening.Some? then Some(close.value - opening.value) else None;
      var activity := if cursor in activities then activities[cursor] else [];
      var day := Day(cursor, close, change, close.Some? && start <= Midnight(cursor) && !current, activity);
      RecordsSnoc(days, day, rows, closes, wallet, start, DateOf(asOf));
      days := days + [day];
      cursor := cursor + 1;
    }
  }

  // ----- telescoping

  /** Wallet changes of the rows strictly before an instant. */
  function TotalBefore(rows: seq<LedgerRow>, instant: int): real {
    if rows == [] then 0.0
    else TotalBefore(Init(rows), instant) + (if Last(rows).time < instant then Last(rows).change else 0.0)
  }

  lemma {:induction false} TotalBeforeConcat(a: seq<LedgerRow>, b: seq<LedgerRow>, instant: int)
    ensures TotalBefore(a + b, instant) == TotalBefore(a, instant) + TotalBefore(b, instant)
  {
    if b == [] {
      assert a + b == a;
    } else {
      assert Init(a + b) == a + Init(b);
      TotalBeforeConcat(a, Init(b), instant);
    }
  }

  lemma {:induction false} TotalBeforeUniform(rows: seq<LedgerRow>, time: int, instant: int)
    requires forall row :: row in rows ==> row.time == time
    ensures TotalBefore(rows, instant) == if time < instant then TotalChange(rows) else 0.0
  {
    if rows != [] {
      TotalBeforeUniform(Init(rows), time, instant);
      assert rows == Init(rows) + [Last(rows)];
      TotalChangeConcat(Init(rows), [Last(rows)]);
      assert TotalChange([Last(rows)]) == Last(rows).change;
    }
  }

  /** What moved between two midnights is exactly the day's published activity. */
  lemma {:induction false} DayTotal(rows: seq<LedgerRow>, date: int)
    ensures TotalBefore(rows, (date + 1) * DAY_MS) - TotalBefore(rows, date * DAY_MS)
         == Movement(ActivityOn(rows, date))
  {
    if rows != [] {
      DayTotal(Init(rows), date);
      var row := Last(rows);
      assert DayOfRow(row) == date <==> date * DAY_MS <= row.time < (date + 1) * DAY_MS;
      if DayOfRow(row) == date {
        MovementSnoc(ActivityOn(Init(rows), date), ActivityOf(row));
      } else {
        assert ActivityOn(rows, date) == ActivityOn(Init(rows), date);
      }
    }
  }

  lemma {:induction false} LinkedMoves(rows: seq<LedgerRow>, opening: real, close: real)
    requires Linked(rows, Some(opening), close)
    ensures close - opening == TotalChange(rows)
  {
    var p :| IsTrail(p, EdgesOf(rows), Some(opening)) && Last(p) == close;
    WalkTelescopes(p);
    TotalOfEdgesPermutation(Pairs(p), EdgesOf(rows));
    TotalOfEdgesOf(rows);
  }

  /** The balance the chain started from. */
  function Origin(batches: seq<Batch>, closes: seq<Close>): real
    requires batches != [] && closes != []
  {
    closes[0].balance - TotalChange(batches[0].rows)
  }

  /** Every observed balance is the origin plus all wallet changes up to then. */
  lemma {:induction false} BalancesTelescope(
    batches: seq<Batch>, opening: Option<real>, closes: seq<Close>, instant: int)
    requires WellGrouped(batches) && Chained(batches, opening, closes)
    requires BalanceBefore(closes, instant).Some?
    ensures BalanceBefore(closes, instant).value == Origin(batches, closes) + TotalBefore(Flatten(batches), instant)
    decreases |batches|
  {
    var rows := Last(batches).rows;
    assert forall row :: row in rows ==> row.time == Last(batches).time;
    TotalBeforeUniform(rows, Last(batches).time, instant);
    TotalBeforeConcat(Flatten(Init(batches)), rows, instant);
    if |batches| == 1 {
      assert Flatten(Init(batches)) == [];
    } else {
      PenultimateBefore(batches, opening, closes, instant);
      BalancesTelescope(Init(batches), opening, Init(closes), instant);
      if Last(closes).time < instant {
        LinkedMoves(rows, Last(Init(closes)).balance, Last(closes).balance);
      }
    }
  }

  lemma {:induction false} PenultimateBefore(
    batches: seq<Batch>, opening: Option<real>, closes: seq<Close>, instant: int)
    requires |batches| > 1 && WellGrouped(batches) && Chained(batches, opening, closes)
    requires BalanceBefore(closes, instant).Some?
    ensures WellGrouped(Init(batches))
    ensures Last(closes).time < instant ==> BalanceBefore(Init(closes), instant) == Some(Last(Init(closes)).balance)
    ensures Last(closes).time >= instant ==> BalanceBefore(Init(closes), instant) == BalanceBefore(closes, instant)
  {
    assert Last(Init(batches)).time < Last(batches).time;
    assert Last(Init(closes)).time == Last(Init(batches)).time;
  }
}
