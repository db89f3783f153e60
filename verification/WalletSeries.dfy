/** The daily series of a ledger, read off its rows: what every day's balance, change and records are. */
module WalletSeries {
  import opened Wrappers
  import opened Sequences
  import opened Ledger
  import opened BalanceHistory
  import opened DemoBalance
  import opened DailyCloses
  import opened WalletHistory
  import opened WalletListing

  /** A row comes before an instant. */
  predicate Seen(rows: seq<LedgerRow>, instant: int) {
    exists row :: row in rows && row.time < instant
  }

  /** The rows of one UTC day, in order. */
  function RowsOn(rows: seq<LedgerRow>, date: int): seq<LedgerRow> {
    Filter(rows, (row: LedgerRow) => date * 86_400_000 <= row.time < (date + 1) * 86_400_000)
  }

  /** The public record of a row: its instant in microseconds, its labels and its amounts. */
  predicate Tells(a: Activity, row: LedgerRow) {
    && a.at == 1000 * row.time
    && a.kind == row.kind && a.category == row.category && a.symbol == row.symbol && a.side == row.side
    && a.quantity == row.quantity && a.price == row.price
    && a.cashFlow == row.cashFlow && a.fee == row.fee && a.funding == row.funding
    && a.walletChange == row.change
  }

  predicate TellsAll(activity: seq<Activity>, rows: seq<LedgerRow>) {
    |activity| == |rows| && forall i :: 0 <= i < |rows| ==> Tells(activity[i], rows[i])
  }

  /**
   A day of the series. Today closes at the wallet; an earlier day that some row reaches back to closes at the wallet
   less everything that moved since. Its change is what moved on the day, and it is settled if it lies whole in the past
   and in the window.
   */
  ghost predicate DayOf(day: Day, rows: seq<LedgerRow>, wallet: real, start: nat, today: int, date: int) {
    var midnight, next := date * 86_400_000, (date + 1) * 86_400_000;
    && day.date == date
    && (day.balance.Some? <==> date == today || Seen(rows, next))
    && (day.balance.Some? ==> day.balance.value == wallet - Moved(rows, next, (today + 1) * 86_400_000))
    && (day.change.Some? <==> day.balance.Some? && Seen(rows, midnight))
    && (day.change.Some? ==> day.change.value == Moved(rows, midnight, next))
    && (day.complete <==> day.balance.Some? && start <= 1000 * midnight && date != today)
    && TellsAll(day.activity, RowsOn(rows, date))
  }

  // ----- records

  lemma {:induction false} ActivityTells(rows: seq<LedgerRow>, date: int)
    ensures TellsAll(ActivityOn(rows, date), RowsOn(rows, date))
  {
    if rows != [] {
      var row := Last(rows);
      var keep := (row: LedgerRow) => date * 86_400_000 <= row.time < (date + 1) * 86_400_000;
      ActivityTells(Init(rows), date);
      FilterConcat(Init(rows), [row], keep);
      assert rows == Init(rows) + [row];
      assert Filter([row], keep) == if keep(row) then [row] else [];
      assert DayOfRow(row) == date <==> keep(row);
    }
  }

  // ----- balances

  lemma {:induction false} FlattenFinds(batches: seq<Batch>, row: LedgerRow) returns (k: nat)
    requires row in Flatten(batches)
    ensures k < |batches| && row in batches[k].rows
    decreases |batches|
  {
    if row in Last(batches).rows {
      k := |batches| - 1;
    } else {
      k := FlattenFinds(Init(batches), row);
    }
  }

  lemma {:induction false} CloseSeen(closes: seq<Close>, k: nat, instant: int)
    requires k < |closes| && closes[k].time < instant
    ensures BalanceBefore(closes, instant).Some?
    decreases |closes|
  {
    if Last(closes).time >= instant {
      CloseSeen(Init(closes), k, instant);
    }
  }

  lemma {:induction false} SeenClose(closes: seq<Close>, instant: int) returns (k: nat)
    requires BalanceBefore(closes, instant).Some?
    ensures k < |closes| && closes[k].time < instant
    decreases |closes|
  {
    if Last(closes).time < instant {
      k := |closes| - 1;
    } else {
      k := SeenClose(Init(closes), instant);
    }
  }

  /** A balance is known at an instant exactly when some row comes before it. */
  lemma {:induction false} KnownWhenSeen(ordered: seq<LedgerRow>, closes: seq<Close>, wallet: real, instant: int)
    requires SortedBy(ordered, TimeOf) && Reconciles(ordered, closes, wallet)
    ensures BalanceBefore(closes, instant).Some? <==> Seen(ordered, instant)
  {
    var batches := Batches(ordered);
    BatchesAreGroups(ordered);
    if BalanceBefore(closes, instant).Some? {
      var k := SeenClose(closes, instant);
      ChainTimes(batches, FirstOpening(batches), closes, k);
      FlattenElements(batches, k);
      assert batches[k].rows[0] in batches[k].rows && batches[k].rows[0].time == batches[k].time;
    }
    if row :| row in ordered && row.time < instant {
      var k := FlattenFinds(batches, row);
      ChainTimes(batches, FirstOpening(batches), closes, k);
      var j :| 0 <= j < |batches[k].rows| && batches[k].rows[j] == row;
      assert batches[k].rows[j].time == batches[k].time;
      CloseSeen(closes, k, instant);
    }
  }

  /** A known balance is the wallet less everything that moved from then to the end. */
  lemma {:induction false} KnownBalance(
    ordered: seq<LedgerRow>, closes: seq<Close>, wallet: real, instant: int, end: int)
    requires SortedBy(ordered, TimeOf) && Reconciles(ordered, closes, wallet)
    requires (forall row :: row in ordered ==> row.time < end) && instant <= end
    requires BalanceBefore(closes, instant).Some?
    ensures BalanceBefore(closes, instant).value == wallet - Moved(ordered, instant, end)
  {
    var k := SeenClose(closes, instant);
    BatchesAreGroups(ordered);
    assert ordered != [];
    BalancesTelescope(Batches(ordered), FirstOpening(Batches(ordered)), closes, instant);
    WalletIsOriginPlusChanges(ordered, closes, wallet);
    AllBefore(ordered, end);
    MovedBetween(ordered, instant, end);
  }

  lemma {:induction false} NothingAfter(rows: seq<LedgerRow>, since: int)
    ensures Moved(rows, since, since) == 0.0
  {
    if rows != [] {
      NothingAfter(Init(rows), since);
    }
  }

  /** The change of a day, where both its balances are known. */
  lemma {:induction false} KnownChange(
    ordered: seq<LedgerRow>, closes: seq<Close>, wallet: real, start: nat, asOf: nat, date: int)
    requires SortedBy(ordered, TimeOf) && Reconciles(ordered, closes, wallet)
    requires forall row :: row in ordered ==> start / 1000 <= row.time <= asOf / 1000
    requires ChangeOn(closes, wallet, DateOf(asOf), date).Some?
    ensures ChangeOn(closes, wallet, DateOf(asOf), date).value
         == Moved(ordered, date * 86_400_000, (date + 1) * 86_400_000)
  {
    ChangeIsMovement(ordered, closes, wallet, start, asOf, date);
    DayTotal(ordered, date);
    MovedBetween(ordered, date * 86_400_000, (date + 1) * 86_400_000);
  }

  lemma {:induction false} RowsEndToday(ordered: seq<LedgerRow>, asOf: nat)
    requires forall row :: row in ordered ==> row.time <= asOf / 1000
    ensures forall row :: row in ordered ==> row.time < (DateOf(asOf) + 1) * 86_400_000
  {
    assert asOf / 1000 < (DateOf(asOf) + 1) * 86_400_000;
  }

  lemma {:induction false} RecordFromRows(
    ordered: seq<LedgerRow>, closes: seq<Close>, wallet: real, start: nat, asOf: nat, date: int)
    requires SortedBy(ordered, TimeOf) && Reconciles(ordered, closes, wallet)
    requires forall row :: row in ordered ==> start / 1000 <= row.time <= asOf / 1000
    requires date <= DateOf(asOf)
    ensures
      DayOf(DayRecord(ordered, closes, wallet, start, DateOf(asOf), date), ordered, wallet, start, DateOf(asOf), date)
  {
    var today := DateOf(asOf);
    var midnight, next, end := date * 86_400_000, (date + 1) * 86_400_000, (today + 1) * 86_400_000;
    RowsEndToday(ordered, asOf);
    KnownWhenSeen(ordered, closes, wallet, midnight);
    KnownWhenSeen(ordered, closes, wallet, next);
    if date == today {
      NothingAfter(ordered, end);
    } else if BalanceBefore(closes, next).Some? {
      KnownBalance(ordered, closes, wallet, next, end);
    }
    if ChangeOn(closes, wallet, today, date).Some? {
      KnownChange(ordered, closes, wallet, start, asOf, date);
    }
    ActivityTells(ordered, date);
  }

  /** Every day of the series is read off the rows, from the day of the window's start to that of the capture. */
  lemma {:induction false} SeriesFromRows(
    ordered: seq<LedgerRow>, closes: seq<Close>, wallet: real, start: nat, asOf: nat)
    requires SortedBy(ordered, TimeOf) && Reconciles(ordered, closes, wallet)
    requires forall row :: row in ordered ==> start / 1000 <= row.time <= asOf / 1000
    requires start <= asOf
    ensures
      var h := SeriesOf(ordered, closes, wallet, start, asOf);
      var first, today := start / 86_400_000_000, asOf / 86_400_000_000;
      && h.start == start && h.asOf == asOf && |h.days| == today - first + 1
      && forall i :: 0 <= i < |h.days| ==> DayOf(h.days[i], ordered, wallet, start, today, first + i)
  {
    var h := SeriesOf(ordered, closes, wallet, start, asOf);
    forall i | 0 <= i < |h.days|
      ensures DayOf(h.days[i], ordered, wallet, start, DateOf(asOf), DateOf(start) + i)
    {
      RecordFromRows(ordered, closes, wallet, start, asOf, DateOf(start) + i);
    }
  }
}
