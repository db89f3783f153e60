/** `daily_wallet_history` end to end, and the promise that its output passes the validator. */
module WalletHistory {
  import opened Wrappers
  import opened Sequences
  import opened EulerTrails
  import opened Ledger
  import opened BalanceHistory
  import opened DemoBalance
  import opened DailyCloses
  import BalanceCache

  function Ordered(rows: seq<LedgerRow>): seq<LedgerRow> {
    StableSort(FirstOccurrences(rows), TimeOf)
  }

  predicate ValidInterval(start: nat, asOf: nat) {
    start < asOf && asOf - start <= MAX_WINDOW_US
  }

  /** The closes form one unbroken cash chain that ends at the wallet anchor. */
  ghost predicate Reconciles(ordered: seq<LedgerRow>, closes: seq<Close>, wallet: real) {
    && Chained(Batches(ordered), FirstOpening(Batches(ordered)), closes)
    && (closes != [] ==> Last(closes).balance == wallet)
  }

  ghost predicate Reconstructible(rows: seq<LedgerRow>, start: nat, asOf: nat, wallet: real) {
    && ValidInterval(start, asOf)
    && Acceptable(rows, start / 1000, asOf / 1000)
    && exists closes :: Reconciles(Ordered(rows), closes, wallet)
  }

  function SeriesOf(ordered: seq<LedgerRow>, closes: seq<Close>, wallet: real, start: nat, asOf: nat): History
    requires start <= asOf
  {
    History(start, asOf,
            seq(DateOf(asOf) - DateOf(start) + 1,
                i requires 0 <= i => DayRecord(ordered, closes, wallet, start, DateOf(asOf), DateOf(start) + i)))
  }

  lemma {:induction false} ChainTimes(batches: seq<Batch>, opening: Option<real>, closes: seq<Close>, k: nat)
    requires Chained(batches, opening, closes) && k < |batches|
    ensures closes[k].time == batches[k].time
    decreases |batches|
  {
    if k < |batches| - 1 {
      ChainTimes(Init(batches), opening, Init(closes), k);
      assert Init(closes)[k] == closes[k] && Init(batches)[k] == batches[k];
    }
  }

  lemma {:induction false} FlattenElements(batches: seq<Batch>, k: nat)
    requires k < |batches|
    ensures forall row :: row in batches[k].rows ==> row in Flatten(batches)
    decreases |batches|
  {
    if k < |batches| - 1 {
      FlattenElements(Init(batches), k);
      assert Init(batches)[k] == batches[k];
    }
  }

  /** Closes come in increasing time order, each at the time of some row. */
  lemma {:induction false} ClosesFollowRows(
    ordered: seq<LedgerRow>, closes: seq<Close>, wallet: real, firstMs: int, lastMs: int)
    requires SortedBy(ordered, TimeOf) && Reconciles(ordered, closes, wallet)
    requires forall row :: row in ordered ==> firstMs <= row.time <= lastMs
    ensures Increasing(closes)
    ensures forall k :: 0 <= k < |closes| ==> firstMs <= closes[k].time <= lastMs
  {
    var batches := Batches(ordered);
    BatchesAreGroups(ordered);
    forall k | 0 <= k < |closes|
      ensures closes[k].time == batches[k].time && firstMs <= closes[k].time <= lastMs
    {
      ChainTimes(batches, FirstOpening(batches), closes, k);
      FlattenElements(batches, k);
      assert batches[k].rows[0] in batches[k].rows;
      assert batches[k].rows[0].time == batches[k].time;
    }
    forall j, k | 0 <= j < k < |closes| ensures closes[j].time < closes[k].time {
      assert batches[j].time < batches[k].time;
    }
  }

  lemma {:induction false} OrderedRows(rows: seq<LedgerRow>, firstMs: nat, lastMs: nat)
    requires Acceptable(rows, firstMs, lastMs)
    ensures SortedBy(Ordered(rows), TimeOf)
    ensures forall row :: row in Ordered(rows) ==> row in rows && ValidRow(row, firstMs, lastMs)
  {
    SortOrders(FirstOccurrences(rows), TimeOf);
    SortPermutes(FirstOccurrences(rows), TimeOf);
    FirstOccurrencesElements(rows);
    forall row | row in Ordered(rows) ensures row in rows && ValidRow(row, firstMs, lastMs) {
      assert row in FirstOccurrences(rows);
      assert AcceptableRow(row, firstMs, lastMs);
    }
  }

  /** The whole reconstruction: it succeeds exactly on reconcilable ledgers and returns their series. */
  method DailyWalletHistory(rows: seq<LedgerRow>, start: nat, asOf: nat, wallet: real)
    returns (r: Result<History, LedgerError>)
    ensures r.Ok? <==> Reconstructible(rows, start, asOf, wallet)
    ensures r.Ok? ==> exists closes :: Reconciles(Ordered(rows), closes, wallet)
                                       && r.value == SeriesOf(Ordered(rows), closes, wallet, start, asOf)
  {
    if !ValidInterval(start, asOf) {
      return Err(InvalidInterval);
    }
    var validated := ValidatedRows(rows, start / 1000, asOf / 1000);
    if validated.Err? {
      return Err(validated.error);
    }
    var ordered := validated.value;
    OrderedRows(rows, start / 1000, asOf / 1000);
    BatchesAreNonEmpty(ordered);
    var batches := GroupByTime(ordered);
    var chained := ChainBatches(batches);
    if chained.Err? {
      return Err(chained.error);
    }
    var closes := chained.value;
    if closes != [] && Last(closes).balance != wallet {
      AnchorIsForced(ordered, closes, wallet);
      return Err(AnchorMismatch);
    }
    assert Reconciles(ordered, closes, wallet);
    ClosesFollowRows(ordered, closes, wallet, start / 1000, asOf / 1000);
    var activities := PublicActivities(ordered);
    var days := CutIntoDays(start, asOf, closes, wallet, activities, ordered);
    assert days == SeriesOf(ordered, closes, wallet, start, asOf).days;
    return Ok(History(start, asOf, days));
  }

  lemma {:induction false} BatchesAreNonEmpty(ordered: seq<LedgerRow>)
    requires SortedBy(ordered, TimeOf)
    ensures forall k :: 0 <= k < |Batches(ordered)| ==> Batches(ordered)[k].rows != []
  {
    BatchesAreGroups(ordered);
  }

  /** No other chain of the same rows could have met the anchor. */
  lemma {:induction false} AnchorIsForced(ordered: seq<LedgerRow>, closes: seq<Close>, wallet: real)
    requires Chained(Batches(ordered), FirstOpening(Batches(ordered)), closes)
    requires forall k :: 0 <= k < |Batches(ordered)| ==> Batches(ordered)[k].rows != []
    requires closes != [] && Last(closes).balance != wallet
    ensures forall other :: !Reconciles(ordered, other, wallet)
  {
    var batches := Batches(ordered);
    forall other: seq<Close> ensures !Reconciles(ordered, other, wallet) {
      if Chained(batches, FirstOpening(batches), other) {
        ChainIsDetermined(batches, batches, FirstOpening(batches), closes, other);
      }
    }
  }

  // ----- consequences

  /** All rows together are one trail: batch by batch, from the origin to the wallet anchor. */
  lemma {:induction false} ChainIsOneTrail(batches: seq<Batch>, opening: Option<real>, closes: seq<Close>)
    returns (p: seq<real>)
    requires batches != [] && Chained(batches, opening, closes)
    ensures IsTrail(p, EdgesOf(Flatten(batches)), opening)
    ensures Last(p) == Last(closes).balance
    decreases |batches|
  {
    var rows := Last(batches).rows;
    var q :| IsTrail(q, EdgesOf(rows), OpeningAfter(opening, Init(closes))) && Last(q) == Last(closes).balance;
    if |batches| == 1 {
      p := q;
      assert Flatten(Init(batches)) == [];
      assert Flatten(batches) == rows;
    } else {
      var earlier := ChainIsOneTrail(Init(batches), opening, Init(closes));
      p := JoinTrails(earlier, q, EdgesOf(Flatten(Init(batches))), EdgesOf(rows), opening);
      EdgesOfConcat(Flatten(Init(batches)), rows);
    }
  }

  lemma {:induction false} JoinTrails(p: seq<real>, q: seq<real>, es: seq<Edge>, fs: seq<Edge>, opening: Option<real>)
    returns (r: seq<real>)
    requires IsTrail(p, es, opening) && IsTrail(q, fs, Some(Last(p)))
    ensures IsTrail(r, es + fs, opening) && Last(r) == Last(q)
  {
    if |q| == 1 {
      r := p;
    } else {
      r := p + q[1..];
      PairsConcat(p, q[1..]);
      assert Pairs(q) == [(q[0], q[1])] + Pairs(q[1..]);
      assert Pairs(r) == Pairs(p) + Pairs(q);
    }
  }

  /** Nothing is lost: the wallet anchor is the origin plus every wallet change in the window. */
  lemma {:induction false} WalletIsOriginPlusChanges(ordered: seq<LedgerRow>, closes: seq<Close>, wallet: real)
    requires SortedBy(ordered, TimeOf) && Reconciles(ordered, closes, wallet) && ordered != []
    ensures Batches(ordered) != [] && closes != []
    ensures wallet == Origin(Batches(ordered), closes) + TotalChange(ordered)
  {
    var batches := Batches(ordered);
    BatchesAreGroups(ordered);
    assert batches != [];
    var instant := Last(closes).time + 1;
    BalancesTelescope(batches, FirstOpening(batches), closes, instant);
    forall row | row in ordered ensures row.time < instant {
      var i :| 0 <= i < |ordered| && ordered[i] == row;
      assert TimeOf(ordered[i]) <= TimeOf(Last(ordered));
    }
    AllBefore(ordered, instant);
  }

  lemma {:induction false} AllBefore(rows: seq<LedgerRow>, instant: int)
    requires forall row :: row in rows ==> row.time < instant
    ensures TotalBefore(rows, instant) == TotalChange(rows)
  {
    if rows != [] {
      AllBefore(Init(rows), instant);
      assert rows == Init(rows) + [Last(rows)];
      TotalChangeConcat(Init(rows), [Last(rows)]);
      assert TotalChange([Last(rows)]) == Last(rows).change;
    }
  }

  // ----- the producer against the validator

  /** What the validator asks of a row and the producer does not check. */
  predicate PublishableRow(row: LedgerRow, start: nat) {
    && ValidLabel(row.kind) && ValidLabel(row.category) && ValidLabel(row.symbol)
    && row.price >= 0.0
    && start <= row.time * 1000
  }

  ghost predicate Publishable(ordered: seq<LedgerRow>, start: nat) {
    && (forall row :: row in ordered ==> PublishableRow(row, start))
    && (forall date :: |ActivityOn(ordered, date)| <= MAX_ACTIVITIES)
  }

  lemma {:induction false} ActivityElements(rows: seq<LedgerRow>, date: int)
    ensures forall a :: a in ActivityOn(rows, date) ==>
        exists row :: row in rows && DayOfRow(row) == date && a == ActivityOf(row)
    ensures forall row :: row in rows && DayOfRow(row) == date ==> ActivityOf(row) in ActivityOn(rows, date)
  {
    if rows != [] {
      ActivityElements(Init(rows), date);
      var last := Last(rows);
      assert rows == Init(rows) + [last];
      forall a | a in ActivityOn(rows, date)
        ensures exists row :: row in rows && DayOfRow(row) == date && a == ActivityOf(row)
      {
        if a in ActivityOn(Init(rows), date) {
          var row :| row in Init(rows) && DayOfRow(row) == date && a == ActivityOf(row);
          assert row in rows;
        } else {
          assert last in rows && DayOfRow(last) == date && a == ActivityOf(last);
        }
      }
    }
  }

  /** A published record passes its checks exactly when its row was publishable. */
  lemma {:induction false} ActivityIsValid(row: LedgerRow, start: nat, asOf: nat)
    requires ValidRow(row, start / 1000, asOf / 1000)
    ensures DateOf(row.time * 1000) == DayOfRow(row) && row.time * 1000 <= asOf
    ensures ValidActivity(ActivityOf(row), DayOfRow(row), start, asOf) <==> PublishableRow(row, start)
  {
    DateOfMillis(row.time);
    assert asOf / 1000 * 1000 <= asOf;
    assert row.time * 1000 <= asOf / 1000 * 1000;
  }

  lemma {:induction false} DateOfMillis(time: nat)
    ensures (time * 1000) / DAY_US == time / DAY_MS
  {
    var q := time / DAY_MS;
    assert q * DAY_MS <= time < (q + 1) * DAY_MS;
    assert q * DAY_US <= time * 1000 < (q + 1) * DAY_US;
  }

  /** Between two instants the observed balance moves by the rows between them. */
  lemma {:induction false} BalanceMoved(ordered: seq<LedgerRow>, closes: seq<Close>, wallet: real, t0: int, t1: int)
    requires SortedBy(ordered, TimeOf) && Reconciles(ordered, closes, wallet)
    requires BalanceBefore(closes, t0).Some? && BalanceBefore(closes, t1).Some?
    ensures BalanceBefore(closes, t1).value - BalanceBefore(closes, t0).value
         == TotalBefore(ordered, t1) - TotalBefore(ordered, t0)
  {
    BatchesAreGroups(ordered);
    BalancesTelescope(Batches(ordered), FirstOpening(Batches(ordered)), closes, t0);
    BalancesTelescope(Batches(ordered), FirstOpening(Batches(ordered)), closes, t1);
  }

  /** By the end of the capture day the chain has reached the wallet anchor. */
  lemma {:induction false} TodayClosesAtWallet(
    ordered: seq<LedgerRow>, closes: seq<Close>, wallet: real, start: nat, asOf: nat)
    requires SortedBy(ordered, TimeOf) && Reconciles(ordered, closes, wallet) && closes != []
    requires forall row :: row in ordered ==> start / 1000 <= row.time <= asOf / 1000
    ensures BalanceBefore(closes, (DateOf(asOf) + 1) * DAY_MS) == Some(wallet)
  {
    ClosesFollowRows(ordered, closes, wallet, start / 1000, asOf / 1000);
    assert asOf / 1000 < (DateOf(asOf) + 1) * DAY_MS;
    assert closes[|closes| - 1].time <= asOf / 1000;
  }

  /** The published change of every day equals the sum of its published activity. */
  lemma {:induction false} ChangeIsMovement(
    ordered: seq<LedgerRow>, closes: seq<Close>, wallet: real, start: nat, asOf: nat, date: int)
    requires SortedBy(ordered, TimeOf) && Reconciles(ordered, closes, wallet)
    requires forall row :: row in ordered ==> start / 1000 <= row.time <= asOf / 1000
    requires ChangeOn(closes, wallet, DateOf(asOf), date).Some?
    ensures ChangeOn(closes, wallet, DateOf(asOf), date).value == Movement(ActivityOn(ordered, date))
  {
    assert closes != [];
    if date == DateOf(asOf) {
      TodayClosesAtWallet(ordered, closes, wallet, start, asOf);
    }
    BalanceMoved(ordered, closes, wallet, date * DAY_MS, (date + 1) * DAY_MS);
    DayTotal(ordered, date);
  }

  ghost predicate PublishableOn(ordered: seq<LedgerRow>, date: int, start: nat) {
    && |ActivityOn(ordered, date)| <= MAX_ACTIVITIES
    && forall row :: row in ordered && DayOfRow(row) == date ==> PublishableRow(row, start)
  }

  lemma {:induction false} ActivitiesAreValid(ordered: seq<LedgerRow>, start: nat, asOf: nat, date: int)
    requires forall row :: row in ordered ==> ValidRow(row, start / 1000, asOf / 1000)
    requires PublishableOn(ordered, date, start)
    ensures forall a :: a in ActivityOn(ordered, date) ==> ValidActivity(a, date, start, asOf)
  {
    ActivityElements(ordered, date);
    forall a | a in ActivityOn(ordered, date) ensures ValidActivity(a, date, start, asOf) {
      var row :| row in ordered && DayOfRow(row) == date && a == ActivityOf(row);
      ActivityIsValid(row, start, asOf);
    }
  }

  lemma {:induction false} ActivitiesWerePublishable(ordered: seq<LedgerRow>, start: nat, asOf: nat, date: int)
    requires forall row :: row in ordered ==> ValidRow(row, start / 1000, asOf / 1000)
    requires forall a :: a in ActivityOn(ordered, date) ==> ValidActivity(a, date, start, asOf)
    ensures forall row :: row in ordered && DayOfRow(row) == date ==> PublishableRow(row, start)
  {
    ActivityElements(ordered, date);
    forall row | row in ordered && DayOfRow(row) == date ensures PublishableRow(row, start) {
      assert ActivityOf(row) in ActivityOn(ordered, date);
      ActivityIsValid(row, start, asOf);
    }
  }

  /** A produced day passes the per-day checks exactly when its rows are publishable. */
  lemma {:induction false} DayIsValid(
    ordered: seq<LedgerRow>, closes: seq<Close>, wallet: real, start: nat, asOf: nat, date: int)
    requires SortedBy(ordered, TimeOf) && Reconciles(ordered, closes, wallet)
    requires forall row :: row in ordered ==> ValidRow(row, start / 1000, asOf / 1000)
    requires DateOf(start) <= date <= DateOf(asOf)
    ensures ValidDay(DayRecord(ordered, closes, wallet, start, DateOf(asOf), date), start, asOf)
            <==> PublishableOn(ordered, date, start)
  {
    var day := DayRecord(ordered, closes, wallet, start, DateOf(asOf), date);
    if day.change.Some? {
      ChangeIsMovement(ordered, closes, wallet, start, asOf, date);
    }
    if PublishableOn(ordered, date, start) {
      ActivitiesAreValid(ordered, start, asOf, date);
    } else if ValidDay(day, start, asOf) {
      forall a | a in day.activity ensures ValidActivity(a, date, start, asOf) {
        var i :| 0 <= i < |day.activity| && day.activity[i] == a;
        assert ValidActivity(day.activity[i], date, start, asOf);
      }
      ActivitiesWerePublishable(ordered, start, asOf, date);
      assert false;
    }
  }

  /**
   The producer meets the validator: every reconstructed series is valid exactly when its rows
   are publishable, the only obligation the producer leaves to the exchange.
   */
  lemma {:induction false} ProducerMeetsValidator(
    ordered: seq<LedgerRow>, closes: seq<Close>, wallet: real, start: nat, asOf: nat)
    requires ValidInterval(start, asOf)
    requires SortedBy(ordered, TimeOf) && Reconciles(ordered, closes, wallet)
    requires forall row :: row in ordered ==> ValidRow(row, start / 1000, asOf / 1000)
    ensures ValidHistory(SeriesOf(ordered, closes, wallet, start, asOf)) <==> Publishable(ordered, start)
  {
    SeriesSpan(ordered, closes, wallet, start, asOf);
    SeriesDays(ordered, closes, wallet, start, asOf);
    if Publishable(ordered, start) {
      PublishableIsValid(ordered, closes, wallet, start, asOf);
    }
    if ValidHistory(SeriesOf(ordered, closes, wallet, start, asOf)) {
      PublishableDays(ordered, start, asOf);
    }
  }

  lemma {:induction false} SeriesDays(
    ordered: seq<LedgerRow>, closes: seq<Close>, wallet: real, start: nat, asOf: nat)
    requires ValidInterval(start, asOf)
    requires SortedBy(ordered, TimeOf) && Reconciles(ordered, closes, wallet)
    requires forall row :: row in ordered ==> ValidRow(row, start / 1000, asOf / 1000)
    ensures (forall i :: 0 <= i < |SeriesOf(ordered, closes, wallet, start, asOf).days| ==>
               ValidDay(SeriesOf(ordered, closes, wallet, start, asOf).days[i], start, asOf))
            <==> (forall date :: DateOf(start) <= date <= DateOf(asOf) ==> PublishableOn(ordered, date, start))
  {
    var days := SeriesOf(ordered, closes, wallet, start, asOf).days;
    var first := DateOf(start);
    forall i | 0 <= i < |days|
      ensures ValidDay(days[i], start, asOf) <==> PublishableOn(ordered, first + i, start)
    {
      DayIsValid(ordered, closes, wallet, start, asOf, first + i);
    }
    forall date | first <= date <= DateOf(asOf)
      ensures ValidDay(days[date - first], start, asOf) <==> PublishableOn(ordered, date, start)
    {
      assert first + (date - first) == date;
    }
  }

  lemma {:induction false} PublishableIsValid(
    ordered: seq<LedgerRow>, closes: seq<Close>, wallet: real, start: nat, asOf: nat)
    requires ValidInterval(start, asOf)
    requires SortedBy(ordered, TimeOf) && Reconciles(ordered, closes, wallet)
    requires forall row :: row in ordered ==> ValidRow(row, start / 1000, asOf / 1000)
    requires Publishable(ordered, start)
    ensures ValidHistory(SeriesOf(ordered, closes, wallet, start, asOf))
  {
    var h := SeriesOf(ordered, closes, wallet, start, asOf);
    SeriesSpan(ordered, closes, wallet, start, asOf);
    SeriesDays(ordered, closes, wallet, start, asOf);
    SeriesAgrees(ordered, closes, wallet, start, asOf);
  }

  lemma {:induction false} SeriesAgrees(
    ordered: seq<LedgerRow>, closes: seq<Close>, wallet: real, start: nat, asOf: nat)
    requires start <= asOf
    ensures
      var days := SeriesOf(ordered, closes, wallet, start, asOf).days;
      forall i :: 0 < i < |days| ==> Consistent(days[i - 1], days[i])
  {
    var days := SeriesOf(ordered, closes, wallet, start, asOf).days;
    forall i | 0 < i < |days| ensures Consistent(days[i - 1], days[i]) {
      NeighboursAgree(ordered, closes, wallet, start, DateOf(asOf), DateOf(start) + i);
      assert days[i - 1] == DayRecord(ordered, closes, wallet, start, DateOf(asOf), DateOf(start) + i - 1);
    }
  }

  lemma {:induction false} NeighboursAgree(
    ordered: seq<LedgerRow>, closes: seq<Close>, wallet: real, start: nat, today: int, date: int)
    requires date <= today
    ensures Consistent(DayRecord(ordered, closes, wallet, start, today, date - 1),
                       DayRecord(ordered, closes, wallet, start, today, date))
  {
    assert CloseOn(closes, wallet, today, date - 1) == BalanceBefore(closes, date * DAY_MS);
  }

  lemma {:induction false} PublishableDays(ordered: seq<LedgerRow>, start: nat, asOf: nat)
    requires forall row :: row in ordered ==> start / 1000 <= row.time <= asOf / 1000
    requires forall date :: DateOf(start) <= date <= DateOf(asOf) ==> PublishableOn(ordered, date, start)
    ensures Publishable(ordered, start)
  {
    forall row | row in ordered ensures PublishableRow(row, start) {
      RowDay(row, start, asOf);
      assert PublishableOn(ordered, DayOfRow(row), start);
    }
    forall date ensures |ActivityOn(ordered, date)| <= MAX_ACTIVITIES {
      if DateOf(start) <= date <= DateOf(asOf) {
        assert PublishableOn(ordered, date, start);
      } else {
        NoActivityOutside(ordered, start, asOf, date);
      }
    }
  }

  lemma {:induction false} SeriesSpan(ordered: seq<LedgerRow>, closes: seq<Close>, wallet: real, start: nat, asOf: nat)
    requires ValidInterval(start, asOf)
    ensures 1 <= |SeriesOf(ordered, closes, wallet, start, asOf).days| <= 33
    ensures Consecutive(SeriesOf(ordered, closes, wallet, start, asOf))
  {
    var s, t := DateOf(start), DateOf(asOf);
    assert s * DAY_US <= start < (s + 1) * DAY_US;
    assert t * DAY_US <= asOf < (t + 1) * DAY_US;
    assert s <= t <= s + 32;
    var h := SeriesOf(ordered, closes, wallet, start, asOf);
    forall i | 0 <= i < |h.days| ensures h.days[i].date == s + i {
      assert h.days[i] == DayRecord(ordered, closes, wallet, start, t, s + i);
    }
    assert h.start == start && h.asOf == asOf;
    assert Consecutive(h);
  }

  lemma {:induction false} RowDay(row: LedgerRow, start: nat, asOf: nat)
    requires start / 1000 <= row.time <= asOf / 1000
    ensures DateOf(start) <= DayOfRow(row) <= DateOf(asOf)
  {
    assert DateOf(start) == start / 1000 / DAY_MS;
    assert DateOf(asOf) == asOf / 1000 / DAY_MS;
  }

  lemma {:induction false} NoActivityOutside(ordered: seq<LedgerRow>, start: nat, asOf: nat, date: int)
    requires forall row :: row in ordered ==> start / 1000 <= row.time <= asOf / 1000
    requires !(DateOf(start) <= date <= DateOf(asOf))
    ensures ActivityOn(ordered, date) == []
  {
    ActivityElements(ordered, date);
    if ActivityOn(ordered, date) != [] {
      var a := ActivityOn(ordered, date)[0];
      assert a in ActivityOn(ordered, date);
      var row :| row in ordered && DayOfRow(row) == date && a == ActivityOf(row);
      RowDay(row, start, asOf);
      assert false;
    }
  }

  /** A capture that starts at midnight settles every day it can price, so it can be anchored. */
  lemma {:induction false} CapturesAreSettled(
    ordered: seq<LedgerRow>, closes: seq<Close>, wallet: real, start: nat, asOf: nat)
    requires ValidInterval(start, asOf) && start == Midnight(DateOf(start))
    ensures BalanceCache.Settled(SeriesOf(ordered, closes, wallet, start, asOf))
  {
    var h := SeriesOf(ordered, closes, wallet, start, asOf);
    forall i | 0 <= i < |h.days| && h.days[i].date < DateOf(asOf) && h.days[i].balance.Some?
      ensures h.days[i].complete
    {
      assert h.days[i] == DayRecord(ordered, closes, wallet, start, DateOf(asOf), DateOf(start) + i);
      BalanceCache.MidnightOfLater(DateOf(start), DateOf(start) + i);
    }
  }

  /**
   The pipeline: a publishable capture joined to any valid retained series is either refused for
   a contradiction between the two or becomes a valid series; it is never malformed.
   */
  lemma {:induction false} CapturesCanBeAnchored(
    previous: History, ordered: seq<LedgerRow>, closes: seq<Close>, wallet: real, start: nat, asOf: nat)
    requires ValidInterval(start, asOf) && start == Midnight(DateOf(start))
    requires SortedBy(ordered, TimeOf) && Reconciles(ordered, closes, wallet)
    requires forall row :: row in ordered ==> ValidRow(row, start / 1000, asOf / 1000)
    requires Publishable(ordered, start)
    requires ValidHistory(previous) && previous.asOf <= asOf
    ensures
      var current := SeriesOf(ordered, closes, wallet, start, asOf);
      var filled := BalanceCache.FillDays(previous, current, |current.days|);
      filled.Ok? ==> ValidHistory(current.(days := filled.value))
  {
    var current := SeriesOf(ordered, closes, wallet, start, asOf);
    ProducerMeetsValidator(ordered, closes, wallet, start, asOf);
    CapturesAreSettled(ordered, closes, wallet, start, asOf);
    if BalanceCache.FillDays(previous, current, |current.days|).Ok? {
      BalanceCache.AnchoredWindowIsValid(previous, current);
    }
  }
}
