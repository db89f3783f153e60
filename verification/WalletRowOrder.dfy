/**
 The order in which rows are listed: every accepted listing of a ledger gives the same series, and whether a
 listing is accepted depends on its order only through the first row of a cycle in the first millisecond.
 */
module WalletRowOrder {
  import opened Wrappers
  import opened Sequences
  import opened EulerTrails
  import opened Ledger
  import opened BalanceHistory
  import opened DemoBalance
  import opened DailyCloses
  import opened WalletHistory
  import opened WalletOrigin

  // ----- the rows that are kept

  lemma {:induction false} OnceEach(rows: seq<LedgerRow>, row: LedgerRow)
    requires forall i, j :: 0 <= i < j < |rows| ==> rows[i].id != rows[j].id
    ensures multiset(rows)[row] == if row in rows then 1 else 0
  {
    if rows != [] {
      OnceEach(Init(rows), row);
      assert rows == Init(rows) + [Last(rows)];
      forall i | 0 <= i < |Init(rows)| ensures Init(rows)[i] != Last(rows) {
        assert rows[i].id != rows[|rows| - 1].id;
      }
    }
  }

  /** With consistent identities, deduplication keeps every row. */
  lemma {:induction false} EveryRowIsKept(rows: seq<LedgerRow>, row: LedgerRow)
    requires forall a, b :: a in rows && b in rows && a.id == b.id ==> a == b
    ensures row in FirstOccurrences(rows) <==> row in rows
  {
    FirstOccurrencesElements(rows);
    FirstOccurrencesIds(rows, row.id);
    if row in rows {
      assert HasId(rows, row.id);
      var kept :| kept in FirstOccurrences(rows) && kept.id == row.id;
      assert kept in rows;
    }
  }

  lemma {:induction false} KeptRowsPermute(a: seq<LedgerRow>, b: seq<LedgerRow>)
    requires multiset(a) == multiset(b)
    requires forall x, y :: x in a && y in a && x.id == y.id ==> x == y
    ensures multiset(FirstOccurrences(a)) == multiset(FirstOccurrences(b))
  {
    SameElements(a, b);
    FirstOccurrencesElements(a);
    FirstOccurrencesElements(b);
    forall row ensures multiset(FirstOccurrences(a))[row] == multiset(FirstOccurrences(b))[row] {
      EveryRowIsKept(a, row);
      EveryRowIsKept(b, row);
      OnceEach(FirstOccurrences(a), row);
      OnceEach(FirstOccurrences(b), row);
      assert row in a <==> row in b;
    }
  }

  lemma {:induction false} SameElements<T>(a: seq<T>, b: seq<T>)
    requires multiset(a) == multiset(b)
    ensures forall x :: x in a <==> x in b
  {
    forall x ensures x in a <==> x in b {
      assert x in multiset(a) <==> x in multiset(b);
    }
  }

  lemma {:induction false} OrderedPermute(a: seq<LedgerRow>, b: seq<LedgerRow>, firstMs: nat, lastMs: nat)
    requires multiset(a) == multiset(b) && Acceptable(a, firstMs, lastMs)
    ensures Acceptable(b, firstMs, lastMs)
    ensures multiset(Ordered(a)) == multiset(Ordered(b))
  {
    SameElements(a, b);
    KeptRowsPermute(a, b);
    SortPermutes(FirstOccurrences(a), TimeOf);
    SortPermutes(FirstOccurrences(b), TimeOf);
  }

  // ----- the batches

  lemma {:induction false} EarlierRows(batches: seq<Batch>, row: LedgerRow)
    requires WellGrouped(batches) && batches != [] && row in Flatten(batches)
    ensures row.time <= Last(batches).time
    ensures row.time == Last(batches).time ==> row !in Flatten(Init(batches))
  {
    if |batches| > 1 {
      assert Last(Init(batches)).time < Last(batches).time;
      if row in Flatten(Init(batches)) {
        EarlierRows(Init(batches), row);
      }
    } else {
      assert Flatten(Init(batches)) == [];
    }
    if row in Last(batches).rows {
      var j :| 0 <= j < |Last(batches).rows| && Last(batches).rows[j] == row;
    }
  }

  /** The last batch holds exactly the rows of the latest time, as often as they occur. */
  lemma {:induction false} LastBatchCounts(batches: seq<Batch>, row: LedgerRow)
    requires WellGrouped(batches) && batches != []
    ensures multiset(Last(batches).rows)[row]
         == if row.time == Last(batches).time then multiset(Flatten(batches))[row] else 0
  {
    var rows := Last(batches).rows;
    assert multiset(Flatten(batches)) == multiset(Flatten(Init(batches))) + multiset(rows);
    if row.time == Last(batches).time && row in Flatten(batches) {
      EarlierRows(batches, row);
    }
    assert forall j :: 0 <= j < |rows| ==> rows[j].time == Last(batches).time;
  }

  lemma {:induction false} LatestTime(a: seq<Batch>, b: seq<Batch>)
    requires WellGrouped(a) && WellGrouped(b) && a != [] && b != [] && multiset(Flatten(a)) == multiset(Flatten(b))
    ensures Last(a).time <= Last(b).time
  {
    var row := Last(a).rows[0];
    assert row.time == Last(a).time;
    SameElements(Flatten(a), Flatten(b));
    assert row in Flatten(a);
    EarlierRows(b, row);
  }

  /** Grouping the same rows by time gives the same batches, up to the order inside them. */
  lemma {:induction false} GroupsPermute(a: seq<Batch>, b: seq<Batch>)
    requires WellGrouped(a) && WellGrouped(b) && multiset(Flatten(a)) == multiset(Flatten(b))
    ensures SameBatches(a, b)
    decreases |a|
  {
    if a == [] || b == [] {
      NoRowsNoBatches(a);
      NoRowsNoBatches(b);
      assert |multiset(Flatten(a))| == |multiset(Flatten(b))|;
    } else {
      LatestTime(a, b);
      LatestTime(b, a);
      forall row ensures multiset(Last(a).rows)[row] == multiset(Last(b).rows)[row] {
        LastBatchCounts(a, row);
        LastBatchCounts(b, row);
      }
      assert multiset(Last(a).rows) == multiset(Last(b).rows);
      Remainder(Flatten(a), Flatten(Init(a)), Last(a).rows, Flatten(b), Flatten(Init(b)), Last(b).rows);
      GroupsPermute(Init(a), Init(b));
      forall k | 0 <= k < |a| ensures a[k].time == b[k].time && multiset(a[k].rows) == multiset(b[k].rows) {
        if k < |a| - 1 {
          assert Init(a)[k] == a[k] && Init(b)[k] == b[k];
        }
      }
    }
  }

  lemma {:induction false} NoRowsNoBatches(batches: seq<Batch>)
    requires WellGrouped(batches)
    ensures Flatten(batches) == [] <==> batches == []
  {
    if batches != [] {
      assert Last(batches).rows != [];
    }
  }

  lemma {:induction false} Remainder(
    a: seq<LedgerRow>, a0: seq<LedgerRow>, a1: seq<LedgerRow>, b: seq<LedgerRow>, b0: seq<LedgerRow>,
    b1: seq<LedgerRow>)
    requires a == a0 + a1 && b == b0 + b1 && multiset(a) == multiset(b) && multiset(a1) == multiset(b1)
    ensures multiset(a0) == multiset(b0)
  {
    assert multiset(a) == multiset(a0) + multiset(a1) && multiset(b) == multiset(b0) + multiset(b1);
    assert multiset(a0) == multiset(a) - multiset(a1) && multiset(b0) == multiset(b) - multiset(b1);
  }

  // ----- the chain

  lemma {:induction false} SameLinks(a: seq<LedgerRow>, b: seq<LedgerRow>, opening: Option<real>, close: real)
    requires multiset(a) == multiset(b) && Linked(a, opening, close)
    ensures Linked(b, opening, close)
  {
    EdgesOfPermutation(a, b);
    var p :| IsTrail(p, EdgesOf(a), opening) && Last(p) == close;
    assert IsTrail(p, EdgesOf(b), opening);
  }

  lemma {:induction false} SameCycles(a: seq<LedgerRow>, b: seq<LedgerRow>)
    requires multiset(a) == multiset(b)
    ensures IsClosed(a) <==> IsClosed(b)
  {
    EdgesOfPermutation(a, b);
    forall x ensures Excess(EdgesOf(a), x) == Excess(EdgesOf(b), x) {
      DegreesOfMultiset(EdgesOf(a), EdgesOf(b), x);
    }
  }

  /** A chain of one listing is a chain of every listing. */
  lemma {:induction false} SameChains(a: seq<Batch>, b: seq<Batch>, opening: Option<real>, closes: seq<Close>)
    requires SameBatches(a, b) && Chained(a, opening, closes)
    ensures Chained(b, opening, closes)
    decreases |a|
  {
    if a != [] {
      SameChains(Init(a), Init(b), opening, Init(closes));
      SameLinks(Last(a).rows, Last(b).rows, OpeningAfter(opening, Init(closes)), Last(closes).balance);
    }
  }

  lemma {:induction false} SameTotals(a: seq<LedgerRow>, b: seq<LedgerRow>)
    requires multiset(a) == multiset(b)
    ensures TotalChange(a) == TotalChange(b)
  {
    EdgesOfPermutation(a, b);
    TotalOfEdgesPermutation(EdgesOf(a), EdgesOf(b));
    TotalOfEdgesOf(a);
    TotalOfEdgesOf(b);
  }

  lemma {:induction false} SameBatchesOf(a: seq<LedgerRow>, b: seq<LedgerRow>)
    requires SortedBy(a, TimeOf) && SortedBy(b, TimeOf) && multiset(a) == multiset(b)
    ensures SameBatches(Batches(a), Batches(b)) && (a == [] <==> b == [])
  {
    BatchesAreGroups(a);
    BatchesAreGroups(b);
    GroupsPermute(Batches(a), Batches(b));
    assert |multiset(a)| == |multiset(b)|;
  }

  lemma {:induction false} SameReach(a: seq<LedgerRow>, b: seq<LedgerRow>, wallet: real)
    requires SameBatches(Batches(a), Batches(b)) && ChainsUp(a, wallet)
    ensures ChainsUp(b, wallet)
  {
    var closes :| Chained(Batches(a), None, closes) && (closes != [] ==> Last(closes).balance == wallet);
    SameChains(Batches(a), Batches(b), None, closes);
  }

  lemma {:induction false} SameStart(a: seq<LedgerRow>, b: seq<LedgerRow>)
    requires SameBatches(Batches(a), Batches(b)) && (a == [] <==> b == [])
    ensures StartsWithCycle(a) <==> StartsWithCycle(b)
  {
    if Batches(a) != [] {
      SameCycles(Batches(a)[0].rows, Batches(b)[0].rows);
    }
  }

  /** Two listings of the same rows, sorted: the same batches, chains, cycles and totals. */
  lemma {:induction false} SameLedger(a: seq<LedgerRow>, b: seq<LedgerRow>, wallet: real)
    requires SortedBy(a, TimeOf) && SortedBy(b, TimeOf) && multiset(a) == multiset(b)
    ensures SameBatches(Batches(a), Batches(b)) && TotalChange(a) == TotalChange(b)
    ensures ChainsUp(a, wallet) ==> ChainsUp(b, wallet)
    ensures StartsWithCycle(a) <==> StartsWithCycle(b)
  {
    SameBatchesOf(a, b);
    SameTotals(a, b);
    SameStart(a, b);
    if ChainsUp(a, wallet) {
      SameReach(a, b, wallet);
    }
  }

  /** The opening an accepted chain is taken to have. */
  lemma {:induction false} AcceptedOpening(batches: seq<Batch>, closes: seq<Close>, wallet: real)
    requires WellGrouped(batches) && batches != [] && Chained(batches, FirstOpening(batches), closes)
    requires Last(closes).balance == wallet
    ensures FirstOpening(batches)
         == if IsClosed(batches[0].rows) then Some(wallet - TotalChange(Flatten(batches))) else None
  {
    TakenOpeningIsOrigin(batches, closes);
  }

  /** Two accepted chains of the same batches have the same closes. */
  lemma {:induction false} AcceptedChainsAgree(a: seq<Batch>, b: seq<Batch>, x: seq<Close>, y: seq<Close>, wallet: real)
    requires WellGrouped(a) && WellGrouped(b) && a != [] && SameBatches(a, b)
    requires TotalChange(Flatten(a)) == TotalChange(Flatten(b))
    requires Chained(a, FirstOpening(a), x) && Chained(b, FirstOpening(b), y)
    requires Last(x).balance == wallet && Last(y).balance == wallet
    ensures x == y
  {
    AcceptedOpening(a, x, wallet);
    AcceptedOpening(b, y, wallet);
    SameCycles(a[0].rows, b[0].rows);
    ChainIsDetermined(a, b, FirstOpening(a), x, y);
  }

  /** Two accepted listings of the same rows have the same closes. */
  lemma {:induction false} AcceptedClosesAgree(
    a: seq<LedgerRow>, b: seq<LedgerRow>, x: seq<Close>, y: seq<Close>, wallet: real)
    requires SortedBy(a, TimeOf) && SortedBy(b, TimeOf) && multiset(a) == multiset(b)
    requires Reconciles(a, x, wallet) && Reconciles(b, y, wallet)
    ensures x == y
  {
    SameBatchesOf(a, b);
    SameTotals(a, b);
    BatchesAreGroups(a);
    BatchesAreGroups(b);
    if Batches(a) != [] {
      AcceptedChainsAgree(Batches(a), Batches(b), x, y, wallet);
    }
  }

  // ----- the published activity

  lemma {:induction false} ActivityConcat(a: seq<LedgerRow>, b: seq<LedgerRow>, date: int)
    ensures ActivityOn(a + b, date) == ActivityOn(a, date) + ActivityOn(b, date)
    decreases |b|
  {
    if b == [] {
      assert a + b == a;
    } else {
      assert Init(a + b) == a + Init(b) && Last(a + b) == Last(b);
      ActivityConcat(a, Init(b), date);
    }
  }

  /** The records of a day, in whatever order. */
  ghost function RecordsOn(rows: seq<LedgerRow>, date: int): multiset<Activity> {
    multiset(ActivityOn(rows, date))
  }

  /** Wherever a row is listed, it adds its own record. */
  lemma {:induction false} ActivityInserted(
    rows: seq<LedgerRow>, before: seq<LedgerRow>, row: LedgerRow, after: seq<LedgerRow>, rest: seq<LedgerRow>,
    date: int)
    requires rows == before + ([row] + after) && rest == before + after
    ensures RecordsOn(rows, date) == RecordsOn([row], date) + RecordsOn(rest, date)
  {
    ActivityConcat(before, [row] + after, date);
    ActivityConcat([row], after, date);
    ActivityConcat(before, after, date);
  }

  lemma {:induction false} SameHead(a: seq<LedgerRow>, b: seq<LedgerRow>, i: nat, date: int)
    requires a != [] && i < |b| && b[i] == a[0]
    requires RecordsOn(a[1..], date) == RecordsOn(b[..i] + b[i + 1..], date)
    ensures RecordsOn(a, date) == RecordsOn(b, date)
  {
    assert a == [] + ([a[0]] + a[1..]) && a[1..] == [] + a[1..];
    assert b == b[..i] + ([b[i]] + b[i + 1..]);
    ActivityInserted(a, [], a[0], a[1..], a[1..], date);
    ActivityInserted(b, b[..i], b[i], b[i + 1..], b[..i] + b[i + 1..], date);
  }

  lemma {:induction false} ActivityPermutes(a: seq<LedgerRow>, b: seq<LedgerRow>, date: int)
    requires multiset(a) == multiset(b)
    ensures RecordsOn(a, date) == RecordsOn(b, date)
    decreases |a|
  {
    if a == [] {
      assert |multiset(a)| == |multiset(b)|;
      assert b == [];
    } else {
      var i := MatchHead(a, b);
      ActivityPermutes(a[1..], b[..i] + b[i + 1..], date);
      SameHead(a, b, i, date);
    }
  }

  /** The same days, with the same records of each, in whatever order. */
  ghost predicate SameSeries(a: History, b: History) {
    && a.start == b.start && a.asOf == b.asOf && |a.days| == |b.days|
    && forall i :: 0 <= i < |a.days| ==> SameDay(a.days[i], b.days[i])
  }

  ghost predicate SameDay(a: Day, b: Day) {
    && a.date == b.date && a.balance == b.balance && a.change == b.change && a.complete == b.complete
    && multiset(a.activity) == multiset(b.activity)
  }

  // ----- the whole reconstruction

  /**
   Whatever the order of the rows: two listings that are both accepted give the same series, cycles in the
   first millisecond included.
   */
  lemma {:induction false} AcceptedSeriesAgree(
    a: seq<LedgerRow>, b: seq<LedgerRow>, x: seq<Close>, y: seq<Close>, start: nat, asOf: nat, wallet: real)
    requires multiset(a) == multiset(b)
    requires ValidInterval(start, asOf) && Acceptable(a, start / 1000, asOf / 1000)
    requires Reconciles(Ordered(a), x, wallet) && Reconciles(Ordered(b), y, wallet)
    ensures SameSeries(SeriesOf(Ordered(a), x, wallet, start, asOf), SeriesOf(Ordered(b), y, wallet, start, asOf))
  {
    OrderedPermute(a, b, start / 1000, asOf / 1000);
    OrderedRows(a, start / 1000, asOf / 1000);
    OrderedRows(b, start / 1000, asOf / 1000);
    AcceptedClosesAgree(Ordered(a), Ordered(b), x, y, wallet);
    SameCloses(Ordered(a), Ordered(b), x, start, asOf, wallet);
  }

  /** With the same closes, the days differ at most in the order of their records. */
  lemma {:induction false} SameCloses(
    a: seq<LedgerRow>, b: seq<LedgerRow>, closes: seq<Close>, start: nat, asOf: nat, wallet: real)
    requires multiset(a) == multiset(b) && start <= asOf
    ensures SameSeries(SeriesOf(a, closes, wallet, start, asOf), SeriesOf(b, closes, wallet, start, asOf))
  {
    var s, t := SeriesOf(a, closes, wallet, start, asOf), SeriesOf(b, closes, wallet, start, asOf);
    forall i | 0 <= i < |s.days| ensures SameDay(s.days[i], t.days[i]) {
      SameRecord(a, b, closes, wallet, start, DateOf(asOf), DateOf(start) + i);
      assert s.days[i] == DayRecord(a, closes, wallet, start, DateOf(asOf), DateOf(start) + i);
      assert t.days[i] == DayRecord(b, closes, wallet, start, DateOf(asOf), DateOf(start) + i);
    }
  }

  lemma {:induction false} SameRecord(
    a: seq<LedgerRow>, b: seq<LedgerRow>, closes: seq<Close>, wallet: real, start: nat, today: int, date: int)
    requires multiset(a) == multiset(b)
    ensures SameDay(DayRecord(a, closes, wallet, start, today, date), DayRecord(b, closes, wallet, start, today, date))
  {
    ActivityPermutes(a, b, date);
  }

  lemma {:induction false} AcceptedEitherWay(a: seq<LedgerRow>, b: seq<LedgerRow>, start: nat, asOf: nat, wallet: real)
    requires multiset(a) == multiset(b) && Reconstructible(a, start, asOf, wallet)
    requires StartsWithCycle(Ordered(b)) ==> ListedFromOrigin(Ordered(b), wallet)
    ensures Reconstructible(b, start, asOf, wallet)
  {
    AcceptedExactlyWhen(a, start, asOf, wallet);
    AcceptedExactlyWhen(b, start, asOf, wallet);
    OrderedPermute(a, b, start / 1000, asOf / 1000);
    OrderedRows(a, start / 1000, asOf / 1000);
    OrderedRows(b, start / 1000, asOf / 1000);
    SameLedger(Ordered(a), Ordered(b), wallet);
  }

  /**
   Acceptance depends on the order of the rows only through the first one: another listing of an accepted ledger
   is accepted exactly when its first millisecond is no cycle, or is listed from the origin.
   */
  lemma {:induction false} OrderMattersOnlyForCycles(
    a: seq<LedgerRow>, b: seq<LedgerRow>, start: nat, asOf: nat, wallet: real)
    requires multiset(a) == multiset(b) && Reconstructible(a, start, asOf, wallet)
    ensures Reconstructible(b, start, asOf, wallet)
            <==> (StartsWithCycle(Ordered(a)) ==> ListedFromOrigin(Ordered(b), wallet))
  {
    AcceptedExactlyWhen(b, start, asOf, wallet);
    OrderedPermute(a, b, start / 1000, asOf / 1000);
    OrderedRows(a, start / 1000, asOf / 1000);
    OrderedRows(b, start / 1000, asOf / 1000);
    SameLedger(Ordered(a), Ordered(b), wallet);
    if StartsWithCycle(Ordered(a)) ==> ListedFromOrigin(Ordered(b), wallet) {
      AcceptedEitherWay(a, b, start, asOf, wallet);
    }
  }
}
