/**
 Daily wallet closes rebuilt from a complete, cash-balanced ledger window.
 Every millisecond's rows are ordered by their cash edges, the batches must chain up to the
 wallet anchor, and the chain is cut into days.
 */
module DemoBalance {
  import opened Wrappers
  import opened Sequences
  import opened EulerTrails
  import opened Ledger
  import opened CashOrdering
  import opened BalanceHistory

  const DAY_MS: int := 86_400_000
  const MAX_WINDOW_US: int := 32 * DAY_US

  datatype LedgerError =
    | InvalidInterval
    | InvalidRow
    | BrokenChain(cause: CashError)
    | AnchorMismatch

  /** The rows of one millisecond. */
  datatype Batch = Batch(time: nat, rows: seq<LedgerRow>)

  /** The balance after the last row of one millisecond. */
  datatype Close = Close(time: nat, balance: real)

  // ----- row validation and deduplication

  predicate ValidRow(row: LedgerRow, firstMs: nat, lastMs: nat) {
    && row.currency == "USDT"
    && firstMs <= row.time <= lastMs
    && row.change == row.cashFlow + row.funding - row.fee
    && |row.kind| <= 80 && |row.category| <= 80 && |row.symbol| <= 80 && |row.side| <= 80
    && ValidSide(row.side)
  }

  predicate HasId(rows: seq<LedgerRow>, id: string) {
    exists row :: row in rows && row.id == id
  }

  /** The rows without repeated identities, in order of first appearance. */
  function FirstOccurrences(rows: seq<LedgerRow>): seq<LedgerRow> {
    if rows == [] then []
    else
      var earlier := FirstOccurrences(rows[..|rows| - 1]);
      if HasId(earlier, Last(rows).id) then earlier else earlier + [Last(rows)]
  }

  predicate AcceptableRow(row: LedgerRow, firstMs: nat, lastMs: nat) {
    row.id != "" && ValidRow(row, firstMs, lastMs)
  }

  ghost predicate Acceptable(rows: seq<LedgerRow>, firstMs: nat, lastMs: nat) {
    && (forall row :: row in rows ==> AcceptableRow(row, firstMs, lastMs))
    && (forall a, b :: a in rows && b in rows && a.id == b.id ==> a == b)
  }

  function TimeOf(row: LedgerRow): int {
    row.time
  }

  /** Reading one more row: it must be valid and must not contradict a row with its identity. */
  lemma {:induction false} AcceptableSnoc(rows: seq<LedgerRow>, row: LedgerRow, firstMs: nat, lastMs: nat)
    ensures Acceptable(rows + [row], firstMs, lastMs) <==>
            && Acceptable(rows, firstMs, lastMs)
            && AcceptableRow(row, firstMs, lastMs)
            && (forall a :: a in rows && a.id == row.id ==> a == row)
  {
    var all := rows + [row];
    assert forall a :: a in all <==> a in rows || a == row;
    assert row in all;
  }

  lemma {:induction false} AcceptablePrefix(rows: seq<LedgerRow>, i: nat, firstMs: nat, lastMs: nat)
    requires i <= |rows|
    ensures Acceptable(rows, firstMs, lastMs) ==> Acceptable(rows[..i], firstMs, lastMs)
  {
    assert forall a :: a in rows[..i] ==> a in rows;
  }

  /** The dictionary of rows already read, by identity. */
  ghost predicate Indexes(unique: map<string, LedgerRow>, rows: seq<LedgerRow>) {
    && (forall row :: row in rows ==> row.id in unique && unique[row.id] == row)
    && (forall id :: id in unique ==> unique[id] in rows && unique[id].id == id)
  }

  lemma {:induction false} IndexesSnoc(unique: map<string, LedgerRow>, rows: seq<LedgerRow>, row: LedgerRow)
    requires Indexes(unique, rows)
    requires row.id in unique ==> unique[row.id] == row
    ensures Indexes(unique[row.id := row], rows + [row])
  {
    var all := rows + [row];
    assert forall a :: a in all <==> a in rows || a == row;
  }

  method ValidatedRows(rows: seq<LedgerRow>, firstMs: nat, lastMs: nat) returns (r: Result<seq<LedgerRow>, LedgerError>)
    ensures r.Ok? <==> Acceptable(rows, firstMs, lastMs)
    ensures r.Ok? ==> r.value == StableSort(FirstOccurrences(rows), TimeOf)
  {
    var unique: map<string, LedgerRow> := map[];
    var kept := [];
    var i := 0;
    while i < |rows|
      invariant 0 <= i <= |rows|
      invariant Acceptable(rows[..i], firstMs, lastMs)
      invariant kept == FirstOccurrences(rows[..i])
      invariant Indexes(unique, rows[..i])
    {
      var row := rows[i];
      assert rows[..i + 1] == rows[..i] + [row];
      AcceptableSnoc(rows[..i], row, firstMs, lastMs);
      FirstOccurrencesIds(rows[..i], row.id);
      if row.id == "" || (row.id in unique && unique[row.id] != row) || !ValidRow(row, firstMs, lastMs) {
        AcceptablePrefix(rows, i + 1, firstMs, lastMs);
        return Err(InvalidRow);
      }
      IndexesSnoc(unique, rows[..i], row);
      if row.id !in unique {
        kept := kept + [row];
      }
      unique := unique[row.id := row];
      i := i + 1;
    }
    assert rows[..i] == rows;
    return Ok(StableSort(kept, TimeOf));
  }

  /** Dropping repetitions loses no identity. */
  lemma {:induction false} FirstOccurrencesIds(rows: seq<LedgerRow>, id: string)
    ensures HasId(FirstOccurrences(rows), id) <==> HasId(rows, id)
  {
    if rows != [] {
      var before := rows[..|rows| - 1];
      FirstOccurrencesIds(before, id);
      HasIdSnoc(before, Last(rows), id);
      assert rows == before + [Last(rows)];
      HasIdSnoc(FirstOccurrences(before), Last(rows), id);
    }
  }

  lemma {:induction false} HasIdSnoc(rows: seq<LedgerRow>, row: LedgerRow, id: string)
    ensures HasId(rows + [row], id) <==> HasId(rows, id) || row.id == id
  {
    var all := rows + [row];
    assert forall a :: a in all <==> a in rows || a == row;
    if HasId(rows, id) {
      var a :| a in rows && a.id == id;
      assert a in all;
    }
    assert row in all;
  }

  /** What is kept are rows of the input, and no identity is kept twice. */
  lemma {:induction false} FirstOccurrencesElements(rows: seq<LedgerRow>)
    ensures forall row :: row in FirstOccurrences(rows) ==> row in rows
    ensures forall i, j :: 0 <= i < j < |FirstOccurrences(rows)| ==>
        FirstOccurrences(rows)[i].id != FirstOccurrences(rows)[j].id
  {
    if rows != [] {
      var before := rows[..|rows| - 1];
      FirstOccurrencesElements(before);
      var kept := FirstOccurrences(before);
      if !HasId(kept, Last(rows).id) {
        forall i | 0 <= i < |kept| ensures kept[i].id != Last(rows).id {
          assert kept[i] in kept;
        }
      }
    }
  }

  // ----- grouping by millisecond

  /** `itertools.groupby` over rows that are sorted by time. */
  function Batches(rows: seq<LedgerRow>): seq<Batch> {
    if rows == [] then [] else Grown(Batches(Init(rows)), Last(rows))
  }

  /** One more row joins the last group if it has the same time, and starts a group otherwise. */
  function Grown(batches: seq<Batch>, row: LedgerRow): seq<Batch> {
    if batches != [] && Last(batches).time == row.time
    then Init(batches) + [Batch(row.time, Last(batches).rows + [row])]
    else batches + [Batch(row.time, [row])]
  }

  function Flatten(batches: seq<Batch>): seq<LedgerRow> {
    if batches == [] then [] else Flatten(Init(batches)) + Last(batches).rows
  }

  ghost predicate WellGrouped(batches: seq<Batch>) {
    && (forall k :: 0 <= k < |batches| ==> batches[k].rows != [])
    && (forall k, j :: 0 <= k < |batches| && 0 <= j < |batches[k].rows| ==> batches[k].rows[j].time == batches[k].time)
    && (forall j, k :: 0 <= j < k < |batches| ==> batches[j].time < batches[k].time)
  }

  ghost predicate GroupsOf(batches: seq<Batch>, rows: seq<LedgerRow>) {
    && WellGrouped(batches)
    && Flatten(batches) == rows
    && (rows != [] ==> batches != [] && Last(batches).time == Last(rows).time)
    && (rows == [] ==> batches == [])
  }

  lemma {:induction false} BatchesAreGroups(rows: seq<LedgerRow>)
    requires SortedBy(rows, TimeOf)
    ensures GroupsOf(Batches(rows), rows)
  {
    if rows != [] {
      SortedInit(rows);
      BatchesAreGroups(Init(rows));
      GroupGrows(Batches(Init(rows)), Init(rows), Last(rows));
      assert rows == Init(rows) + [Last(rows)];
    }
  }

  lemma {:induction false} SortedInit(rows: seq<LedgerRow>)
    requires rows != [] && SortedBy(rows, TimeOf)
    ensures SortedBy(Init(rows), TimeOf)
    ensures Init(rows) != [] ==> Last(Init(rows)).time <= Last(rows).time
  {
    if Init(rows) != [] {
      assert TimeOf(rows[|rows| - 2]) <= TimeOf(rows[|rows| - 1]);
    }
  }

  lemma {:induction false} GroupGrows(batches: seq<Batch>, rows: seq<LedgerRow>, row: LedgerRow)
    requires GroupsOf(batches, rows)
    requires rows != [] ==> Last(rows).time <= row.time
    ensures GroupsOf(Grown(batches, row), rows + [row])
  {
    if batches != [] && Last(batches).time == row.time {
      FlattenSnoc(Init(batches), Batch(row.time, Last(batches).rows + [row]));
      assert Flatten(Grown(batches, row)) == rows + [row];
    } else {
      FlattenSnoc(batches, Batch(row.time, [row]));
    }
    GrownIsWellGrouped(batches, row);
  }

  lemma {:induction false} GrownIsWellGrouped(batches: seq<Batch>, row: LedgerRow)
    requires WellGrouped(batches)
    requires batches != [] ==> Last(batches).time <= row.time
    ensures WellGrouped(Grown(batches, row))
  {
    var grown := Grown(batches, row);
    forall k | 0 <= k < |grown|
      ensures grown[k].rows != []
      ensures forall j :: 0 <= j < |grown[k].rows| ==> grown[k].rows[j].time == grown[k].time
    {
      if k < |batches| - 1 {
        assert grown[k] == batches[k];
      }
    }
    forall j, k | 0 <= j < k < |grown| ensures grown[j].time < grown[k].time {
      if k < |batches| {
        assert batches[j].time < batches[k].time;
      } else {
        assert batches[j].time <= Last(batches).time;
      }
    }
  }

  lemma {:induction false} FlattenSnoc(batches: seq<Batch>, batch: Batch)
    ensures Flatten(batches + [batch]) == Flatten(batches) + batch.rows
  {
    InitSnoc(batches, batch);
  }

  method GroupByTime(rows: seq<LedgerRow>) returns (batches: seq<Batch>)
    ensures batches == Batches(rows)
  {
    batches := [];
    var i := 0;
    while i < |rows|
      invariant 0 <= i <= |rows|
      invariant batches == Batches(rows[..i])
    {
      assert Init(rows[..i + 1]) == rows[..i];
      if batches != [] && Last(batches).time == rows[i].time {
        batches := batches[..|batches| - 1] + [Batch(rows[i].time, Last(batches).rows + [rows[i]])];
      } else {
        batches := batches + [Batch(rows[i].time, [rows[i]])];
      }
      i := i + 1;
    }
    assert rows[..i] == rows;
  }

  // ----- the cash chain across milliseconds

  /** Some ordering of the rows leads from the opening balance to `close`. */
  ghost predicate Linked(rows: seq<LedgerRow>, opening: Option<real>, close: real) {
    exists p :: IsTrail(p, EdgesOf(rows), opening) && Last(p) == close
  }

  ghost predicate IsClosed(rows: seq<LedgerRow>) {
    forall x :: Excess(EdgesOf(rows), x) == 0
  }

  /** The balance a first batch is taken to open at: a closed cycle opens at its first listed row. */
  ghost function FirstOpening(batches: seq<Batch>): Option<real> {
    if batches != [] && batches[0].rows != [] && IsClosed(batches[0].rows)
    then Some(EdgeOf(batches[0].rows[0]).0)
    else None
  }

  /** The balance the next batch must open at. */
  function OpeningAfter(opening: Option<real>, closes: seq<Close>): Option<real> {
    if closes == [] then opening else Some(Last(closes).balance)
  }

  /** Each batch starts at the balance the previous batch ended at. */
  ghost predicate Chained(batches: seq<Batch>, opening: Option<real>, closes: seq<Close>) {
    && |closes| == |batches|
    && (batches != [] ==>
          && Chained(Init(batches), opening, Init(closes))
          && Last(closes).time == Last(batches).time
          && Linked(Last(batches).rows, OpeningAfter(opening, Init(closes)), Last(closes).balance))
  }

  lemma {:induction false} ClosedTrail(p: seq<real>, rows: seq<LedgerRow>)
    requires IsTrail(p, EdgesOf(rows), None)
    ensures IsClosed(rows) <==> p[0] == Last(p)
  {
    var es := EdgesOf(rows);
    TrailIsBalanced(p, es, None);
    assert Excess(es, p[0]) == Delta(p[0], p[0]) - Delta(p[0], Last(p));
    if p[0] == Last(p) {
      forall x ensures Excess(es, x) == 0 {
        assert Excess(es, x) == Delta(x, p[0]) - Delta(x, Last(p));
      }
    }
  }

  /** The close of a batch is determined by its rows as a bag and by its opening. */
  lemma {:induction false} CloseIsDetermined(
    a: seq<LedgerRow>, b: seq<LedgerRow>, opening: Option<real>, x: real, y: real)
    requires multiset(a) == multiset(b)
    requires Linked(a, opening, x) && Linked(b, opening, y)
    requires opening.Some? || !IsClosed(a)
    ensures x == y
  {
    var p :| IsTrail(p, EdgesOf(a), opening) && Last(p) == x;
    var q :| IsTrail(q, EdgesOf(b), opening) && Last(q) == y;
    EdgesOfPermutation(a, b);
    if opening.Some? {
      ClosingBalanceIsDetermined(p, EdgesOf(a), q, EdgesOf(b));
    } else {
      ClosedTrail(p, a);
      OpenTrailStartIsDetermined(p, EdgesOf(a), q, EdgesOf(b));
    }
  }

  ghost predicate SameBatches(a: seq<Batch>, b: seq<Batch>) {
    && |a| == |b|
    && forall k :: 0 <= k < |a| ==> a[k].time == b[k].time && multiset(a[k].rows) == multiset(b[k].rows)
  }

  /** Every balance of the chain is the same however the rows of each millisecond are listed. */
  lemma {:induction false} ChainIsDetermined(
    a: seq<Batch>, b: seq<Batch>, opening: Option<real>, x: seq<Close>, y: seq<Close>)
    requires SameBatches(a, b)
    requires Chained(a, opening, x) && Chained(b, opening, y)
    requires opening.Some? || a == [] || !IsClosed(a[0].rows)
    ensures x == y
    decreases |a|
  {
    if a != [] {
      ChainIsDetermined(Init(a), Init(b), opening, Init(x), Init(y));
      if |a| == 1 {
        assert Last(a) == a[0];
      }
      CloseIsDetermined(Last(a).rows, Last(b).rows, OpeningAfter(opening, Init(x)), Last(x).balance, Last(y).balance);
      assert x == Init(x) + [Last(x)] && y == Init(y) + [Last(y)];
    }
  }

  lemma {:induction false} ChainPrefix(batches: seq<Batch>, opening: Option<real>, closes: seq<Close>, n: nat)
    requires Chained(batches, opening, closes) && n <= |batches|
    ensures Chained(batches[..n], opening, closes[..n])
    decreases |batches|
  {
    if n == |batches| {
      assert batches[..n] == batches && closes[..n] == closes;
    } else {
      ChainPrefix(Init(batches), opening, Init(closes), n);
      assert batches[..n] == Init(batches)[..n] && closes[..n] == Init(closes)[..n];
    }
  }

  lemma {:induction false} ChainSnoc(
    batches: seq<Batch>, opening: Option<real>, closes: seq<Close>, batch: Batch, close: real)
    requires Chained(batches, opening, closes)
    requires Linked(batch.rows, OpeningAfter(opening, closes), close)
    ensures Chained(batches + [batch], opening, closes + [Close(batch.time, close)])
  {
    InitSnoc(batches, batch);
    InitSnoc(closes, Close(batch.time, close));
  }

  /** The batch loop: it succeeds exactly when the batches chain up from the first opening. */
  method ChainBatches(batches: seq<Batch>) returns (r: Result<seq<Close>, LedgerError>)
    requires forall k :: 0 <= k < |batches| ==> batches[k].rows != []
    ensures r.Ok? ==> Chained(batches, FirstOpening(batches), r.value)
    ensures r.Err? ==> forall closes :: !Chained(batches, FirstOpening(batches), closes)
  {
    var closes: seq<Close> := [];
    var previous: Option<real> := None;
    ghost var opening := FirstOpening(batches);
    var k := 0;
    while k < |batches|
      invariant 0 <= k <= |batches| && k == |closes|
      invariant Chained(batches[..k], opening, closes)
      invariant previous == OpeningAfter(None, closes)
    {
      assert batches[..k + 1] == batches[..k] + [batches[k]];
      var path := CashPath(batches[k].rows, previous);
      if path.Err? {
        ChainStops(batches, opening, closes, k, previous);
        return Err(BrokenChain(path.error));
      }
      if k == 0 { FirstPath(path.value, batches); }
      assert IsTrail(path.value, EdgesOf(batches[k].rows), OpeningAfter(opening, closes));
      ChainSnoc(batches[..k], opening, closes, batches[k], Last(path.value));
      previous := Some(Last(path.value));
      closes := closes + [Close(batches[k].time, Last(path.value))];
      k := k + 1;
    }
    assert batches[..k] == batches;
    return Ok(closes);
  }

  lemma {:induction false} FirstPath(p: seq<real>, batches: seq<Batch>)
    requires batches != [] && batches[0].rows != []
    requires IsTrail(p, EdgesOf(batches[0].rows), None)
    requires p[0] == Last(p) ==> p[0] == EdgeOf(batches[0].rows[0]).0
    ensures IsTrail(p, EdgesOf(batches[0].rows), FirstOpening(batches))
  {
    ClosedTrail(p, batches[0].rows);
  }

  /** Where the search fails, no chain exists: the balances up to there are forced. */
  lemma {:induction false} ChainStops(
    batches: seq<Batch>, opening: Option<real>, closes: seq<Close>, k: nat, previous: Option<real>)
    requires k < |batches| && k == |closes| && batches[0].rows != []
    requires opening == FirstOpening(batches)
    requires Chained(batches[..k], opening, closes)
    requires previous == OpeningAfter(None, closes)
    requires !HasTrail(EdgesOf(batches[k].rows), previous)
    ensures forall other :: !Chained(batches, opening, other)
  {
    forall other: seq<Close> ensures !Chained(batches, opening, other) {
      if Chained(batches, opening, other) {
        ChainPrefix(batches, opening, other, k + 1);
        ChainContinues(batches, opening, closes, k, other);
      }
    }
  }

  lemma {:induction false} ChainContinues(
    batches: seq<Batch>, opening: Option<real>, closes: seq<Close>, k: nat, other: seq<Close>)
    requires k < |batches| && k == |closes| && k < |other| && batches[0].rows != []
    requires opening == FirstOpening(batches)
    requires Chained(batches[..k], opening, closes)
    requires Chained(batches[..k + 1], opening, other[..k + 1])
    ensures HasTrail(EdgesOf(batches[k].rows), OpeningAfter(None, closes))
  {
    assert Init(batches[..k + 1]) == batches[..k] && Init(other[..k + 1]) == other[..k];
    ChainIsDetermined(batches[..k], batches[..k], opening, closes, other[..k]);
    var p :| IsTrail(p, EdgesOf(batches[k].rows), OpeningAfter(opening, closes)) && Last(p) == other[k].balance;
    assert IsTrail(p, EdgesOf(batches[k].rows), OpeningAfter(None, closes));
  }
}
