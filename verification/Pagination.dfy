/** Collecting daily candles backwards from a paging server, with complete coverage or no result. */
module Pagination {
  import opened Wrappers

  const DAY: int := 86_400_000

  datatype Candle = Candle(time: int, open: real, high: real, low: real, close: real)

  /** One response: whether it names the asked instrument, and its rows if it has a list of them. */
  datatype Page = Page(rightInstrument: bool, rows: Option<seq<Candle>>)

  datatype HistoryError = WrongInstrument | Incomplete | InvalidCandle | Contradictory | OutOfOrder | Gaps

  /** The answer to the n-th request, which asks for the candles from `first` up to the cursor. */
  type Server = (nat, int) -> Page

  predicate ValidCandle(c: Candle) {
    && c.time >= 0
    && c.open > 0.0 && c.high > 0.0 && c.low > 0.0 && c.close > 0.0
    && c.high >= c.open && c.high >= c.low && c.high >= c.close
    && c.low <= c.open && c.low <= c.high && c.low <= c.close
  }

  /** A candle with positive prices whose low and high enclose its open and close. */
  predicate Priced(c: Candle) {
    c.time >= 0 && 0.0 < c.low <= c.open <= c.high && c.low <= c.close <= c.high
  }

  lemma {:induction false} ValidIsPriced(c: Candle)
    ensures ValidCandle(c) <==> Priced(c)
  {
  }

  predicate InRange(t: int, first: int, cursor: int) {
    t % DAY == 0 && first <= t <= cursor
  }

  /** A page that can be added: new, day-aligned, within the asked range and strictly newest first. */
  ghost predicate PageFits(rows: seq<Candle>, first: int, cursor: int, seen: map<int, Candle>) {
    && (forall k :: 0 <= k < |rows| ==>
          ValidCandle(rows[k]) && InRange(rows[k].time, first, cursor) && rows[k].time !in seen)
    && (forall j, k :: 0 <= j < k < |rows| ==> rows[j].time > rows[k].time)
  }

  /** `after` is `seen` with the rows filed under their times. */
  ghost predicate Filed(rows: seq<Candle>, seen: map<int, Candle>, after: map<int, Candle>) {
    && (forall t :: t in after <==> t in seen || exists k :: 0 <= k < |rows| && rows[k].time == t)
    && (forall t :: t in seen ==> t in after && after[t] == seen[t])
    && (forall k :: 0 <= k < |rows| && rows[k].time !in seen ==>
          rows[k].time in after && after[rows[k].time] == rows[k])
  }

  predicate Descending(times: seq<int>) {
    forall j, k :: 0 <= j < k < |times| ==> times[j] >= times[k]
  }

  function Least(times: seq<int>): int
    requires times != []
  {
    if |times| == 1 then times[0]
    else
      var rest := Least(times[1..]);
      if times[0] < rest then times[0] else rest
  }

  lemma {:induction false} LeastOfDescending(times: seq<int>)
    requires times != [] && Descending(times)
    ensures Least(times) == times[|times| - 1]
  {
    if |times| > 1 {
      assert forall j, k :: 0 <= j < k < |times[1..]| ==>
          times[1..][j] == times[j + 1] && times[1..][k] == times[k + 1];
      LeastOfDescending(times[1..]);
    }
  }

  /** Rows that can be filed one after the other, in whatever order. */
  ghost predicate RowsFit(rows: seq<Candle>, first: int, cursor: int, seen: map<int, Candle>) {
    && (forall k :: 0 <= k < |rows| ==> RowFits(rows[k], first, cursor) && rows[k].time !in seen)
    && (forall j, k :: 0 <= j < k < |rows| ==> rows[j].time != rows[k].time)
  }

  predicate RowFits(row: Candle, first: int, cursor: int) {
    ValidCandle(row) && InRange(row.time, first, cursor)
  }

  lemma {:induction false} RowsFitSnoc(
    rows: seq<Candle>, i: nat, first: int, cursor: int, seen: map<int, Candle>, before: map<int, Candle>)
    requires i < |rows| && RowsFit(rows[..i], first, cursor, seen) && Filed(rows[..i], seen, before)
    ensures RowsFit(rows[..i + 1], first, cursor, seen) <==> RowFits(rows[i], first, cursor) && rows[i].time !in before
  {
    var head, more := rows[..i], rows[..i + 1];
    assert more == head + [rows[i]];
    if RowsFit(more, first, cursor, seen) {
      assert RowFits(more[i], first, cursor) && more[i].time !in seen;
      forall k | 0 <= k < |head| ensures head[k].time != rows[i].time {
        assert more[k].time != more[i].time;
      }
    }
    if RowFits(rows[i], first, cursor) && rows[i].time !in before {
      forall k | 0 <= k < |more| ensures RowFits(more[k], first, cursor) && more[k].time !in seen {
        if k < i { assert more[k] == head[k]; }
      }
      forall j, k | 0 <= j < k < |more| ensures more[j].time != more[k].time {
        if k < i { assert more[k] == head[k]; }
        assert more[j] == head[j];
      }
    }
  }

  lemma {:induction false} RowsFitPrefix(rows: seq<Candle>, i: nat, first: int, cursor: int, seen: map<int, Candle>)
    requires i <= |rows| && !RowsFit(rows[..i], first, cursor, seen)
    ensures !RowsFit(rows, first, cursor, seen)
  {
    var head := rows[..i];
    if RowsFit(rows, first, cursor, seen) {
      assert forall k :: 0 <= k < |head| ==> head[k] == rows[k];
      assert RowsFit(head, first, cursor, seen);
    }
  }

  lemma {:induction false} FitsInOrder(
    rows: seq<Candle>, times: seq<int>, first: int, cursor: int, seen: map<int, Candle>)
    requires |times| == |rows| && forall k :: 0 <= k < |rows| ==> times[k] == rows[k].time
    ensures PageFits(rows, first, cursor, seen) <==> RowsFit(rows, first, cursor, seen) && Descending(times)
  {
    if RowsFit(rows, first, cursor, seen) && Descending(times) {
      forall j, k | 0 <= j < k < |rows| ensures rows[j].time > rows[k].time {
        assert times[j] >= times[k];
      }
    }
  }

  /** Adds one page, row by row; the order is checked once all rows are in. */
  method AddPage(rows: seq<Candle>, first: int, cursor: int, seen: map<int, Candle>)
    returns (r: Result<map<int, Candle>, HistoryError>)
    ensures r.Ok? <==> PageFits(rows, first, cursor, seen)
    ensures r.Ok? ==> Filed(rows, seen, r.value)
  {
    var result := seen;
    var times: seq<int> := [];
    for i := 0 to |rows|
      invariant |times| == i && forall k :: 0 <= k < i ==> times[k] == rows[k].time
      invariant RowsFit(rows[..i], first, cursor, seen) && Filed(rows[..i], seen, result)
    {
      var row := rows[i];
      RowsFitSnoc(rows, i, first, cursor, seen, result);
      if !ValidCandle(row) || !InRange(row.time, first, cursor) || row.time in result {
        RowsFitPrefix(rows, i + 1, first, cursor, seen);
        RefusedPage(rows, first, cursor, seen);
        return Err(if !ValidCandle(row) then InvalidCandle else Contradictory);
      }
      FileOne(rows, i, seen, result);
      result := result[row.time := row];
      times := times + [row.time];
    }
    assert rows[..|rows|] == rows;
    FitsInOrder(rows, times, first, cursor, seen);
    r := if Descending(times) then Ok(result) else Err(OutOfOrder);
  }

  lemma {:induction false} RefusedPage(rows: seq<Candle>, first: int, cursor: int, seen: map<int, Candle>)
    requires !RowsFit(rows, first, cursor, seen)
    ensures !PageFits(rows, first, cursor, seen)
  {
    FitsInOrder(rows, seq(|rows|, k requires 0 <= k < |rows| => rows[k].time), first, cursor, seen);
  }

  lemma {:induction false} FileOne(rows: seq<Candle>, i: nat, seen: map<int, Candle>, before: map<int, Candle>)
    requires i < |rows| && Filed(rows[..i], seen, before) && rows[i].time !in before
    ensures Filed(rows[..i + 1], seen, before[rows[i].time := rows[i]])
  {
    var after := before[rows[i].time := rows[i]];
    var head, more := rows[..i], rows[..i + 1];
    assert more == head + [rows[i]];
    forall t ensures t in after <==> t in seen || exists k :: 0 <= k < |more| && more[k].time == t {
      if t == rows[i].time {
        assert more[i].time == t;
      } else if t in after && t !in seen {
        var k :| 0 <= k < |head| && head[k].time == t;
        assert more[k].time == t;
      } else if exists k :: 0 <= k < |more| && more[k].time == t {
        var k :| 0 <= k < |more| && more[k].time == t;
        assert head[k].time == t;
      }
    }
    forall k | 0 <= k < |more| && more[k].time !in seen
      ensures more[k].time in after && after[more[k].time] == more[k]
    {
      if k < i {
        assert head[k] == more[k] && head[k].time in before;
      }
    }
  }

  // ----- the days asked for

  function LastDay(t: int): int {
    t - t % DAY
  }

  predicate Expected(t: int, first: int, last: int) {
    first <= t <= LastDay(last) && (t - first) % DAY == 0
  }

  function ExpectedDays(first: int, last: int): (days: set<int>)
    ensures forall t :: t in days <==> Expected(t, first, last)
  {
    set t: int | first <= t <= LastDay(last) && Expected(t, first, last) :: t
  }

  /** Everything collected so far lies above the cursor, day-aligned and filed under its own time. */
  ghost predicate Collected(result: map<int, Candle>, first: int, cursor: int, last: int) {
    forall t :: t in result ==> InRange(t, first, last) && t > cursor && result[t].time == t && ValidCandle(result[t])
  }

  ghost predicate Covered(result: map<int, Candle>, first: int, cursor: int, last: int) {
    forall t :: InRange(t, first, last) && t > cursor ==> t in result
  }

  /** A server that always answers with the newest candles at or below the cursor, at least one of them. */
  ghost predicate HonestPage(page: Page, first: int, cursor: int) {
    && page.rightInstrument && page.rows.Some? && page.rows.value != []
    && (forall k :: 0 <= k < |page.rows.value| ==>
          && Priced(page.rows.value[k])
          && page.rows.value[k].time == LastDay(cursor) - k * DAY
          && page.rows.value[k].time >= first)
  }

  ghost predicate Honest(server: Server, first: int) {
    forall n: nat, cursor :: cursor >= first ==> HonestPage(server(n, cursor), first, cursor)
  }

  lemma {:induction false} HonestPageFits(rows: seq<Candle>, first: int, cursor: int, last: int, seen: map<int, Candle>)
    requires HonestPage(Page(true, Some(rows)), first, cursor) && cursor <= last && Collected(seen, first, cursor, last)
    ensures PageFits(rows, first, cursor, seen)
  {
    forall k | 0 <= k < |rows|
      ensures ValidCandle(rows[k]) && InRange(rows[k].time, first, cursor) && rows[k].time !in seen
    {
      DayBefore(LastDay(cursor), k);
      ValidIsPriced(rows[k]);
      assert rows[k].time <= cursor;
    }
  }

  lemma {:induction false} DayBefore(day: int, k: int)
    requires day % DAY == 0
    ensures (day - k * DAY) % DAY == 0
  {
  }

  /** An honest page covers every day between its oldest candle and the cursor. */
  lemma {:induction false} HonestPageCovers(
    rows: seq<Candle>, first: int, cursor: int, last: int, seen: map<int, Candle>, after: map<int, Candle>)
    requires HonestPage(Page(true, Some(rows)), first, cursor)
    requires Covered(seen, first, cursor, last) && Filed(rows, seen, after)
    ensures Covered(after, first, rows[|rows| - 1].time - 1, last)
  {
    forall t | InRange(t, first, last) && t > rows[|rows| - 1].time - 1 ensures t in after {
      if t <= cursor {
        var k := DaysBetween(t, cursor);
        assert k < |rows| && rows[k].time == t;
      }
    }
  }

  lemma {:induction false} DaysBetween(t: int, cursor: int) returns (k: nat)
    requires t % DAY == 0 && t <= cursor
    ensures t == LastDay(cursor) - k * DAY
  {
    k := (LastDay(cursor) - t) / DAY;
  }

  lemma {:induction false} PageIsCollected(
    rows: seq<Candle>, first: int, cursor: int, last: int, seen: map<int, Candle>, after: map<int, Candle>)
    requires rows != [] && cursor <= last && Collected(seen, first, cursor, last)
    requires PageFits(rows, first, cursor, seen) && Filed(rows, seen, after)
    ensures Collected(after, first, rows[|rows| - 1].time - 1, last)
    ensures first <= rows[|rows| - 1].time <= cursor
  {
    forall t | t in after
      ensures InRange(t, first, last) && t > rows[|rows| - 1].time - 1 && after[t].time == t && ValidCandle(after[t])
    {
      if t !in seen {
        var k :| 0 <= k < |rows| && rows[k].time == t;
        assert after[t] == rows[k];
      }
    }
  }

  /** With an aligned start, the expected days are the aligned ones in range. */
  lemma {:induction false} AlignedExpected(t: int, first: int, last: int)
    requires first % DAY == 0
    ensures Expected(t, first, last) <==> InRange(t, first, last)
  {
  }

  /** The candle is a row of a page that answered one of these requests. */
  ghost predicate Answered(server: Server, asked: seq<int>, c: Candle) {
    exists n :: 0 <= n < |asked| && InPage(server(n, asked[n]), c)
  }

  /** Each request asks for candles strictly before those of the one before. */
  ghost predicate Falling(asked: seq<int>, first: int, last: int) {
    forall n :: 0 <= n < |asked| ==> first <= asked[n] <= last && (n > 0 ==> asked[n] < asked[n - 1])
  }

  lemma {:induction false} FallingSnoc(asked: seq<int>, cursor: int, first: int, last: int)
    requires Falling(asked, first, last) && first <= cursor <= last
    requires asked != [] ==> cursor < asked[|asked| - 1]
    ensures Falling(asked + [cursor], first, last)
  {
  }

  predicate InPage(page: Page, c: Candle) {
    page.rightInstrument && page.rows.Some? && c in page.rows.value
  }

  ghost predicate AllAnswered(server: Server, asked: seq<int>, result: map<int, Candle>) {
    forall t :: t in result ==> Answered(server, asked, result[t])
  }

  lemma {:induction false} PageIsAnswered(
    server: Server, asked: seq<int>, cursor: int, seen: map<int, Candle>, after: map<int, Candle>)
    requires AllAnswered(server, asked, seen)
    requires
      var page := server(|asked|, cursor);
      page.rightInstrument && page.rows.Some? && Filed(page.rows.value, seen, after)
    ensures AllAnswered(server, asked + [cursor], after)
  {
    var rows := server(|asked|, cursor).rows.value;
    forall t | t in after ensures Answered(server, asked + [cursor], after[t]) {
      if t in seen {
        var n :| 0 <= n < |asked| && InPage(server(n, asked[n]), seen[t]);
        assert InPage(server(n, (asked + [cursor])[n]), after[t]);
      } else {
        var k :| 0 <= k < |rows| && rows[k].time == t;
        assert after[t] == rows[k];
        assert InPage(server(|asked|, (asked + [cursor])[|asked|]), after[t]);
      }
    }
  }

  /** What holds between two requests. */
  ghost predicate Walked(
    server: Server, asked: seq<int>, result: map<int, Candle>, first: int, cursor: int, last: int)
  {
    && cursor <= last
    && Collected(result, first, cursor, last)
    && (Honest(server, first) ==> Covered(result, first, cursor, last))
    && (cursor < last ==> exists t :: t in result)
    && Falling(asked, first, last) && (asked != [] ==> cursor < asked[|asked| - 1])
    && AllAnswered(server, asked, result)
  }

  /** One more page, whose oldest row becomes the next limit. */
  lemma {:induction false} WalkOn(
    server: Server, asked: seq<int>, seen: map<int, Candle>, after: map<int, Candle>, first: int, cursor: int,
    last: int)
    requires Walked(server, asked, seen, first, cursor, last) && first <= cursor
    requires
      var page := server(|asked|, cursor);
      && page.rightInstrument && page.rows.Some? && page.rows.value != []
      && PageFits(page.rows.value, first, cursor, seen) && Filed(page.rows.value, seen, after)
    ensures
      var rows := server(|asked|, cursor).rows.value;
      && rows[|rows| - 1].time <= cursor
      && Walked(server, asked + [cursor], after, first, rows[|rows| - 1].time - 1, last)
  {
    var rows := server(|asked|, cursor).rows.value;
    PageIsCollected(rows, first, cursor, last, seen, after);
    PageIsAnswered(server, asked, cursor, seen, after);
    FallingSnoc(asked, cursor, first, last);
    if Honest(server, first) {
      assert HonestPage(server(|asked|, cursor), first, cursor);
      HonestPageCovers(rows, first, cursor, last, seen, after);
    }
    assert rows[0].time in after;
  }

  /** An honest server's page is never refused. */
  lemma {:induction false} HonestAnswer(
    server: Server, asked: seq<int>, seen: map<int, Candle>, first: int, cursor: int, last: int)
    requires Walked(server, asked, seen, first, cursor, last) && first <= cursor && Honest(server, first)
    ensures
      var page := server(|asked|, cursor);
      && page.rightInstrument && page.rows.Some? && page.rows.value != []
      && PageFits(page.rows.value, first, cursor, seen)
  {
    var page := server(|asked|, cursor);
    assert HonestPage(page, first, cursor);
    HonestPageFits(page.rows.value, first, cursor, last, seen);
  }

  function Times(rows: seq<Candle>): (times: seq<int>)
    ensures |times| == |rows| && forall k :: 0 <= k < |rows| ==> times[k] == rows[k].time
  {
    seq(|rows|, k requires 0 <= k < |rows| => rows[k].time)
  }

  lemma {:induction false} OldestIsLast(rows: seq<Candle>, first: int, cursor: int, seen: map<int, Candle>)
    requires rows != [] && PageFits(rows, first, cursor, seen)
    ensures Least(Times(rows)) == rows[|rows| - 1].time
  {
    LeastOfDescending(Times(rows));
  }

  datatype Cut = Cut(result: map<int, Candle>, cursor: int)

  /** One round: the page is added, and the cursor moves below its oldest candle. */
  method Request(
    server: Server, n: nat, cursor: int, first: int, last: int, result: map<int, Candle>, ghost asked: seq<int>)
    returns (r: Result<Cut, HistoryError>)
    requires n == |asked| && Walked(server, asked, result, first, cursor, last) && first <= cursor
    ensures r.Ok? ==> r.value.cursor < cursor
    ensures r.Ok? ==> Walked(server, asked + [cursor], r.value.result, first, r.value.cursor, last)
    ensures Honest(server, first) ==> r.Ok?
  {
    var page := server(n, cursor);
    if Honest(server, first) {
      HonestAnswer(server, asked, result, first, cursor, last);
    }
    if !page.rightInstrument {
      return Err(WrongInstrument);
    }
    if page.rows.None? || page.rows.value == [] {
      return Err(Incomplete);
    }
    var rows := page.rows.value;
    var added := AddPage(rows, first, cursor, result);
    if added.Err? {
      return Err(added.error);
    }
    WalkOn(server, asked, result, added.value, first, cursor, last);
    OldestIsLast(rows, first, cursor, result);
    r := Ok(Cut(added.value, Least(Times(rows)) - 1));
  }

  /**
   Walks the cursor back until it passes the start. The cursor strictly falls whatever the server
   answers. A result holds exactly one valid candle for every expected day, each a row the server sent in answer to
   one of the requests; an unaligned start never gives one; and an honest server and an aligned start always do.
   */
  method Candles(server: Server, first: int, last: int)
    returns (r: Result<map<int, Candle>, HistoryError>, ghost asked: seq<int>)
    ensures Falling(asked, first, last)
    ensures r.Ok? ==> AllAnswered(server, asked, r.value)
    ensures r.Ok? ==> forall t :: t in r.value <==> Expected(t, first, last)
    ensures r.Ok? ==> forall t :: t in r.value ==> r.value[t].time == t && Priced(r.value[t])
    ensures r.Ok? && first <= last ==> first % DAY == 0
    ensures first % DAY == 0 && Honest(server, first) ==> r.Ok?
  {
    var result: map<int, Candle> := map[];
    var cursor := last;
    var n: nat := 0;
    asked := [];
    while cursor >= first
      invariant n == |asked| && Walked(server, asked, result, first, cursor, last)
      decreases cursor - first
    {
      FallingSnoc(asked, cursor, first, last);
      ghost var before := asked;
      asked := asked + [cursor];
      var step := Request(server, n, cursor, first, last, result, before);
      if step.Err? {
        return Err(step.error), asked;
      }
      n := n + 1;
      result, cursor := step.value.result, step.value.cursor;
    }
    EndOfWalk(server, asked, result, first, cursor, last);
    var expected := ExpectedDays(first, last);
    r := if result.Keys != expected then Err(Gaps) else Ok(result);
  }

  /** Once the cursor has passed the start, only missing days are left to find. */
  lemma {:induction false} EndOfWalk(
    server: Server, asked: seq<int>, result: map<int, Candle>, first: int, cursor: int, last: int)
    requires Walked(server, asked, result, first, cursor, last) && cursor < first
    ensures Falling(asked, first, last) && AllAnswered(server, asked, result)
    ensures forall t :: t in result ==> result[t].time == t && Priced(result[t])
    ensures first % DAY == 0 && Honest(server, first) ==> result.Keys == ExpectedDays(first, last)
    ensures result.Keys == ExpectedDays(first, last) ==>
      (forall t :: t in result <==> Expected(t, first, last)) && (first <= last ==> first % DAY == 0)
  {
    NoGapsWhenHonest(server, result, first, cursor, last);
    if first <= last && first % DAY != 0 {
      UnalignedDisagrees(result, first, cursor, last);
    }
    forall t ensures t in result <==> t in result.Keys {
    }
  }

  lemma {:induction false} NoGapsWhenHonest(
    server: Server, result: map<int, Candle>, first: int, cursor: int, last: int)
    requires cursor < first && Collected(result, first, cursor, last)
    requires Honest(server, first) ==> Covered(result, first, cursor, last)
    ensures first % DAY == 0 && Honest(server, first) ==> result.Keys == ExpectedDays(first, last)
  {
    if first % DAY == 0 && Honest(server, first) {
      forall t ensures t in result.Keys <==> t in ExpectedDays(first, last) {
        AlignedExpected(t, first, last);
        if InRange(t, first, last) {
          assert t > cursor && t in result;
        }
      }
    }
  }

  /** Collected days are aligned, expected ones are not: a nonempty collection cannot match. */
  lemma {:induction false} UnalignedDisagrees(result: map<int, Candle>, first: int, cursor: int, last: int)
    requires first <= last && first % DAY != 0 && cursor < first && exists t :: t in result
    requires Collected(result, first, cursor, last)
    ensures result.Keys != ExpectedDays(first, last)
  {
    var t :| t in result;
    assert t in result.Keys;
    assert t % DAY == 0;
    assert !Expected(t, first, last);
  }
}
