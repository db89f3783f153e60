/**
 Retention of the balance series: a fresh capture is anchored on days that were already closed,
 joined to the older days that are kept, and cut down to the public window.
 */
module BalanceCache {
  import opened Wrappers
  import opened Sequences
  import opened BalanceHistory

  datatype RetentionError =
    | CaptureMovedBackwards
    | ActivityDisappeared
    | AnchorDisagrees
    | HistoriesDisagree
    | InvalidSeries

  // ----- one day

  /** The retained record of a date; a valid series is indexed by its dates. */
  function Lookup(h: History, date: int): Option<Day> {
    var i := date - DateOf(h.start);
    if 0 <= i < |h.days| then Some(h.days[i]) else None
  }

  /** A day this capture could not price falls back on a retained closed day with the same activity. */
  function ObservedDay(day: Day, prior: Option<Day>): Result<Day, RetentionError> {
    if day.balance.Some? || prior.None? || !prior.value.complete then Ok(day)
    else if day.activity != prior.value.activity then Err(ActivityDisappeared)
    else Ok(prior.value)
  }

  /** Carries a closed balance one day forward and checks it against what was observed. */
  function ExtendDay(day: Day, anchor: real, complete: bool): Result<Day, RetentionError> {
    var expected := anchor + Movement(day.activity);
    if day.balance.Some? && day.balance.value != expected then Err(AnchorDisagrees)
    else Ok(day.(balance := Some(expected), change := Some(Movement(day.activity)), complete := complete))
  }

  function AnchorOf(day: Day): Option<real> {
    if day.complete then day.balance else None
  }

  function FillDay(previous: History, current: History, anchor: Option<real>, raw: Day): Result<Day, RetentionError> {
    var observed := ObservedDay(raw, Lookup(previous, raw.date));
    if observed.Err? || anchor.None? then observed
    else
      var day := observed.value;
      ExtendDay(day, anchor.value, DateOf(current.start) <= day.date < DateOf(current.asOf))
  }

  // ----- the forward pass

  /** The closed balance on the eve of the window, if it was retained. */
  function EveAnchor(previous: History, current: History): Option<real> {
    var eve := Lookup(previous, DateOf(current.start) - 1);
    if eve.Some? then AnchorOf(eve.value) else None
  }

  function AnchorAfter(previous: History, current: History, days: seq<Day>): Option<real> {
    if days == [] then EveAnchor(previous, current) else AnchorOf(Last(days))
  }

  /** The first `n` days of the anchored window. */
  function FillDays(previous: History, current: History, n: nat): Result<seq<Day>, RetentionError>
    requires n <= |current.days|
  {
    if n == 0 then Ok([])
    else
      var earlier := FillDays(previous, current, n - 1);
      if earlier.Err? then earlier
      else
        var day := FillDay(previous, current, AnchorAfter(previous, current, earlier.value), current.days[n - 1]);
        if day.Err? then Err(day.error) else Ok(earlier.value + [day.value])
  }

  method AnchoredWindow(previous: History, current: History) returns (r: Result<History, RetentionError>)
    ensures r.Ok? <==> && FillDays(previous, current, |current.days|).Ok?
                       && ValidHistory(current.(days := FillDays(previous, current, |current.days|).value))
    ensures r.Ok? ==> r.value == current.(days := FillDays(previous, current, |current.days|).value)
  {
    var anchor := EveAnchor(previous, current);
    var days: seq<Day> := [];
    var i := 0;
    while i < |current.days|
      invariant 0 <= i <= |current.days|
      invariant FillDays(previous, current, i) == Ok(days)
      invariant anchor == AnchorAfter(previous, current, days)
    {
      var day := FillDay(previous, current, anchor, current.days[i]);
      if day.Err? {
        FillStops(previous, current, i + 1, |current.days|);
        return Err(day.error);
      }
      anchor := AnchorOf(day.value);
      days := days + [day.value];
      i := i + 1;
    }
    var ok := ValidateBalanceHistory(current.(days := days));
    if !ok {
      return Err(InvalidSeries);
    }
    return Ok(current.(days := days));
  }

  lemma {:induction false} FillStops(previous: History, current: History, i: nat, n: nat)
    requires i <= n <= |current.days|
    requires FillDays(previous, current, i).Err?
    ensures FillDays(previous, current, n).Err?
  {
    if i < n {
      FillStops(previous, current, i, n - 1);
    }
  }

  lemma {:induction false} FillPrefix(previous: History, current: History, i: nat, n: nat)
    requires i <= n <= |current.days|
    requires FillDays(previous, current, n).Ok?
    ensures FillDays(previous, current, i).Ok?
    ensures |FillDays(previous, current, n).value| == n
    ensures FillDays(previous, current, i).value == FillDays(previous, current, n).value[..i]
  {
    if n > 0 {
      if i < n {
        FillPrefix(previous, current, i, n - 1);
      } else {
        FillPrefix(previous, current, n - 1, n - 1);
      }
    }
  }

  /** Day `i` of the result is the fill of day `i` from the day before it. */
  lemma {:induction false} FillAt(previous: History, current: History, n: nat, i: nat)
    requires i < n <= |current.days|
    requires FillDays(previous, current, n).Ok?
    ensures |FillDays(previous, current, n).value| == n
    ensures
      var days := FillDays(previous, current, n).value;
      FillDay(previous, current, AnchorAfter(previous, current, days[..i]), current.days[i]) == Ok(days[i])
  {
    FillPrefix(previous, current, i, n);
    FillPrefix(previous, current, i + 1, n);
  }

  // ----- what the forward pass guarantees

  /** What was observed stays: balances that were known, and the activity and date of every day. */
  lemma {:induction false} ObservationsAreKept(previous: History, current: History, n: nat, i: nat)
    requires i < n <= |current.days|
    requires ValidHistory(previous) && FillDays(previous, current, n).Ok?
    ensures |FillDays(previous, current, n).value| == n
    ensures
      var day := FillDays(previous, current, n).value[i];
      && day.date == current.days[i].date
      && day.activity == current.days[i].activity
      && (current.days[i].balance.Some? ==> day.balance == current.days[i].balance)
  {
    FillAt(previous, current, n, i);
  }

  /** The retained series has a closed record of this date. */
  ghost predicate ClosedOn(h: History, k: int, date: int) {
    0 <= k < |h.days| && h.days[k].date == date && h.days[k].complete
  }

  /** No closed record of this date was retained. */
  ghost predicate NothingClosed(h: History, date: int) {
    forall k :: 0 <= k < |h.days| && h.days[k].date == date ==> !h.days[k].complete
  }

  lemma {:induction false} LookupOfDate(h: History, date: int, k: int)
    requires ValidHistory(h) && 0 <= k < |h.days| && h.days[k].date == date
    ensures Lookup(h, date) == Some(h.days[k])
  {
  }

  /** The wallet changes of the days after `lo`, up to and including `hi`. */
  function MovementBetween(days: seq<Day>, lo: int, hi: int): real
    requires -1 <= lo <= hi < |days|
    decreases hi - lo
  {
    if lo == hi then 0.0 else MovementBetween(days, lo, hi - 1) + Movement(days[hi].activity)
  }

  /**
   A balance nobody had to infer: retained with the closed eve of the window, observed by this capture, on a closed
   day where `closed` asks for one, or closed and retained with the same activity.
   */
  ghost predicate Evidence(previous: History, current: History, j: int, balance: real, closed: bool)
    requires -1 <= j < |current.days|
  {
    if j == -1 then
      exists k :: ClosedOn(previous, k, DateOf(current.start) - 1) && previous.days[k].balance == Some(balance)
    else
      || (current.days[j].balance == Some(balance) && (closed ==> current.days[j].complete))
      || (exists k :: ClosedOn(previous, k, current.days[j].date)
                      && previous.days[k].activity == current.days[j].activity
                      && previous.days[k].balance == Some(balance))
  }

  /** The evidence on day `j` and the wallet changes since account for the balance of day `i`. */
  ghost predicate Grounds(previous: History, current: History, i: nat, day: Day, j: int, balance: real)
    requires -1 <= j <= i < |current.days|
  {
    && Evidence(previous, current, j, balance, j < i || day.complete)
    && day.balance == Some(balance + MovementBetween(current.days, j, i))
  }

  ghost predicate Grounded(previous: History, current: History, i: nat, day: Day)
    requires i < |current.days|
  {
    exists j, balance :: -1 <= j <= i && Grounds(previous, current, i, day, j, balance)
  }

  /**
   Forward only: every balance the pass fills in is an earlier piece of evidence plus all wallet changes since.
   Evidence carried forward from an earlier day is a closed day's, and no later day justifies anything.
   */
  lemma {:induction false} FilledBalancesAreGrounded(previous: History, current: History, n: nat, i: nat)
    requires i < n <= |current.days|
    requires ValidHistory(previous) && FillDays(previous, current, n).Ok?
    requires |FillDays(previous, current, n).value| == n
    requires FillDays(previous, current, n).value[i].balance.Some?
    ensures Grounded(previous, current, i, FillDays(previous, current, n).value[i])
    decreases i
  {
    var days := FillDays(previous, current, n).value;
    var raw := current.days[i];
    FillAt(previous, current, n, i);
    var anchor := AnchorAfter(previous, current, days[..i]);
    if anchor.None? {
      UnanchoredIsGrounded(previous, current, i, days[i]);
    } else if i == 0 {
      assert MovementBetween(current.days, -1, 0) == MovementBetween(current.days, -1, -1) + Movement(raw.activity);
      assert ClosedOn(previous, DateOf(current.start) - 1 - DateOf(previous.start), DateOf(current.start) - 1);
      assert Grounds(previous, current, 0, days[0], -1, anchor.value);
    } else {
      assert days[..i][i - 1] == days[i - 1] && days[i - 1].complete;
      FilledBalancesAreGrounded(previous, current, n, i - 1);
      var j, b :| -1 <= j <= i - 1 && Grounds(previous, current, i - 1, days[i - 1], j, b);
      assert Grounds(previous, current, i, days[i], j, b);
    }
  }

  lemma {:induction false} UnanchoredIsGrounded(previous: History, current: History, i: nat, day: Day)
    requires i < |current.days| && ValidHistory(previous) && day.balance.Some?
    requires FillDay(previous, current, None, current.days[i]) == Ok(day)
    ensures Grounded(previous, current, i, day)
  {
    assert MovementBetween(current.days, i, i) == 0.0;
    var raw := current.days[i];
    if raw.balance.None? {
      assert ClosedOn(previous, raw.date - DateOf(previous.start), raw.date);
    }
    assert Evidence(previous, current, i, day.balance.value, day.complete);
    assert Grounds(previous, current, i, day, i, day.balance.value);
  }

  /** Two captures that agree up to day `n` are filled alike up to day `n`, whatever follows. */
  lemma {:induction false} FillsIgnoreLaterDays(p: History, q: History, a: History, b: History, n: nat)
    requires n <= |a.days| && n <= |b.days| && a.days[..n] == b.days[..n]
    requires a.start == b.start && a.asOf == b.asOf
    requires Lookup(p, DateOf(a.start) - 1) == Lookup(q, DateOf(a.start) - 1)
    requires forall i :: 0 <= i < n ==> Lookup(p, a.days[i].date) == Lookup(q, a.days[i].date)
    ensures FillDays(p, a, n) == FillDays(q, b, n)
  {
    if n > 0 {
      assert a.days[..n][n - 1] == b.days[..n][n - 1];
      assert a.days[..n - 1] == a.days[..n][..n - 1] && b.days[..n - 1] == b.days[..n][..n - 1];
      FillsIgnoreLaterDays(p, q, a, b, n - 1);
    }
  }

  // ----- the pass written out

  /** The balance a closed day hands on to the next, whether the day was retained or just filled. */
  ghost predicate Closed(day: Day, balance: real) {
    day.complete && day.balance == Some(balance)
  }

  /** A day that follows a closed balance: that balance plus the day's own wallet changes. */
  ghost predicate Extends(raw: Day, day: Day, balance: real, asOf: nat) {
    && day.date == raw.date && day.activity == raw.activity
    && day.balance == Some(balance + Movement(raw.activity))
    && day.change == Some(Movement(raw.activity))
    && (day.complete <==> raw.date < DateOf(asOf))
  }

  lemma {:induction false} ExtendedDay(previous: History, current: History, balance: real, i: nat, day: Day)
    requires ValidHistory(previous) && Consecutive(current) && i < |current.days|
    requires FillDay(previous, current, Some(balance), current.days[i]) == Ok(day)
    ensures Extends(current.days[i], day, balance, current.asOf)
    ensures current.days[i].balance.Some? ==> current.days[i].balance == day.balance
  {
  }

  /**
   A closed day carries forward: after a closed record of the eve, every day of the window is extended, the first from
   that record and each later one from the day before it.
   */
  lemma {:induction false} EveCarriesForward(previous: History, current: History, eve: nat, n: nat, i: nat)
    requires ValidHistory(previous) && Consecutive(current) && i < n <= |current.days|
    requires ClosedOn(previous, eve, DateOf(current.start) - 1)
    requires FillDays(previous, current, n).Ok?
    ensures |FillDays(previous, current, n).value| == n
    ensures
      var day := FillDays(previous, current, n).value[i];
      && day.balance == Some(previous.days[eve].balance.value + MovementBetween(current.days, -1, i))
      && day.change == Some(Movement(current.days[i].activity))
      && (day.complete <==> current.days[i].date < DateOf(current.asOf))
      && (current.days[i].balance.Some? ==> current.days[i].balance == day.balance)
    decreases i
  {
    FillAt(previous, current, n, i);
    var days := FillDays(previous, current, n).value;
    LookupOfDate(previous, DateOf(current.start) - 1, eve);
    if i == 0 {
      assert MovementBetween(current.days, -1, 0)
          == MovementBetween(current.days, -1, -1) + Movement(current.days[0].activity);
      ExtendedDay(previous, current, previous.days[eve].balance.value, 0, days[0]);
    } else {
      EveCarriesForward(previous, current, eve, n, i - 1);
      assert days[..i][i - 1] == days[i - 1];
      ExtendedDay(previous, current, days[i - 1].balance.value, i, days[i]);
    }
  }

  /** A day observed at any other balance than the closed eve and the wallet changes since account for. */
  ghost predicate ContradictsEve(previous: History, current: History, eve: nat, i: nat)
    requires eve < |previous.days| && i < |current.days|
  {
    && previous.days[eve].balance.Some? && current.days[i].balance.Some?
    && current.days[i].balance.value
       != previous.days[eve].balance.value + MovementBetween(current.days, -1, i)
  }

  lemma {:induction false} EveRefuses(previous: History, current: History, eve: nat, i: nat)
    requires ValidHistory(previous) && Consecutive(current) && i < |current.days|
    requires ClosedOn(previous, eve, DateOf(current.start) - 1) && ContradictsEve(previous, current, eve, i)
    ensures FillDays(previous, current, |current.days|).Err?
  {
    if FillDays(previous, current, |current.days|).Ok? {
      EveCarriesForward(previous, current, eve, |current.days|, i);
    }
  }

  /**
   A retained closed day is kept: a day this capture could not price takes the balance of the closed record of its
   date, which must have the same activity.
   */
  lemma {:induction false} ClosedDayIsKept(previous: History, current: History, k: nat, n: nat, i: nat)
    requires ValidHistory(previous) && Consecutive(current) && i < n <= |current.days|
    requires ClosedOn(previous, k, current.days[i].date) && current.days[i].balance.None?
    requires FillDays(previous, current, n).Ok?
    ensures |FillDays(previous, current, n).value| == n
    ensures previous.days[k].activity == current.days[i].activity
    ensures FillDays(previous, current, n).value[i].balance == previous.days[k].balance
  {
    FillAt(previous, current, n, i);
    LookupOfDate(previous, current.days[i].date, k);
  }

  /** Inside the window a closed day carries forward as the eve does. */
  lemma {:induction false} ClosedDayCarriesForward(previous: History, current: History, n: nat, i: nat, balance: real)
    requires ValidHistory(previous) && Consecutive(current) && 0 < i < n <= |current.days|
    requires FillDays(previous, current, n).Ok? && |FillDays(previous, current, n).value| == n
    requires Closed(FillDays(previous, current, n).value[i - 1], balance)
    ensures Extends(current.days[i], FillDays(previous, current, n).value[i], balance, current.asOf)
  {
    FillAt(previous, current, n, i);
    var days := FillDays(previous, current, n).value;
    assert days[..i][i - 1] == days[i - 1];
    ExtendedDay(previous, current, balance, i, days[i]);
  }

  /** A day nothing closed precedes, and of which no closed record was retained, stays as it was captured. */
  lemma {:induction false} OtherDaysAreAsCaptured(previous: History, current: History, n: nat, i: nat)
    requires ValidHistory(previous) && Consecutive(current) && i < n <= |current.days|
    requires FillDays(previous, current, n).Ok? && |FillDays(previous, current, n).value| == n
    requires
      if i == 0 then NothingClosed(previous, DateOf(current.start) - 1)
      else !FillDays(previous, current, n).value[i - 1].complete
    requires current.days[i].balance.Some? || NothingClosed(previous, current.days[i].date)
    ensures FillDays(previous, current, n).value[i] == current.days[i]
  {
    FillAt(previous, current, n, i);
    var days := FillDays(previous, current, n).value;
    if i > 0 { assert days[..i][i - 1] == days[i - 1]; }
  }

  // ----- validity of the anchored window

  /** A capture's known balances before its capture day are all settled. */
  ghost predicate Settled(h: History) {
    forall i :: 0 <= i < |h.days| && h.days[i].date < DateOf(h.asOf) && h.days[i].balance.Some? ==> h.days[i].complete
  }

  ghost predicate Anchorable(previous: History, current: History) {
    && ValidHistory(previous) && ValidHistory(current) && Settled(current)
    && previous.asOf <= current.asOf
    && current.start == Midnight(DateOf(current.start))
  }

  lemma {:induction false} ValidDayOfHistory(h: History, i: nat)
    requires ValidHistory(h) && i < |h.days|
    ensures ValidDay(h.days[i], h.start, h.asOf)
    ensures h.days[i].date == DateOf(h.start) + i
  {
  }

  /** A retained closed day is valid again inside the new window when its activity is the same. */
  lemma {:induction false} CopyIsValid(previous: History, current: History, i: nat, prior: Day)
    requires Anchorable(previous, current) && i < |current.days|
    requires Lookup(previous, current.days[i].date) == Some(prior) && prior.complete
    requires prior.activity == current.days[i].activity
    ensures ValidDay(prior, current.start, current.asOf) && prior.date == current.days[i].date
  {
    ValidDayOfHistory(current, i);
    ValidDayOfHistory(previous, prior.date - DateOf(previous.start));
    DatesAreMonotone(previous.asOf, current.asOf);
  }

  lemma {:induction false} DatesAreMonotone(a: nat, b: nat)
    requires a <= b
    ensures DateOf(a) <= DateOf(b)
    ensures Midnight(DateOf(a)) <= a
  {
    assert DateOf(a) * DAY_US <= a < (DateOf(a) + 1) * DAY_US;
    assert DateOf(b) * DAY_US <= b < (DateOf(b) + 1) * DAY_US;
  }

  lemma {:induction false} FilledDayIsValid(previous: History, current: History, anchor: Option<real>, i: nat)
    requires Anchorable(previous, current) && i < |current.days|
    requires FillDay(previous, current, anchor, current.days[i]).Ok?
    ensures ValidDay(FillDay(previous, current, anchor, current.days[i]).value, current.start, current.asOf)
  {
    var raw := current.days[i];
    ValidDayOfHistory(current, i);
    MidnightOfLater(DateOf(current.start), raw.date);
    var prior := Lookup(previous, raw.date);
    if raw.balance.None? && prior.Some? && prior.value.complete {
      CopyIsValid(previous, current, i, prior.value);
    }
  }

  lemma {:induction false} MidnightOfLater(a: int, b: int)
    requires a <= b
    ensures Midnight(a) <= Midnight(b)
  {
  }

  /** Neighbouring days of the result agree: an extended day by construction, a raw one as captured. */
  lemma {:induction false} FilledNeighboursAgree(previous: History, current: History, n: nat, i: nat)
    requires Anchorable(previous, current) && 0 < i < n <= |current.days|
    requires FillDays(previous, current, n).Ok?
    ensures |FillDays(previous, current, n).value| == n
    ensures Consistent(FillDays(previous, current, n).value[i - 1], FillDays(previous, current, n).value[i])
  {
    var days := FillDays(previous, current, n).value;
    FillAt(previous, current, n, i);
    FillAt(previous, current, n, i - 1);
    assert days[..i][i - 1] == days[i - 1];
    if AnchorAfter(previous, current, days[..i]).None? {
      ValidDayOfHistory(current, i);
      ValidDayOfHistory(current, i - 1);
      UnanchoredDayIsUnknown(previous, current, AnchorAfter(previous, current, days[..i - 1]), i - 1);
    }
  }

  /** Before the capture day, a filled day that is not settled has no balance at all. */
  lemma {:induction false} UnanchoredDayIsUnknown(previous: History, current: History, anchor: Option<real>, i: nat)
    requires Anchorable(previous, current) && i < |current.days| && current.days[i].date < DateOf(current.asOf)
    requires FillDay(previous, current, anchor, current.days[i]).Ok?
    requires AnchorOf(FillDay(previous, current, anchor, current.days[i]).value).None?
    ensures FillDay(previous, current, anchor, current.days[i]).value.balance.None?
  {
    ValidDayOfHistory(current, i);
    var prior := Lookup(previous, current.days[i].date);
    if prior.Some? {
      ValidDayOfHistory(previous, current.days[i].date - DateOf(previous.start));
    }
  }

  /** A capture that starts at midnight can only be refused for a contradiction, never as malformed. */
  lemma {:induction false} AnchoredWindowIsValid(previous: History, current: History)
    requires Anchorable(previous, current)
    requires FillDays(previous, current, |current.days|).Ok?
    ensures ValidHistory(current.(days := FillDays(previous, current, |current.days|).value))
  {
    var n := |current.days|;
    var days := FillDays(previous, current, n).value;
    FillPrefix(previous, current, n, n);
    forall i | 0 <= i < n
      ensures days[i].date == DateOf(current.start) + i && ValidDay(days[i], current.start, current.asOf)
    {
      FillAt(previous, current, n, i);
      ObservationsAreKept(previous, current, n, i);
      FilledDayIsValid(previous, current, AnchorAfter(previous, current, days[..i]), i);
    }
    forall i | 0 < i < n ensures Consistent(days[i - 1], days[i]) {
      FilledNeighboursAgree(previous, current, n, i);
    }
  }

  // ----- joining the older days

  function GapDay(date: int): Day {
    Day(date, None, None, false, [])
  }

  predicate IsOlder(day: Day, cutoff: int, first: int) {
    cutoff <= day.date < first
  }

  /** The retained days that fall before the new window and inside the retention period. */
  function OlderDays(days: seq<Day>, cutoff: int, first: int): seq<Day> {
    if days == [] then []
    else OlderDays(Init(days), cutoff, first) + (if IsOlder(Last(days), cutoff, first) then [Last(days)] else [])
  }

  function GapDays(first: int, n: nat): seq<Day> {
    seq(n, i => GapDay(first + i))
  }

  function Cutoff(asOf: nat): int {
    DateOf(asOf) - 89
  }

  function OlderOf(previous: History, current: History): seq<Day> {
    OlderDays(previous.days, Cutoff(current.asOf), DateOf(current.start))
  }

  /** The retained and refreshed days contradict each other where they meet. */
  predicate Disagree(last: Day, first: Day) {
    last.date + 1 == first.date && !Consistent(last, first)
  }

  /** Older days verbatim, unknown days for the gap, then the anchored window. */
  function Joined(older: seq<Day>, current: History): seq<Day>
    requires older != [] && Last(older).date < DateOf(current.start)
  {
    older + GapDays(Last(older).date + 1, DateOf(current.start) - Last(older).date - 1) + current.days
  }

  lemma {:induction false} OlderElements(days: seq<Day>, cutoff: int, first: int)
    ensures forall d :: d in OlderDays(days, cutoff, first) ==> IsOlder(d, cutoff, first) && d in days
    ensures forall d :: d in days && IsOlder(d, cutoff, first) ==> d in OlderDays(days, cutoff, first)
  {
    if days != [] {
      OlderElements(Init(days), cutoff, first);
      assert days == Init(days) + [Last(days)];
    }
  }

  /** In a series of consecutive days the older days are one unbroken stretch. */
  lemma {:induction false} OlderIsSlice(days: seq<Day>, start: int, cutoff: int, first: int) returns (lo: nat, hi: nat)
    requires forall i :: 0 <= i < |days| ==> days[i].date == start + i
    ensures lo <= hi <= |days| && OlderDays(days, cutoff, first) == days[lo..hi]
    ensures lo < hi < |days| ==> days[hi].date >= first
    ensures lo < hi ==> cutoff <= days[lo].date
  {
    if days == [] {
      lo, hi := 0, 0;
    } else {
      var init, n := Init(days), |days| - 1;
      assert days == init + [days[n]] && days[n].date == start + n;
      lo, hi := OlderIsSlice(init, start, cutoff, first);
      if IsOlder(days[n], cutoff, first) {
        if lo == hi {
          lo := n;
        } else {
          assert forall i :: 0 <= i < n ==> init[i].date == start + i;
          assert hi == n;
        }
        hi := n + 1;
        SliceGrows(days, lo, n);
      } else if lo == hi {
        lo, hi := 0, 0;
      } else {
        assert init[lo] == days[lo] && init[lo].date == start + lo;
        assert init[lo..hi] == days[lo..hi];
      }
    }
  }

  lemma {:induction false} SliceGrows<T>(s: seq<T>, lo: nat, n: nat)
    requires lo <= n < |s|
    ensures s[lo..n + 1] == s[..n][lo..n] + [s[n]]
  {
  }

  lemma {:induction false} OlderIsConsecutive(h: History, cutoff: int, first: int)
    requires ValidHistory(h)
    ensures
      var older := OlderDays(h.days, cutoff, first);
      && |older| <= |h.days|
      && (forall i :: 0 <= i < |older| ==> ValidDay(older[i], h.start, h.asOf) && IsOlder(older[i], cutoff, first))
      && (forall i :: 0 <= i < |older| ==> older[i].date == older[0].date + i)
      && (forall i :: 0 < i < |older| ==> Consistent(older[i - 1], older[i]))
  {
    var lo, hi := OlderIsSlice(h.days, DateOf(h.start), cutoff, first);
    var older := OlderDays(h.days, cutoff, first);
    OlderElements(h.days, cutoff, first);
    forall i | 0 <= i < |older|
      ensures ValidDay(older[i], h.start, h.asOf) && IsOlder(older[i], cutoff, first)
      ensures older[i].date == DateOf(h.start) + lo + i
    {
      assert older[i] == h.days[lo + i] && older[i] in older;
      ValidDayOfHistory(h, lo + i);
    }
    SliceAgrees(h, older, lo);
  }

  lemma {:induction false} SliceAgrees(h: History, older: seq<Day>, lo: nat)
    requires ValidHistory(h) && lo + |older| <= |h.days|
    requires forall i :: 0 <= i < |older| ==> older[i] == h.days[lo + i]
    ensures forall i :: 0 < i < |older| ==> Consistent(older[i - 1], older[i])
  {
    forall i | 0 < i < |older| ensures Consistent(older[i - 1], older[i]) {
      assert older[i] == h.days[lo + i] && older[i - 1] == h.days[lo + i - 1];
    }
  }

  /** A day stays valid when the covered interval grows around it. */
  lemma {:induction false} WidenedDayIsValid(d: Day, start: nat, asOf: nat, start': nat, asOf': nat)
    requires ValidDay(d, start, asOf) && asOf <= asOf'
    requires start' <= start || start' <= Midnight(d.date)
    ensures ValidDay(d, start', asOf')
  {
    DatesAreMonotone(asOf, asOf');
    if start' <= start {
      DatesAreMonotone(start', start);
    } else {
      MidnightStart(start', d.date);
    }
    forall i | 0 <= i < |d.activity| ensures ValidActivity(d.activity[i], d.date, start', asOf') {
      var a := d.activity[i];
      assert ValidActivity(a, d.date, start, asOf);
      assert Midnight(DateOf(a.at)) <= a.at;
    }
  }

  lemma {:induction false} MidnightStart(start: nat, date: int)
    requires start <= Midnight(date)
    ensures DateOf(start) <= date
  {
    assert DateOf(start) * DAY_US <= start;
  }

  lemma {:induction false} JoinedDays(older: seq<Day>, current: History)
    requires older != [] && Last(older).date < DateOf(current.start)
    requires forall i :: 0 <= i < |older| ==> older[i].date == older[0].date + i
    requires Consecutive(current)
    ensures
      var days := Joined(older, current);
      var gap := DateOf(current.start) - Last(older).date - 1;
      && |days| == DateOf(current.asOf) - older[0].date + 1
      && (forall i :: 0 <= i < |days| ==> days[i].date == older[0].date + i)
      && (forall i :: 0 <= i < |days| ==>
            days[i] == if i < |older| then older[i]
                       else if i < |older| + gap then GapDay(days[i].date)
                       else current.days[i - |older| - gap])
  {
    var days := Joined(older, current);
    var gap := DateOf(current.start) - Last(older).date - 1;
    assert Last(older).date == older[0].date + |older| - 1;
    assert |GapDays(Last(older).date + 1, gap)| == gap;
    assert |days| == |older| + gap + |current.days|;
    forall i | 0 <= i < |days|
      ensures days[i] == if i < |older| then older[i]
                         else if i < |older| + gap then GapDay(older[0].date + i)
                         else current.days[i - |older| - gap]
      ensures days[i].date == older[0].date + i
    {
      if i >= |older| + gap {
        assert current.days[i - |older| - gap].date == DateOf(current.start) + (i - |older| - gap);
      }
    }
  }

  /** Joining keeps the series valid and within the retention limit: the final check cannot fail. */
  lemma {:induction false} JoinedIsValid(previous: History, current: History)
    requires ValidHistory(previous) && ValidHistory(current) && previous.asOf <= current.asOf
    requires OlderOf(previous, current) != []
    requires Last(OlderOf(previous, current)).date < DateOf(current.start)
    requires !Disagree(Last(OlderOf(previous, current)), current.days[0])
    ensures OlderOf(previous, current)[0].date >= 0
    ensures
      var older := OlderOf(previous, current);
      var joined := History(Midnight(older[0].date), current.asOf, Joined(older, current));
      ValidHistory(joined) && |joined.days| <= 90
  {
    var older := OlderOf(previous, current);
    OlderIsConsecutive(previous, Cutoff(current.asOf), DateOf(current.start));
    JoinedDays(older, current);
    var days := Joined(older, current);
    var start := Midnight(older[0].date);
    assert DateOf(start) == older[0].date;
    JoinedSpan(older[0].date, current.start, current.asOf);
    forall i | 0 <= i < |days| ensures ValidDay(days[i], start, current.asOf) {
      JoinedDayIsValid(previous, current, older, i);
    }
    forall i | 0 < i < |days| ensures Consistent(days[i - 1], days[i]) {
      JoinedNeighboursAgree(previous, current, older, i);
    }
  }

  lemma {:induction false} JoinedSpan(date: int, start: nat, asOf: nat)
    requires Cutoff(asOf) <= date < DateOf(start) && start < asOf && 0 <= date
    ensures Midnight(date) < start < asOf && asOf - Midnight(date) <= 90 * DAY_US
    ensures 1 <= DateOf(asOf) - date + 1 <= 90
  {
    DatesAreMonotone(start, asOf);
    assert asOf < (DateOf(asOf) + 1) * DAY_US;
  }

  lemma {:induction false} JoinedDayIsValid(previous: History, current: History, older: seq<Day>, i: nat)
    requires ValidHistory(previous) && ValidHistory(current) && previous.asOf <= current.asOf
    requires older == OlderOf(previous, current) && older != [] && Last(older).date < DateOf(current.start)
    requires i < |Joined(older, current)| && 0 <= older[0].date
    ensures ValidDay(Joined(older, current)[i], Midnight(older[0].date), current.asOf)
  {
    OlderIsConsecutive(previous, Cutoff(current.asOf), DateOf(current.start));
    JoinedDays(older, current);
    JoinedSpan(older[0].date, current.start, current.asOf);
    var day := Joined(older, current)[i];
    var gap := DateOf(current.start) - Last(older).date - 1;
    var start := Midnight(older[0].date);
    if i < |older| {
      MidnightOfLater(older[0].date, day.date);
      WidenedDayIsValid(day, previous.start, previous.asOf, start, current.asOf);
    } else if i >= |older| + gap {
      ValidDayOfHistory(current, i - |older| - gap);
      WidenedDayIsValid(day, current.start, current.asOf, start, current.asOf);
    } else {
      assert DateOf(start) == older[0].date;
      assert day == GapDay(older[0].date + i);
    }
  }

  lemma {:induction false} JoinedNeighboursAgree(previous: History, current: History, older: seq<Day>, i: nat)
    requires ValidHistory(previous) && ValidHistory(current)
    requires older == OlderOf(previous, current) && older != [] && Last(older).date < DateOf(current.start)
    requires !Disagree(Last(older), current.days[0])
    requires 0 < i < |Joined(older, current)|
    ensures Consistent(Joined(older, current)[i - 1], Joined(older, current)[i])
  {
    OlderIsConsecutive(previous, Cutoff(current.asOf), DateOf(current.start));
    JoinedDays(older, current);
    var days := Joined(older, current);
    var gap := DateOf(current.start) - Last(older).date - 1;
    if i < |older| {
      assert Consistent(older[i - 1], older[i]);
    } else if i == |older| && gap == 0 {
      assert days[i] == current.days[0] && days[i - 1] == Last(older);
    } else if i > |older| + gap {
      assert Consistent(current.days[i - |older| - gap - 1], current.days[i - |older| - gap]);
    }
  }

  /** The retention check where the kept and the refreshed days meet. */
  predicate Conflicts(previous: History, anchored: History)
    requires anchored.days != []
  {
    var older := OlderOf(previous, anchored);
    older != [] && Disagree(Last(older), anchored.days[0])
  }

  /** What a merge must return once the window is anchored and nothing conflicts. */
  ghost predicate IsMerge(previous: History, anchored: History, merged: History) {
    var older := OlderOf(previous, anchored);
    if older == [] then merged == anchored
    else
      && merged.asOf == anchored.asOf
      && merged.start == Midnight(older[0].date)
      && Last(older).date < DateOf(anchored.start)
      && merged.days == Joined(older, anchored)
  }

  /**
   The days of a merge: every retained day from 89 days before the capture day up to the window, verbatim, unknown days
   where nothing was retained in between, and the window.
   */
  lemma {:induction false} MergedDaysAre(previous: History, anchored: History, merged: History)
    requires ValidHistory(previous) && ValidHistory(anchored) && IsMerge(previous, anchored, merged)
    ensures |merged.days| >= |anchored.days| && merged.asOf == anchored.asOf
    ensures merged.days[|merged.days| - |anchored.days|..] == anchored.days
    ensures
      forall day :: day in previous.days && DateOf(anchored.asOf) - 89 <= day.date < DateOf(anchored.start) ==>
        day in merged.days[..|merged.days| - |anchored.days|]
    ensures
      forall day :: day in merged.days[..|merged.days| - |anchored.days|] ==>
        || (day in previous.days && DateOf(anchored.asOf) - 89 <= day.date < DateOf(anchored.start))
        || day == Day(day.date, None, None, false, [])
  {
    var older := OlderOf(previous, anchored);
    OlderElements(previous.days, Cutoff(anchored.asOf), DateOf(anchored.start));
    if older == [] {
      assert merged.days[0..] == anchored.days && merged.days[..0] == [];
    } else {
      var gap := GapDays(Last(older).date + 1, DateOf(anchored.start) - Last(older).date - 1);
      var before := older + gap;
      assert merged.days == before + anchored.days;
      assert merged.days[..|before|] == before && merged.days[|before|..] == anchored.days;
      forall day | day in gap ensures day == Day(day.date, None, None, false, []) {
        var j :| 0 <= j < |gap| && gap[j] == day;
        assert gap[j] == GapDay(Last(older).date + 1 + j);
      }
    }
  }

  /** The closed eve of the window and the wallet changes since account for every day of the merged window. */
  ghost predicate CarriedFromEve(previous: History, current: History, eve: nat, window: seq<Day>)
    requires eve < |previous.days| && |window| == |current.days|
  {
    && previous.days[eve].balance.Some?
    && forall i :: 0 <= i < |window| ==>
         && window[i].balance == Some(previous.days[eve].balance.value + MovementBetween(current.days, -1, i))
         && window[i].change == Some(Movement(window[i].activity))
  }

  /** Whatever closed record of the eve was retained. */
  ghost predicate FollowsEve(previous: History, current: History, window: seq<Day>)
    requires |window| == |current.days|
  {
    forall eve: nat :: eve < |previous.days| && ClosedOn(previous, eve, DateOf(current.start) - 1) ==>
      CarriedFromEve(previous, current, eve, window)
  }

  lemma {:induction false} EveCarriesWindow(previous: History, current: History, eve: nat)
    requires ValidHistory(previous) && Consecutive(current) && FillDays(previous, current, |current.days|).Ok?
    requires ClosedOn(previous, eve, DateOf(current.start) - 1)
    ensures |FillDays(previous, current, |current.days|).value| == |current.days|
    ensures CarriedFromEve(previous, current, eve, FillDays(previous, current, |current.days|).value)
  {
    var n := |current.days|;
    FillPrefix(previous, current, n, n);
    forall i | 0 <= i < n
      ensures
        var day := FillDays(previous, current, n).value[i];
        && day.balance == Some(previous.days[eve].balance.value + MovementBetween(current.days, -1, i))
        && day.change == Some(Movement(day.activity))
    {
      EveCarriesForward(previous, current, eve, n, i);
      ObservationsAreKept(previous, current, n, i);
    }
  }

  /** The capture contradicts the closed eve of its window. */
  ghost predicate EveContradicted(previous: History, current: History) {
    exists eve: nat, i: nat ::
      && eve < |previous.days| && i < |current.days| && ClosedOn(previous, eve, DateOf(current.start) - 1)
      && ContradictsEve(previous, current, eve, i)
  }

  lemma {:induction false} WindowFollowsEve(previous: History, current: History)
    requires ValidHistory(previous) && Consecutive(current) && FillDays(previous, current, |current.days|).Ok?
    ensures |FillDays(previous, current, |current.days|).value| == |current.days|
    ensures FollowsEve(previous, current, FillDays(previous, current, |current.days|).value)
  {
    FillPrefix(previous, current, |current.days|, |current.days|);
    forall eve: nat | eve < |previous.days| && ClosedOn(previous, eve, DateOf(current.start) - 1)
      ensures CarriedFromEve(previous, current, eve, FillDays(previous, current, |current.days|).value)
    {
      EveCarriesWindow(previous, current, eve);
    }
  }

  lemma {:induction false} ContradictedEveRefuses(previous: History, current: History)
    requires ValidHistory(previous)
    ensures Consecutive(current) && EveContradicted(previous, current) ==>
      FillDays(previous, current, |current.days|).Err?
  {
    if Consecutive(current) && EveContradicted(previous, current) {
      var eve: nat, i: nat :|
        && eve < |previous.days| && i < |current.days| && ClosedOn(previous, eve, DateOf(current.start) - 1)
        && ContradictsEve(previous, current, eve, i);
      EveRefuses(previous, current, eve, i);
    }
  }

  /** Appends unknown days until the window starts. */
  method FillGap(older: seq<Day>, first: int) returns (days: seq<Day>)
    requires older != [] && Last(older).date < first
    ensures days == older + GapDays(Last(older).date + 1, first - Last(older).date - 1)
  {
    days := older;
    var gap := Last(older).date + 1;
    while gap < first
      invariant Last(older).date + 1 <= gap <= first
      invariant days == older + GapDays(Last(older).date + 1, gap - Last(older).date - 1)
    {
      days := days + [GapDay(gap)];
      gap := gap + 1;
    }
  }

  /** Joins an anchored window to the retained days. The closing validation always passes. */
  method JoinOlder(previous: History, anchored: History) returns (r: Result<History, RetentionError>)
    requires ValidHistory(previous) && ValidHistory(anchored) && previous.asOf <= anchored.asOf
    ensures Conflicts(previous, anchored) ==> r == Err(HistoriesDisagree)
    ensures !Conflicts(previous, anchored) ==> r.Ok? && IsMerge(previous, anchored, r.value) && ValidHistory(r.value)
  {
    var first := anchored.days[0];
    var older := OlderDays(previous.days, Cutoff(anchored.asOf), first.date);
    assert older == OlderOf(previous, anchored);
    if older == [] {
      return Ok(anchored);
    }
    OlderIsConsecutive(previous, Cutoff(anchored.asOf), first.date);
    var last := Last(older);
    if last.date + 1 == first.date && last.balance.Some? && first.balance.Some? && first.change.Some?
       && last.balance.value + first.change.value != first.balance.value
    {
      return Err(HistoriesDisagree);
    }
    JoinedIsValid(previous, anchored);
    var days := FillGap(older, first.date);
    var result := History(Midnight(older[0].date), anchored.asOf, days + anchored.days);
    assert result.days == Joined(older, anchored);
    var ok := ValidateBalanceHistory(result);
    if !ok {
      return Err(InvalidSeries);
    }
    return Ok(result);
  }

  /** The capture moved backwards, cannot be anchored to a valid series, or contradicts the retained days. */
  ghost predicate Refused(previous: History, current: History) {
    || current.asOf < previous.asOf
    || FillDays(previous, current, |current.days|).Err?
    || var anchored := current.(days := FillDays(previous, current, |current.days|).value);
       !ValidHistory(anchored) || Conflicts(previous, anchored)
  }

  /**
   Joins a capture to the retained series: it fails exactly when the capture moved backwards,
   cannot be anchored, or contradicts the retained days, and its result is always valid.
   */
  method Merge(previous: Option<History>, current: History) returns (r: Result<History, RetentionError>)
    requires previous.Some? ==> ValidHistory(previous.value)
    ensures r.Err? <==> previous.Some? && Refused(previous.value, current)
    ensures r.Ok? && previous.Some? ==> ValidHistory(r.value) && r.value.asOf == current.asOf
    ensures previous.None? ==> r == Ok(current)
    ensures previous.Some? && current.asOf < previous.value.asOf ==> r == Err(CaptureMovedBackwards)
    ensures previous.Some? && previous.value.asOf <= current.asOf ==>
              var filled := FillDays(previous.value, current, |current.days|);
              if filled.Err? || !ValidHistory(current.(days := filled.value)) then r.Err?
              else
                var anchored := current.(days := filled.value);
                if Conflicts(previous.value, anchored) then r == Err(HistoriesDisagree)
                else r.Ok? && IsMerge(previous.value, anchored, r.value) && ValidHistory(r.value)
    ensures previous.Some? && Consecutive(current) && EveContradicted(previous.value, current) ==> r.Err?
    ensures previous.Some? && Consecutive(current) && r.Ok? ==>
              && |r.value.days| >= |current.days|
              && FollowsEve(previous.value, current, r.value.days[|r.value.days| - |current.days|..])
  {
    if previous.None? {
      return Ok(current);
    }
    if current.asOf < previous.value.asOf {
      return Err(CaptureMovedBackwards);
    }
    ContradictedEveRefuses(previous.value, current);
    var window := AnchoredWindow(previous.value, current);
    if window.Err? {
      return window;
    }
    r := JoinOlder(previous.value, window.value);
    if r.Ok? && Consecutive(current) {
      MergedDaysAre(previous.value, window.value, r.value);
      WindowFollowsEve(previous.value, current);
    }
  }

  // ----- the public window

  /** The days on or after a date. */
  function Since(days: seq<Day>, date: int): seq<Day> {
    if days == [] then [] else (if days[0].date >= date then [days[0]] else []) + Since(days[1..], date)
  }

  /** What a capture covers: one record a day, from the midnight thirty days before it. */
  ghost predicate Fetched(h: History) {
    Consecutive(h) && h.start < h.asOf && h.start == Midnight(DateOf(h.asOf) - 30)
  }

  function PublicWindow(h: History): History
    requires ValidHistory(h) || Fetched(h)
  {
    SinceIsSuffix(h.days, DateOf(h.start), DateOf(h.asOf) - 30);
    DatesAreMonotone(h.start, h.asOf);
    var days := Since(h.days, DateOf(h.asOf) - 30);
    var midnight := Midnight(days[0].date);
    h.(start := if midnight > h.start then midnight else h.start, days := days)
  }

  /** A fresh capture fits the public window as it is. */
  lemma {:induction false} FetchedIsPublic(h: History)
    requires Fetched(h)
    ensures PublicWindow(h) == h
  {
    SinceIsSuffix(h.days, DateOf(h.start), DateOf(h.asOf) - 30);
    DatesAreMonotone(h.start, h.asOf);
    assert DateOf(h.start) == DateOf(h.asOf) - 30;
    assert h.days[0..] == h.days;
  }

  lemma {:induction false} SinceIsSuffix(days: seq<Day>, start: int, date: int)
    requires forall i :: 0 <= i < |days| ==> days[i].date == start + i
    ensures
      var k := if date <= start then 0 else if date >= start + |days| then |days| else date - start;
      Since(days, date) == days[k..]
  {
    if days != [] {
      SinceIsSuffix(days[1..], start + 1, date);
    }
  }

  /** The published window is valid, verbatim, and holds the last 31 days at most. */
  lemma {:induction false} PublicWindowIsValid(h: History)
    requires ValidHistory(h)
    ensures ValidHistory(PublicWindow(h))
    ensures |PublicWindow(h).days| == if |h.days| <= 31 then |h.days| else 31
    ensures PublicWindow(h).days == h.days[|h.days| - |PublicWindow(h).days|..]
    ensures PublicWindow(h).start
         == if h.asOf / DAY_US - 30 > h.start / DAY_US then (h.asOf / DAY_US - 30) * DAY_US else h.start
    ensures PublicWindow(h).asOf == h.asOf
  {
    var w := PublicWindow(h);
    SinceIsSuffix(h.days, DateOf(h.start), DateOf(h.asOf) - 30);
    var k := |h.days| - |w.days|;
    ValidDayOfHistory(h, k);
    assert w.days[0] == h.days[k];
    WindowStart(h, w.days[0].date);
    forall i | 0 <= i < |w.days|
      ensures ValidDay(w.days[i], w.start, w.asOf) && w.days[i].date == DateOf(w.start) + i
    {
      ValidDayOfHistory(h, k + i);
      MidnightOfLater(w.days[0].date, w.days[i].date);
      WidenedDayIsValid(h.days[k + i], h.start, h.asOf, w.start, w.asOf);
    }
    forall i | 0 < i < |w.days| ensures Consistent(w.days[i - 1], w.days[i]) {
      assert Consistent(h.days[k + i - 1], h.days[k + i]);
    }
  }

  lemma {:induction false} WindowStart(h: History, date: int)
    requires ValidHistory(h) && DateOf(h.start) <= date <= DateOf(h.asOf)
    ensures
      var start := if Midnight(date) > h.start then Midnight(date) else h.start;
      DateOf(start) == date && h.start <= start <= h.asOf
  {
    assert DateOf(h.start) * DAY_US <= h.start < (DateOf(h.start) + 1) * DAY_US;
    assert DateOf(h.asOf) * DAY_US <= h.asOf < (DateOf(h.asOf) + 1) * DAY_US;
    if Midnight(date) > h.start {
      assert DateOf(Midnight(date)) == date;
    }
  }

  // ----- one refresh of the published feed

  datatype Feed = Feed(refreshFailed: bool, history: Option<History>)

  /**
   One refresh: whatever the capture brings, the published window is valid, and a failed refresh
   publishes the old series under its old timestamp and leaves the retained series alone.
   */
  method CollectFeed(previous: Option<History>, capture: Option<History>, fits: bool)
    returns (feed: Feed, retained: Option<History>)
    requires previous.Some? ==> ValidHistory(previous.value)
    requires capture.Some? ==> Fetched(capture.value)
    ensures retained.Some? ==> ValidHistory(retained.value)
    ensures feed.history == if retained.Some? then Some(PublicWindow(retained.value)) else None
    ensures feed.history.Some? ==> ValidHistory(feed.history.value)
    ensures feed.refreshFailed <==>
              capture.None? || !fits
              || (if previous.Some? then Refused(previous.value, capture.value) else !ValidHistory(capture.value))
    ensures feed.refreshFailed ==> retained == previous
    ensures !feed.refreshFailed ==> capture.Some? && retained.Some? && retained.value.asOf == capture.value.asOf
    ensures !feed.refreshFailed && previous.None? ==> retained == capture
    ensures !feed.refreshFailed && previous.Some? ==>
              var filled := FillDays(previous.value, capture.value, |capture.value.days|);
              && previous.value.asOf <= capture.value.asOf && filled.Ok?
              && IsMerge(previous.value, capture.value.(days := filled.value), retained.value)
  {
    var published := if previous.Some? then Some(PublicWindow(previous.value)) else None;
    if previous.Some? { PublicWindowIsValid(previous.value); }
    feed, retained := Feed(true, published), previous;
    if capture.None? {
      return;
    }
    var merged := Merge(previous, capture.value);
    if merged.Err? {
      return;
    }
    if previous.None? { FetchedIsPublic(capture.value); } else { PublicWindowIsValid(merged.value); }
    var public := PublicWindow(merged.value);
    var valid := ValidateBalanceHistory(public);
    if !valid || !fits {
      return;
    }
    feed, retained := Feed(false, Some(public)), Some(merged.value);
  }
}
