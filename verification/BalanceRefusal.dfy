/** When a fresh capture is refused: exactly when it loses a closed day's activity or contradicts a closed balance. */
module BalanceRefusal {
  import opened Wrappers
  import opened Sequences
  import opened BalanceHistory
  import opened BalanceCache

  /** The day before day `i` is closed at this balance: the eve in the retained series, a later one as it was filled. */
  ghost predicate ClosesBefore(previous: History, current: History, i: nat, balance: real)
    requires i <= |current.days|
  {
    if i == 0 then
      exists k: nat :: ClosedOn(previous, k, DateOf(current.start) - 1) && previous.days[k].balance == Some(balance)
    else
      var filled := FillDays(previous, current, i);
      filled.Ok? && |filled.value| == i && filled.value[i - 1].complete && filled.value[i - 1].balance == Some(balance)
  }

  /** The balance the day was captured at, or else that of the retained closed record of its date. */
  ghost predicate Known(previous: History, day: Day, balance: real) {
    || day.balance == Some(balance)
    || (day.balance.None?
        && exists k: nat :: ClosedOn(previous, k, day.date) && previous.days[k].balance == Some(balance))
  }

  /** A day without a balance, retained as closed with other activity. */
  ghost predicate Loses(previous: History, day: Day) {
    day.balance.None? && exists k: nat :: ClosedOn(previous, k, day.date) && previous.days[k].activity != day.activity
  }

  /** What is known of the day is not the closed balance before it plus its own movement. */
  ghost predicate Contradicts(previous: History, current: History, i: nat)
    requires i < |current.days|
  {
    exists before, known ::
      && ClosesBefore(previous, current, i, before) && Known(previous, current.days[i], known)
      && known != before + Movement(current.days[i].activity)
  }

  // ----- one day

  lemma {:induction false} RetainedClosed(previous: History, date: int)
    requires ValidHistory(previous)
    ensures Lookup(previous, date).Some? && Lookup(previous, date).value.complete
            <==> exists k: nat :: ClosedOn(previous, k, date)
    ensures forall k: nat :: ClosedOn(previous, k, date) ==> Lookup(previous, date) == Some(previous.days[k])
  {
    if Lookup(previous, date).Some? && Lookup(previous, date).value.complete {
      var i := date - DateOf(previous.start);
      assert ClosedOn(previous, i, date);
    }
  }

  lemma {:induction false} ObservedLoses(previous: History, day: Day)
    requires ValidHistory(previous)
    ensures ObservedDay(day, Lookup(previous, day.date)).Err? <==> Loses(previous, day)
  {
    RetainedClosed(previous, day.date);
  }

  lemma {:induction false} ObservedIsKnown(previous: History, day: Day, balance: real)
    requires ValidHistory(previous) && ObservedDay(day, Lookup(previous, day.date)).Ok?
    ensures
      var observed := ObservedDay(day, Lookup(previous, day.date)).value;
      observed.balance == Some(balance) && observed.activity == day.activity <==> Known(previous, day, balance)
  {
    RetainedClosed(previous, day.date);
  }

  lemma {:induction false} AnchorCloses(previous: History, current: History, i: nat, balance: real)
    requires ValidHistory(previous) && Consecutive(current) && i <= |current.days|
    requires FillDays(previous, current, i).Ok?
    ensures AnchorAfter(previous, current, FillDays(previous, current, i).value) == Some(balance)
            <==> ClosesBefore(previous, current, i, balance)
  {
    FillPrefix(previous, current, i, i);
    RetainedClosed(previous, DateOf(current.start) - 1);
  }

  /** The fill of one more day fails exactly where it loses activity or contradicts the day before. */
  lemma {:induction false} DayRefuses(previous: History, current: History, i: nat)
    requires ValidHistory(previous) && Consecutive(current) && i < |current.days|
    requires FillDays(previous, current, i).Ok?
    ensures FillDays(previous, current, i + 1).Err?
            <==> Loses(previous, current.days[i]) || Contradicts(previous, current, i)
  {
    var day := current.days[i];
    var anchor := AnchorAfter(previous, current, FillDays(previous, current, i).value);
    var observed := ObservedDay(day, Lookup(previous, day.date));
    ObservedLoses(previous, day);
    forall balance: real
      ensures anchor == Some(balance) <==> ClosesBefore(previous, current, i, balance)
      ensures observed.Ok? ==>
                (observed.value.balance == Some(balance) && observed.value.activity == day.activity
                 <==> Known(previous, day, balance))
    {
      AnchorCloses(previous, current, i, balance);
      if observed.Ok? { ObservedIsKnown(previous, day, balance); }
    }
    if observed.Ok? && anchor.Some? && observed.value.balance.Some? {
      assert ClosesBefore(previous, current, i, anchor.value) && Known(previous, day, observed.value.balance.value);
    }
  }

  ghost predicate Refuses(previous: History, current: History, i: nat)
    requires i < |current.days|
  {
    Loses(previous, current.days[i]) || Contradicts(previous, current, i)
  }

  lemma {:induction false} RefusesNext(previous: History, current: History, n: nat)
    requires n < |current.days|
    ensures (exists i: nat :: i < n + 1 && Refuses(previous, current, i))
            <==> (exists i: nat :: i < n && Refuses(previous, current, i)) || Refuses(previous, current, n)
  {
  }

  /**
   The window cannot be anchored if and only if some day loses the activity of a retained closed day, or is known at
   another balance than the closed one before it and its own movement account for.
   */
  lemma {:induction false} RefusedExactlyWhen(previous: History, current: History, n: nat)
    requires ValidHistory(previous) && Consecutive(current) && n <= |current.days|
    ensures FillDays(previous, current, n).Err? <==> exists i: nat :: i < n && Refuses(previous, current, i)
  {
    if n > 0 {
      RefusedExactlyWhen(previous, current, n - 1);
      RefusesNext(previous, current, n - 1);
      if FillDays(previous, current, n - 1).Ok? {
        DayRefuses(previous, current, n - 1);
      }
    }
  }

  // ----- the seam

  /** A retained day right before the window, recent enough to be kept. */
  ghost predicate AtSeam(previous: History, anchored: History, k: nat)
    requires anchored.days != []
  {
    && k < |previous.days| && previous.days[k].date == anchored.days[0].date - 1
    && previous.days[k].date >= anchored.asOf / 86_400_000_000 - 89
  }

  /** The seam check fails if and only if such a day and the change of the window's first day do not add up. */
  lemma {:induction false} SeamConflictsExactlyWhen(previous: History, anchored: History)
    requires ValidHistory(previous) && ValidHistory(anchored) && previous.asOf <= anchored.asOf
    ensures
      var first := anchored.days[0];
      Conflicts(previous, anchored) <==>
        exists k: nat ::
          && AtSeam(previous, anchored, k)
          && previous.days[k].balance.Some? && first.balance.Some? && first.change.Some?
          && previous.days[k].balance.value + first.change.value != first.balance.value
  {
    var older := OlderOf(previous, anchored);
    if older != [] && Last(older).date + 1 == anchored.days[0].date {
      var k := LastOlder(previous, anchored);
    }
    forall k: nat | AtSeam(previous, anchored, k)
      ensures older != [] && Last(older) == previous.days[k]
    {
      SeamIsLast(previous, anchored, k);
    }
  }

  lemma {:induction false} LastOlder(previous: History, anchored: History) returns (k: nat)
    requires ValidHistory(previous) && ValidHistory(anchored) && OlderOf(previous, anchored) != []
    requires Last(OlderOf(previous, anchored)).date + 1 == anchored.days[0].date
    ensures AtSeam(previous, anchored, k) && previous.days[k] == Last(OlderOf(previous, anchored))
  {
    var older := OlderOf(previous, anchored);
    OlderElements(previous.days, Cutoff(anchored.asOf), DateOf(anchored.start));
    assert Last(older) in older;
    k :| 0 <= k < |previous.days| && previous.days[k] == Last(older);
  }

  lemma {:induction false} SeamIsLast(previous: History, anchored: History, k: nat)
    requires ValidHistory(previous) && ValidHistory(anchored) && AtSeam(previous, anchored, k)
    ensures OlderOf(previous, anchored) != [] && Last(OlderOf(previous, anchored)) == previous.days[k]
  {
    var older := OlderOf(previous, anchored);
    OlderIsConsecutive(previous, Cutoff(anchored.asOf), DateOf(anchored.start));
    OlderElements(previous.days, Cutoff(anchored.asOf), DateOf(anchored.start));
    assert previous.days[k] in previous.days && previous.days[k] in older;
    var i :| 0 <= i < |older| && older[i] == previous.days[k];
    assert older[|older| - 1].date == older[0].date + |older| - 1;
  }
}
