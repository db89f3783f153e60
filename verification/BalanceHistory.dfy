/**
 The public balance series and its independent validator.
 Instants are microseconds since the epoch and dates are day numbers, both UTC.
 */
module BalanceHistory {
  import opened Wrappers

  const DAY_US: int := 86_400_000_000
  const MAX_ACTIVITIES: int := 10_000

  datatype Activity = Activity(
    at: nat,
    kind: string,
    category: string,
    symbol: string,
    side: string,
    quantity: real,
    price: real,
    cashFlow: real,
    fee: real,
    funding: real,
    walletChange: real)

  datatype Day = Day(
    date: int,
    balance: Option<real>,
    change: Option<real>,
    complete: bool,
    activity: seq<Activity>)

  datatype History = History(start: nat, asOf: nat, days: seq<Day>)

  function DateOf(instant: nat): int {
    instant / DAY_US
  }

  function Midnight(date: int): int {
    date * DAY_US
  }

  predicate LabelChar(c: char) {
    'A' <= c <= 'Z' || 'a' <= c <= 'z' || '0' <= c <= '9' || c == '_' || c == '-'
  }

  predicate ValidLabel(s: string) {
    |s| <= 80 && forall i :: 0 <= i < |s| ==> LabelChar(s[i])
  }

  predicate ValidSide(s: string) {
    s in {"Buy", "Sell", "None", ""}
  }

  /** The wallet changes of a day, added up. */
  function Movement(activity: seq<Activity>): real {
    if activity == [] then 0.0 else activity[0].walletChange + Movement(activity[1..])
  }

  lemma {:induction false} MovementSnoc(activity: seq<Activity>, a: Activity)
    ensures Movement(activity + [a]) == Movement(activity) + a.walletChange
  {
    if activity == [] {
      assert activity + [a] == [a];
    } else {
      assert (activity + [a])[1..] == activity[1..] + [a];
      MovementSnoc(activity[1..], a);
    }
  }

  predicate ValidActivity(a: Activity, date: int, start: nat, asOf: nat) {
    && DateOf(a.at) == date && start <= a.at <= asOf
    && ValidLabel(a.kind) && ValidLabel(a.category) && ValidLabel(a.symbol)
    && ValidSide(a.side)
    && a.price >= 0.0
    && a.walletChange == a.cashFlow + a.funding - a.fee
  }

  predicate ValidDay(d: Day, start: nat, asOf: nat) {
    && DateOf(start) <= d.date <= DateOf(asOf)
    && (d.balance.None? ==> d.change.None?)
    && (d.complete ==> d.balance.Some? && d.date < DateOf(asOf) && start <= Midnight(d.date))
    && |d.activity| <= MAX_ACTIVITIES
    && (forall i :: 0 <= i < |d.activity| ==> ValidActivity(d.activity[i], d.date, start, asOf))
    && (d.change.Some? ==> d.change.value == Movement(d.activity))
  }

  /** Two neighbouring days do not contradict each other. */
  predicate Consistent(before: Day, after: Day) {
    before.balance.Some? && after.balance.Some? && after.change.Some?
    ==> after.balance.value - before.balance.value == after.change.value
  }

  /** The series has one record a day, from the first covered day to the capture day. */
  predicate Consecutive(h: History) {
    && |h.days| == DateOf(h.asOf) - DateOf(h.start) + 1
    && forall i :: 0 <= i < |h.days| ==> h.days[i].date == DateOf(h.start) + i
  }

  ghost predicate ValidHistory(h: History) {
    && h.start < h.asOf && h.asOf - h.start <= 90 * DAY_US
    && 1 <= |h.days| <= 91
    && Consecutive(h)
    && (forall i :: 0 <= i < |h.days| ==> ValidDay(h.days[i], h.start, h.asOf))
    && (forall i :: 0 < i < |h.days| ==> Consistent(h.days[i - 1], h.days[i]))
  }

  /** One day's checks and the sum over its activity. */
  method CheckDay(d: Day, start: nat, asOf: nat) returns (ok: bool)
    ensures ok <==> ValidDay(d, start, asOf)
  {
    if !(DateOf(start) <= d.date <= DateOf(asOf))
       || (d.balance.None? && d.change.Some?)
       || (d.complete && (d.balance.None? || d.date >= DateOf(asOf) || Midnight(d.date) < start))
       || |d.activity| > MAX_ACTIVITIES
    {
      return false;
    }
    var total := 0.0;
    var i := 0;
    while i < |d.activity|
      invariant 0 <= i <= |d.activity|
      invariant forall j :: 0 <= j < i ==> ValidActivity(d.activity[j], d.date, start, asOf)
      invariant total == Movement(d.activity[..i])
    {
      if !ValidActivity(d.activity[i], d.date, start, asOf) {
        return false;
      }
      assert d.activity[..i + 1] == d.activity[..i] + [d.activity[i]];
      MovementSnoc(d.activity[..i], d.activity[i]);
      total := total + d.activity[i].walletChange;
      i := i + 1;
    }
    assert d.activity[..i] == d.activity;
    return d.change.None? || d.change.value == total;
  }

  /** The validator: a single pass that carries the expected date and the previous balance. */
  method ValidateBalanceHistory(h: History) returns (ok: bool)
    ensures ok <==> ValidHistory(h)
  {
    if !(h.start < h.asOf) || h.asOf - h.start > 90 * DAY_US || !(1 <= |h.days| <= 91) {
      return false;
    }
    var expected := DateOf(h.start);
    var previous: Option<real> := None;
    var i := 0;
    while i < |h.days|
      invariant 0 <= i <= |h.days|
      invariant expected == DateOf(h.start) + i
      invariant previous == if i == 0 then None else h.days[i - 1].balance
      invariant forall j :: 0 <= j < i ==> h.days[j].date == DateOf(h.start) + j
      invariant forall j :: 0 <= j < i ==> ValidDay(h.days[j], h.start, h.asOf)
      invariant forall j :: 0 < j < i ==> Consistent(h.days[j - 1], h.days[j])
    {
      var day := h.days[i];
      var dayOk := CheckDay(day, h.start, h.asOf);
      if !dayOk || day.date != expected {
        return false;
      }
      if previous.Some? && day.balance.Some? && day.change.Some?
         && day.balance.value - previous.value != day.change.value
      {
        assert !Consistent(h.days[i - 1], h.days[i]);
        return false;
      }
      previous := day.balance;
      expected := expected + 1;
      i := i + 1;
    }
    return expected == DateOf(h.asOf) + 1;
  }
}
