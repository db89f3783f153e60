/** What every reconciliation keeps: nothing applied twice, everything backed, nothing lost. */
module AttributionSafety {
  import opened Wrappers
  import opened Sequences
  import opened Attribution

  ghost predicate Distinct<T(!new)>(rows: seq<T>, key: T -> nat) {
    forall i, j :: 0 <= i < j < |rows| ==> key(rows[i]) != key(rows[j])
  }

  /** Same rows, each once, in order of first appearance. */
  ghost predicate Deduplicated<T(!new)>(rows: seq<T>, unique: seq<T>, key: T -> nat) {
    && Distinct(unique, key)
    && (forall x :: x in unique <==> x in rows)
    && (forall x :: x in unique ==> key(x) != 0)
  }

  /** A row without identifier, or two different rows under one identifier, cannot be accepted. */
  ghost predicate Consistent<T(!new)>(rows: seq<T>, key: T -> nat) {
    && (forall x :: x in rows ==> key(x) != 0)
    && (forall x, y :: x in rows && y in rows && key(x) == key(y) ==> x == y)
  }

  /** Rows are accepted exactly when they are consistent, and then lose nothing but repetitions. */
  lemma {:induction false} UniqueRowsAreDistinct<T(!new)>(rows: seq<T>, key: T -> nat)
    ensures Unique(rows, key).Ok? <==> Consistent(rows, key)
    ensures Unique(rows, key).Ok? ==> Deduplicated(rows, Unique(rows, key).value, key)
  {
    if rows != [] {
      var init, row := Init(rows), Last(rows);
      assert rows == init + [row];
      UniqueRowsAreDistinct(init, key);
      if Unique(init, key).Ok? {
        var kept := Unique(init, key).value;
        var found := FindKey(kept, key, key(row));
        if key(row) != 0 && (found.None? || found.value == row) {
          forall x, y | x in rows && y in rows && key(x) == key(y) ensures x == y {
            if found.None? {
              assert forall z :: z in init ==> z in kept;
            }
          }
        }
      }
    }
  }

  // ----- what an applied record stands on

  ghost predicate SameCases(cases: seq<Case>, inputs: seq<Case>) {
    |cases| == |inputs| && forall k :: 0 <= k < |cases| ==> Erased(cases[k]) == Erased(inputs[k])
  }

  ghost predicate AllTrades(fills: seq<Fill>) {
    forall f :: f in fills ==> f.trade
  }

  /** The executions of an action: those of its recorded order, and those under its client link. */
  ghost predicate AllLinked(matched: seq<Fill>, fills: seq<Fill>, a: Action) {
    forall f :: f in matched <==>
      f in fills && f.trade && ((a.orderId != 0 && f.orderId == a.orderId) || f.link == a.link)
  }

  /** The order record behind an execution is silent or agrees about symbol, side and client link. */
  ghost predicate Agrees(o: OrderRecord, c: Case, a: Action) {
    && (o.symbol.None? || o.symbol == Some(c.symbol))
    && (o.sells.None? || o.sells == Some(c.side.Long?))
    && (o.link == 0 || o.link == a.link)
  }

  /** The executions are closing fills of the action's order and nobody else's. */
  ghost predicate ClosesFor(matched: seq<Fill>, a: Action, orderId: nat) {
    && (a.orderId != 0 ==> orderId == a.orderId)
    && forall f :: f in matched ==>
         f.orderId == orderId && f.symbol == a.symbol && (f.link == 0 || f.link == a.link) && f.qty == f.closed > 0.0
  }

  /** All executions round up to the same minute, which starts before the case ends. */
  ghost predicate OneMinute(matched: seq<Fill>, ts: int, end: int) {
    && (ts + 59_999) / 60_000 * 60_000 < end
    && forall f :: f in matched ==> (f.time + 59_999) / 60_000 == (ts + 59_999) / 60_000
  }

  /**
   The evidence for an applied record: its executions are genuine fills of one filled order, they total its
   quantity, close the case's side and fall inside the case's window, and the event is at the first.
   */
  ghost predicate Evidence(r: Applied, c: Case, matched: seq<Fill>, o: OrderRecord, a: Action) {
    && matched != [] && r.execIds == ExecIds(matched)
    && (forall f :: f in matched ==>
          f.orderId == r.orderId && f.symbol == c.symbol && f.sells == c.side.Long? && f.qty == f.closed > 0.0)
    && ClosesFor(matched, a, r.orderId) && Agrees(o, c, a) && OneMinute(matched, r.event.ts, c.end)
    && (forall f :: f in matched ==> c.start <= f.time < c.end && r.event.ts <= f.time)
    && (exists f :: f in matched && f.time == r.event.ts)
    && o.orderId == r.orderId && o.filled && o.qty == Quantity(matched) == r.qty
    && c.id == r.caseId && c.channel == a.channel && c.symbol == a.symbol
    && (a.expectedSide.None? || a.expectedSide == Some(c.side))
    && r.event == Event(r.event.ts, a.kind, if a.kind.Close? then 100.0 else a.closePct, a.id, a.status)
    && 0.0 < r.event.pct <= 100.0
  }

  ghost predicate Backed(
    r: Applied, inputs: seq<Case>, fills: seq<Fill>, orders: seq<OrderRecord>, actions: seq<Action>)
  {
    exists k: nat, matched: seq<Fill>, o: OrderRecord, a: Action ::
      && k < |inputs| && o in orders && a in actions && AllLinked(matched, fills, a)
      && Evidence(r, Erased(inputs[k]), matched, o, a)
  }

  lemma {:induction false} MatchedFacts(fills: seq<Fill>, a: Action)
    ensures forall f :: f in Matched(fills, a) <==> f in fills && Attributable(f, a)
    ensures forall f :: f in Matched(fills, a) ==>
      Matched(fills, a)[0].time <= f.time <= Matched(fills, a)[|Matched(fills, a)| - 1].time
  {
    var kept := Filter(fills, (f: Fill) => Attributable(f, a));
    var byId := StableSort(kept, (f: Fill) => f.execId);
    FilterElements(fills, (f: Fill) => Attributable(f, a));
    SortPermutes(kept, (f: Fill) => f.execId);
    SortPermutes(byId, (f: Fill) => f.time);
    SortOrders(byId, (f: Fill) => f.time);
    EndsOfSorted(Matched(fills, a), (f: Fill) => f.time);
  }

  lemma {:induction false} EndsOfSorted<T>(s: seq<T>, key: T -> int)
    requires SortedBy(s, key)
    ensures forall x :: x in s ==> key(s[0]) <= key(x) <= key(s[|s| - 1])
  {
    forall x | x in s ensures key(s[0]) <= key(x) <= key(s[|s| - 1]) {
      var i :| 0 <= i < |s| && s[i] == x;
      assert i == 0 || key(s[0]) <= key(s[i]);
      assert i == |s| - 1 || key(s[i]) <= key(s[|s| - 1]);
    }
  }

  lemma {:induction false} LinkedAreMatched(fills: seq<Fill>, a: Action)
    requires AllTrades(fills)
    ensures AllLinked(Matched(fills, a), fills, a)
  {
    MatchedFacts(fills, a);
  }

  lemma {:induction false} MatchedCloses(fills: seq<Fill>, a: Action)
    requires Matched(fills, a) != [] && OneOrder(Matched(fills, a), a)
    requires forall f :: f in Matched(fills, a) ==> ClosingFill(f, a)
    ensures ClosesFor(Matched(fills, a), a, Matched(fills, a)[0].orderId)
  {
  }

  /** Between the first and the last time everything rounds up to their common minute. */
  lemma {:induction false} BetweenIsOneMinute(matched: seq<Fill>, first: int, last: int, end: int)
    requires forall f :: f in matched ==> first <= f.time <= last
    requires Minute(first) == Minute(last) && Minute(first) * 60_000 < end
    ensures OneMinute(matched, first, end)
  {
  }

  /** Everything the checks establish about an execution that is applied. */
  lemma {:induction false} AppliedHasEvidence(
    fills: seq<Fill>, orders: seq<OrderRecord>, c: Case, a: Action, event: Event)
    returns (o: OrderRecord)
    requires Matched(fills, a) != [] && OneOrder(Matched(fills, a), a) && IsCandidate(c, a)
    requires forall f :: f in Matched(fills, a) ==> ClosingFill(f, a)
    requires Judge(c, a, Matched(fills, a), orders) == Ok(Apply(event))
    ensures o in orders && Evidence(Record(c, a, Matched(fills, a), event), c, Matched(fills, a), o, a)
  {
    var matched := Matched(fills, a);
    MatchedFacts(fills, a);
    MatchedCloses(fills, a);
    o := FindOrder(orders, matched[0].orderId).value;
    assert matched[0] in matched;
    BetweenIsOneMinute(matched, matched[0].time, matched[|matched| - 1].time, c.end);
    assert Agrees(o, c, a);
  }

  // ----- the injectivity of what is applied

  ghost predicate OrdersClaimed(applied: seq<Applied>, claimed: set<nat>) {
    && (forall i :: 0 <= i < |applied| ==> applied[i].orderId in claimed)
    && (forall i, j :: 0 <= i < j < |applied| ==> applied[i].orderId != applied[j].orderId)
  }

  ghost predicate Among(actions: seq<Action>, n: nat, id: nat)
    requires n <= |actions|
  {
    exists k :: 0 <= k < n && actions[k].id == id
  }

  ghost predicate ActionsOnce(applied: seq<Applied>, actions: seq<Action>, n: nat)
    requires n <= |actions|
  {
    && (forall i :: 0 <= i < |applied| ==> Among(actions, n, applied[i].event.actionId))
    && (forall i, j :: 0 <= i < j < |applied| ==> applied[i].event.actionId != applied[j].event.actionId)
  }

  /** Every case holds exactly the events applied to it, in the order they were applied. */
  function EventsFor(applied: seq<Applied>, caseId: nat): seq<Event> {
    if applied == [] then []
    else EventsFor(Init(applied), caseId) + (if Last(applied).caseId == caseId then [Last(applied).event] else [])
  }

  ghost predicate EventsFiled(cases: seq<Case>, applied: seq<Applied>) {
    forall k :: 0 <= k < |cases| ==> cases[k].actions == EventsFor(applied, cases[k].id)
  }

  ghost predicate AllBacked(
    applied: seq<Applied>, inputs: seq<Case>, fills: seq<Fill>, orders: seq<OrderRecord>, actions: seq<Action>)
  {
    forall i :: 0 <= i < |applied| ==> Backed(applied[i], inputs, fills, orders, actions)
  }

  ghost predicate DistinctCases(cases: seq<Case>) {
    forall i, j :: 0 <= i < j < |cases| ==> cases[i].id != cases[j].id
  }

  /** The state of the loop after the first `n` actions. */
  ghost predicate Consistently(
    cases: seq<Case>, audit: Audit, claimed: set<nat>, n: nat,
    inputs: seq<Case>, fills: seq<Fill>, orders: seq<OrderRecord>, actions: seq<Action>)
    requires n <= |actions|
  {
    && SameCases(cases, inputs)
    && OrdersClaimed(audit.applied, claimed)
    && ActionsOnce(audit.applied, actions, n)
    && EventsFiled(cases, audit.applied)
    && AllBacked(audit.applied, inputs, fills, orders, actions)
  }

  lemma {:induction false} FileEvent(cases: seq<Case>, applied: seq<Applied>, k: nat, r: Applied)
    requires DistinctCases(cases) && EventsFiled(cases, applied) && k < |cases| && r.caseId == cases[k].id
    ensures EventsFiled(cases[k := cases[k].(actions := cases[k].actions + [r.event])], applied + [r])
  {
    InitSnoc(applied, r);
    var after := cases[k := cases[k].(actions := cases[k].actions + [r.event])];
    forall j | 0 <= j < |after| ensures after[j].actions == EventsFor(applied + [r], after[j].id) {
      if j < k {
        assert cases[j].id != cases[k].id;
      } else if j > k {
        assert cases[k].id != cases[j].id;
      }
    }
  }

  lemma {:induction false} AmongMore(actions: seq<Action>, n: nat, id: nat)
    requires n < |actions|
    ensures Among(actions, n + 1, id) <==> Among(actions, n, id) || actions[n].id == id
  {
  }

  lemma {:induction false} SkipOnce(applied: seq<Applied>, actions: seq<Action>, n: nat)
    requires n < |actions| && ActionsOnce(applied, actions, n)
    ensures ActionsOnce(applied, actions, n + 1)
  {
    forall i | 0 <= i < |applied| ensures Among(actions, n + 1, applied[i].event.actionId) {
      AmongMore(actions, n, applied[i].event.actionId);
    }
  }

  lemma {:induction false} ApplyOnce(applied: seq<Applied>, actions: seq<Action>, n: nat, r: Applied)
    requires n < |actions| && ActionsOnce(applied, actions, n) && r.event.actionId == actions[n].id
    requires Distinct(actions, (a: Action) => a.id)
    ensures ActionsOnce(applied + [r], actions, n + 1)
  {
    var id := (a: Action) => a.id;
    SkipOnce(applied, actions, n);
    AmongMore(actions, n, r.event.actionId);
    forall i | 0 <= i < |applied| ensures applied[i].event.actionId != r.event.actionId {
      assert Among(actions, n, applied[i].event.actionId);
      var k :| 0 <= k < n && actions[k].id == applied[i].event.actionId;
      assert id(actions[k]) != id(actions[n]);
    }
  }

  // ----- executions are shared by no two records

  /** Two records of different orders share no execution, since an execution belongs to one order. */
  lemma {:induction false} NoSharedExecutions(
    applied: seq<Applied>, claimed: set<nat>, inputs: seq<Case>, fills: seq<Fill>, orders: seq<OrderRecord>,
    actions: seq<Action>,
    i: nat, j: nat, e: nat)
    requires Distinct(fills, (f: Fill) => f.execId)
    requires OrdersClaimed(applied, claimed) && AllBacked(applied, inputs, fills, orders, actions)
    requires i < j < |applied| && e in applied[i].execIds
    ensures e !in applied[j].execIds
  {
    if e in applied[j].execIds {
      var f := BackingFill(applied[i], inputs, fills, orders, actions, e);
      var g := BackingFill(applied[j], inputs, fills, orders, actions, e);
      SameKeySameRow(fills, (x: Fill) => x.execId, f, g);
    }
  }

  lemma {:induction false} SameKeySameRow<T(!new)>(rows: seq<T>, key: T -> nat, x: T, y: T)
    requires Distinct(rows, key) && x in rows && y in rows && key(x) == key(y)
    ensures x == y
  {
    var i :| 0 <= i < |rows| && rows[i] == x;
    var j :| 0 <= j < |rows| && rows[j] == y;
    assert i == j;
  }

  lemma {:induction false} BackingFill(
    r: Applied, inputs: seq<Case>, fills: seq<Fill>, orders: seq<OrderRecord>, actions: seq<Action>, e: nat)
    returns (f: Fill)
    requires Backed(r, inputs, fills, orders, actions) && e in r.execIds
    ensures f in fills && f.execId == e && f.orderId == r.orderId
  {
    var k: nat, matched: seq<Fill>, o: OrderRecord, a: Action :|
      && k < |inputs| && o in orders && a in actions && AllLinked(matched, fills, a)
      && Evidence(r, Erased(inputs[k]), matched, o, a);
    var i :| 0 <= i < |r.execIds| && r.execIds[i] == e;
    f := matched[i];
    assert f in matched;
  }

  // ----- what every step keeps

  /** Reports and claims change nothing that is applied. */
  lemma {:induction false} StayConsistent(
    cases: seq<Case>, audit: Audit, claimed: set<nat>, n: nat,
    inputs: seq<Case>, fills: seq<Fill>, orders: seq<OrderRecord>, actions: seq<Action>)
    requires n < |actions| && Consistently(cases, audit, claimed, n, inputs, fills, orders, actions)
    ensures
      forall other: Audit, more: set<nat>
        {:trigger Consistently(cases, other, more, n + 1, inputs, fills, orders, actions)} ::
      other.applied == audit.applied && claimed <= more ==>
        Consistently(cases, other, more, n + 1, inputs, fills, orders, actions)
  {
    SkipOnce(audit.applied, actions, n);
  }

  lemma {:induction false} ApplyRecord(
    cases: seq<Case>, audit: Audit, claimed: set<nat>, fills: seq<Fill>, orders: seq<OrderRecord>,
    actions: seq<Action>, n: nat, inputs: seq<Case>, k: nat, event: Event)
    requires n < |actions| && k < |cases| && DistinctCases(cases) && Distinct(actions, (a: Action) => a.id)
    requires AllTrades(fills)
    requires Consistently(cases, audit, claimed, n, inputs, fills, orders, actions)
    requires IsCandidate(cases[k], actions[n]) && Matched(fills, actions[n]) != []
    requires MatchFault(Matched(fills, actions[n]), actions[n], claimed).None?
    requires Judge(cases[k], actions[n], Matched(fills, actions[n]), orders) == Ok(Apply(event))
    ensures
      var record := Record(cases[k], actions[n], Matched(fills, actions[n]), event);
      var after := cases[k := cases[k].(actions := cases[k].actions + [event])];
      && DistinctCases(after)
      && Consistently(after, audit.(applied := audit.applied + [record]), claimed + {record.orderId}, n + 1,
                      inputs, fills, orders, actions)
  {
    var a, matched := actions[n], Matched(fills, actions[n]);
    var record := Record(cases[k], a, matched, event);
    assert Erased(cases[k]) == Erased(inputs[k]);
    BackRecord(cases[k], inputs, k, fills, orders, actions, n, event);
    BackMore(audit.applied, record, inputs, fills, orders, actions);
    FileEvent(cases, audit.applied, k, record);
    OnlyEventsChange(cases, inputs, k, cases[k].actions + [event]);
    ClaimOne(audit.applied, claimed, record);
    JudgedEvent(cases[k], a, matched, orders, event);
    ApplyOnce(audit.applied, actions, n, record);
  }

  lemma {:induction false} JudgedEvent(c: Case, a: Action, matched: seq<Fill>, orders: seq<OrderRecord>, event: Event)
    requires matched != [] && Judge(c, a, matched, orders) == Ok(Apply(event))
    ensures event.actionId == a.id
  {
  }

  lemma {:induction false} OnlyEventsChange(cases: seq<Case>, inputs: seq<Case>, k: nat, events: seq<Event>)
    requires k < |cases| && DistinctCases(cases) && SameCases(cases, inputs)
    ensures DistinctCases(cases[k := cases[k].(actions := events)])
    ensures SameCases(cases[k := cases[k].(actions := events)], inputs)
  {
    assert Erased(cases[k].(actions := events)) == Erased(cases[k]);
  }

  lemma {:induction false} ClaimOne(applied: seq<Applied>, claimed: set<nat>, r: Applied)
    requires OrdersClaimed(applied, claimed) && r.orderId !in claimed
    ensures OrdersClaimed(applied + [r], claimed + {r.orderId})
  {
  }

  lemma {:induction false} BackMore(
    applied: seq<Applied>, r: Applied, inputs: seq<Case>, fills: seq<Fill>, orders: seq<OrderRecord>,
    actions: seq<Action>)
    requires AllBacked(applied, inputs, fills, orders, actions) && Backed(r, inputs, fills, orders, actions)
    ensures AllBacked(applied + [r], inputs, fills, orders, actions)
  {
  }

  lemma {:induction false} WitnessBacks(
    r: Applied, c: Case, inputs: seq<Case>, k: nat, matched: seq<Fill>, o: OrderRecord, a: Action,
    fills: seq<Fill>, orders: seq<OrderRecord>, actions: seq<Action>)
    requires k < |inputs| && Erased(c) == Erased(inputs[k])
    requires o in orders && a in actions && AllLinked(matched, fills, a) && Evidence(r, c, matched, o, a)
    ensures Backed(r, inputs, fills, orders, actions)
  {
    assert Evidence(r, Erased(inputs[k]), matched, o, a);
  }

  lemma {:induction false} BackRecord(
    c: Case, inputs: seq<Case>, k: nat, fills: seq<Fill>, orders: seq<OrderRecord>, actions: seq<Action>, n: nat,
    event: Event)
    requires n < |actions| && k < |inputs| && Erased(c) == Erased(inputs[k]) && IsCandidate(c, actions[n])
    requires AllTrades(fills)
    requires Matched(fills, actions[n]) != [] && OneOrder(Matched(fills, actions[n]), actions[n])
    requires forall f :: f in Matched(fills, actions[n]) ==> ClosingFill(f, actions[n])
    requires Judge(c, actions[n], Matched(fills, actions[n]), orders) == Ok(Apply(event))
    ensures Backed(Record(c, actions[n], Matched(fills, actions[n]), event), inputs, fills, orders, actions)
  {
    var a, matched := actions[n], Matched(fills, actions[n]);
    var o := AppliedHasEvidence(fills, orders, c, a, event);
    LinkedAreMatched(fills, a);
    assert a in actions;
    WitnessBacks(Record(c, a, matched, event), c, inputs, k, matched, o, a, fills, orders, actions);
  }

  /** No order, action or execution is applied twice. */
  ghost predicate AppliedOnce(applied: seq<Applied>) {
    && (forall i, j :: 0 <= i < j < |applied| ==> applied[i].orderId != applied[j].orderId)
    && (forall i, j :: 0 <= i < j < |applied| ==> applied[i].event.actionId != applied[j].event.actionId)
    && (forall i, j, e :: 0 <= i < j < |applied| && e in applied[i].execIds ==> e !in applied[j].execIds)
  }

  /** Every case is its input with exactly the events applied to it, in order. */
  ghost predicate CasesReconciled(cases: seq<Case>, applied: seq<Applied>, inputs: seq<Case>) {
    && SameCases(cases, inputs)
    && (forall k :: 0 <= k < |cases| ==> cases[k].actions == SortedEvents(EventsFor(applied, cases[k].id)))
  }

  /** What every successful reconciliation guarantees. */
  ghost predicate Injective(out: Reconciled, inputs: seq<Case>, snapshot: Snapshot) {
    && AppliedOnce(out.audit.applied)
    && AllBacked(out.audit.applied, inputs, snapshot.fills, snapshot.orders, snapshot.actions)
    && CasesReconciled(out.cases, out.audit.applied, inputs)
  }

  lemma {:induction false} BackedByMore(
    r: Applied, inputs: seq<Case>, fills: seq<Fill>, orders: seq<OrderRecord>, actions: seq<Action>,
    fills': seq<Fill>, orders': seq<OrderRecord>, actions': seq<Action>)
    requires Backed(r, inputs, fills, orders, actions)
    requires (forall f :: f in fills && f.trade <==> f in fills' && f.trade)
    requires forall o :: o in orders ==> o in orders'
    requires forall a :: a in actions ==> a in actions'
    ensures Backed(r, inputs, fills', orders', actions')
  {
    var k: nat, matched: seq<Fill>, o: OrderRecord, a: Action :|
      && k < |inputs| && o in orders && a in actions && AllLinked(matched, fills, a)
      && Evidence(r, Erased(inputs[k]), matched, o, a);
    assert o in orders' && a in actions' && AllLinked(matched, fills', a);
  }

  lemma {:induction false} ConcludeOnce(
    cases: seq<Case>, audit: Audit, claimed: set<nat>, inputs: seq<Case>,
    fills: seq<Fill>, orders: seq<OrderRecord>, actions: seq<Action>)
    requires Consistently(cases, audit, claimed, |actions|, inputs, fills, orders, actions)
    requires Distinct(fills, (f: Fill) => f.execId)
    ensures AppliedOnce(audit.applied)
  {
    var applied := audit.applied;
    forall i, j, e | 0 <= i < j < |applied| && e in applied[i].execIds ensures e !in applied[j].execIds {
      NoSharedExecutions(applied, claimed, inputs, fills, orders, actions, i, j, e);
    }
  }

  lemma {:induction false} ConcludeCases(cases: seq<Case>, sorted: seq<Case>, applied: seq<Applied>, inputs: seq<Case>)
    requires SameCases(cases, inputs) && EventsFiled(cases, applied) && |sorted| == |cases|
    requires forall k :: 0 <= k < |cases| ==> sorted[k] == cases[k].(actions := SortedEvents(cases[k].actions))
    ensures CasesReconciled(sorted, applied, inputs)
  {
    forall k | 0 <= k < |sorted| ensures Erased(sorted[k]) == Erased(inputs[k]) {
      assert Erased(cases[k]) == Erased(inputs[k]);
    }
  }

  lemma {:induction false} ConcludeBacked(
    applied: seq<Applied>, inputs: seq<Case>, snapshot: Snapshot,
    fills: seq<Fill>, orders: seq<OrderRecord>, actions: seq<Action>)
    requires AllBacked(applied, inputs, fills, orders, actions)
    requires (forall f :: f in fills && f.trade <==> f in snapshot.fills && f.trade)
    requires forall o :: o in orders ==> o in snapshot.orders
    requires forall a :: a in actions ==> a in snapshot.actions
    ensures AllBacked(applied, inputs, snapshot.fills, snapshot.orders, snapshot.actions)
  {
    forall i | 0 <= i < |applied|
      ensures Backed(applied[i], inputs, snapshot.fills, snapshot.orders, snapshot.actions)
    {
      BackedByMore(applied[i], inputs, fills, orders, actions, snapshot.fills, snapshot.orders, snapshot.actions);
    }
  }

  /** The events of a case are sorted by time and then by action, and are exactly those applied. */
  lemma {:induction false} SortedEventsAreOrdered(events: seq<Event>)
    ensures multiset(SortedEvents(events)) == multiset(events)
    ensures SortedByBoth(SortedEvents(events), (e: Event) => e.ts, (e: Event) => e.actionId)
  {
    var byId := StableSort(events, (e: Event) => e.actionId);
    SortPermutes(events, (e: Event) => e.actionId);
    SortPermutes(byId, (e: Event) => e.ts);
    SortOrders(events, (e: Event) => e.actionId);
    SortKeepsBoth(byId, (e: Event) => e.ts, (e: Event) => e.actionId);
  }

  // ----- a step keeps the state consistent

  /** A step either applies one event to one case or leaves the cases and what is applied alone. */
  lemma {:induction false} StepShape(p: Progress, a: Action, fills: seq<Fill>, orders: seq<OrderRecord>)
    returns (applies: bool, k: nat, event: Event)
    requires Stepped(p, a, fills, orders).Ok?
    ensures !applies ==>
      var q := Stepped(p, a, fills, orders).value;
      q.cases == p.cases && q.audit.applied == p.audit.applied && p.claimed <= q.claimed
    ensures applies ==>
      var ks := CandidateIndexes(p.cases, a, 0);
      && Matched(fills, a) != [] && MatchFault(Matched(fills, a), a, p.claimed).None?
      && k < |p.cases| && IsCandidate(p.cases[k], a)
      && Judge(p.cases[k], a, Matched(fills, a), orders) == Ok(Apply(event))
      && Stepped(p, a, fills, orders).value
         == WithEvent(Noted(p, ks, a, Matched(fills, a)), k, a, Matched(fills, a), event)
  {
    var matched := Matched(fills, a);
    var ks := CandidateIndexes(p.cases, a, 0);
    applies, k, event := false, 0, Event(0, Other, 0.0, 0, "");
    if !a.kind.Other? && ks != [] && matched != [] {
      var overlapping := OverlappingIndexes(p.cases, ks, matched);
      if |overlapping| == 1 {
        var verdict := Judge(p.cases[overlapping[0]], a, matched, orders).value;
        if verdict.Apply? {
          applies, k, event := true, overlapping[0], verdict.event;
        }
      }
    }
  }

  lemma {:induction false} StepKeeps(
    p: Progress, inputs: seq<Case>, fills: seq<Fill>, orders: seq<OrderRecord>, actions: seq<Action>, n: nat)
    requires n < |actions| && DistinctCases(p.cases) && Distinct(actions, (a: Action) => a.id) && AllTrades(fills)
    requires Consistently(p.cases, p.audit, p.claimed, n, inputs, fills, orders, actions)
    requires Stepped(p, actions[n], fills, orders).Ok?
    ensures
      var q := Stepped(p, actions[n], fills, orders).value;
      DistinctCases(q.cases) && Consistently(q.cases, q.audit, q.claimed, n + 1, inputs, fills, orders, actions)
  {
    var a := actions[n];
    var q := Stepped(p, a, fills, orders).value;
    var applies, k, event := StepShape(p, a, fills, orders);
    StayConsistent(p.cases, p.audit, p.claimed, n, inputs, fills, orders, actions);
    if applies {
      var noted := Noted(p, CandidateIndexes(p.cases, a, 0), a, Matched(fills, a));
      ApplyRecord(p.cases, noted.audit, p.claimed, fills, orders, actions, n, inputs, k, event);
    } else {
      assert Consistently(p.cases, q.audit, q.claimed, n + 1, inputs, fills, orders, actions);
    }
  }

  lemma {:induction false} FoldKeeps(
    inputs: seq<Case>, fills: seq<Fill>, orders: seq<OrderRecord>, actions: seq<Action>, n: nat)
    requires n <= |actions| && DistinctCases(inputs) && Distinct(actions, (a: Action) => a.id) && AllTrades(fills)
    requires Folded(Start(inputs), actions[..n], fills, orders).Ok?
    ensures
      var q := Folded(Start(inputs), actions[..n], fills, orders).value;
      DistinctCases(q.cases) && Consistently(q.cases, q.audit, q.claimed, n, inputs, fills, orders, actions)
  {
    if n == 0 {
      assert actions[..0] == [];
      assert forall k :: 0 <= k < |inputs| ==> Erased(Start(inputs).cases[k]).id == Erased(inputs[k]).id;
    } else {
      FoldedSnoc(Start(inputs), actions, n - 1, fills, orders);
      FoldKeeps(inputs, fills, orders, actions, n - 1);
      StepKeeps(Folded(Start(inputs), actions[..n - 1], fills, orders).value, inputs, fills, orders, actions, n - 1);
    }
  }

  lemma {:induction false} ReconciliationParts(inputs: seq<Case>, snapshot: Snapshot)
    returns (fills: seq<Fill>, orders: seq<OrderRecord>, actions: seq<Action>, p: Progress)
    requires Reconciliation(inputs, snapshot).Ok?
    ensures DistinctCases(inputs)
    ensures Deduplicated(Traded(snapshot), fills, (f: Fill) => f.execId)
    ensures Deduplicated(snapshot.orders, orders, (o: OrderRecord) => o.orderId)
    ensures Deduplicated(snapshot.actions, actions, (a: Action) => a.id)
    ensures Folded(Start(inputs), actions, fills, orders) == Ok(p)
    ensures Reconciliation(inputs, snapshot) == Ok(Finished(p))
  {
    UniqueRowsAreDistinct(Traded(snapshot), (f: Fill) => f.execId);
    UniqueRowsAreDistinct(snapshot.orders, (o: OrderRecord) => o.orderId);
    UniqueRowsAreDistinct(snapshot.actions, (a: Action) => a.id);
    fills := Unique(Traded(snapshot), (f: Fill) => f.execId).value;
    orders := Unique(snapshot.orders, (o: OrderRecord) => o.orderId).value;
    actions := Unique(snapshot.actions, (a: Action) => a.id).value;
    p := Folded(Start(inputs), actions, fills, orders).value;
    forall i, j | 0 <= i < j < |inputs| ensures inputs[i].id != inputs[j].id {
    }
  }

  /**
   Attribution is injective: in every result no order, execution or action is applied twice, every applied
   record is backed by genuine fills that total one filled order inside its case's window, each case's
   actions are exactly the events applied to it, sorted, and nothing else about a case has changed.
   */
  lemma {:induction false} AttributionIsInjective(inputs: seq<Case>, snapshot: Snapshot)
    requires Reconciliation(inputs, snapshot).Ok?
    ensures Injective(Reconciliation(inputs, snapshot).value, inputs, snapshot)
  {
    var fills, orders, actions, p := ReconciliationParts(inputs, snapshot);
    assert actions[..|actions|] == actions;
    FilterElements(snapshot.fills, (f: Fill) => f.trade);
    FoldKeeps(inputs, fills, orders, actions, |actions|);
    ConcludeOnce(p.cases, p.audit, p.claimed, inputs, fills, orders, actions);
    ConcludeCases(p.cases, Finished(p).cases, p.audit.applied, inputs);
    ConcludeBacked(p.audit.applied, inputs, snapshot, fills, orders, actions);
  }

  // ----- nothing is lost

  /** A case and an action that concern each other. */
  datatype Pair = Pair(caseId: nat, actionId: nat)

  function PairsOf(cases: seq<Case>, ks: seq<nat>, a: Action): multiset<Pair>
    requires InBounds(ks, cases)
  {
    if ks == [] then multiset{}
    else
      assert InBounds(ks[1..], cases);
      multiset{Pair(cases[ks[0]].id, a.id)} + PairsOf(cases, ks[1..], a)
  }

  function AppliedPairs(records: seq<Applied>): multiset<Pair> {
    if records == [] then multiset{}
    else AppliedPairs(Init(records)) + multiset{Pair(Last(records).caseId, Last(records).event.actionId)}
  }

  function UnresolvedPairs(records: seq<Unresolved>): multiset<Pair> {
    if records == [] then multiset{}
    else multiset{Pair(records[0].caseId, records[0].actionId)} + UnresolvedPairs(records[1..])
  }

  function ExcludedPairs(records: seq<Excluded>): multiset<Pair> {
    if records == [] then multiset{}
    else multiset{Pair(records[0].caseId, records[0].actionId)} + ExcludedPairs(records[1..])
  }

  function Accounted(audit: Audit): multiset<Pair> {
    AppliedPairs(audit.applied) + UnresolvedPairs(audit.unresolved) + ExcludedPairs(audit.excluded)
  }

  /** The pairs an action concerns. */
  function Concerned(cases: seq<Case>, a: Action): multiset<Pair> {
    if a.kind.Other? then multiset{} else PairsOf(cases, CandidateIndexes(cases, a, 0), a)
  }

  function AllConcerned(cases: seq<Case>, actions: seq<Action>): multiset<Pair> {
    if actions == [] then multiset{} else AllConcerned(cases, Init(actions)) + Concerned(cases, Last(actions))
  }

  lemma {:induction false} UnresolvedConcat(a: seq<Unresolved>, b: seq<Unresolved>)
    ensures UnresolvedPairs(a + b) == UnresolvedPairs(a) + UnresolvedPairs(b)
  {
    if a == [] {
      assert a + b == b;
    } else {
      TailOfConcat(a, b);
      UnresolvedConcat(a[1..], b);
    }
  }

  lemma {:induction false} ExcludedConcat(a: seq<Excluded>, b: seq<Excluded>)
    ensures ExcludedPairs(a + b) == ExcludedPairs(a) + ExcludedPairs(b)
  {
    if a == [] {
      assert a + b == b;
    } else {
      TailOfConcat(a, b);
      ExcludedConcat(a[1..], b);
    }
  }

  lemma {:induction false} DeferredPairs(cases: seq<Case>, ks: seq<nat>, a: Action, reason: Reason)
    requires InBounds(ks, cases)
    ensures UnresolvedPairs(Deferred(cases, ks, a, reason)) == PairsOf(cases, ks, a)
  {
    if ks != [] {
      assert InBounds(ks[1..], cases);
      DeferredPairs(cases, ks[1..], a, reason);
      assert Deferred(cases, ks, a, reason)[1..] == Deferred(cases, ks[1..], a, reason);
    }
  }

  lemma {:induction false} PairsCons(cases: seq<Case>, k: nat, ks: seq<nat>, a: Action)
    requires k < |cases| && InBounds(ks, cases)
    ensures InBounds([k] + ks, cases)
    ensures PairsOf(cases, [k] + ks, a) == multiset{Pair(cases[k].id, a.id)} + PairsOf(cases, ks, a)
  {
    assert ([k] + ks)[1..] == ks;
  }

  /** Every candidate either overlaps the execution or is recorded as missed. */
  lemma {:induction false} MissedOrOverlapping(cases: seq<Case>, ks: seq<nat>, a: Action, matched: seq<Fill>)
    requires matched != [] && InBounds(ks, cases)
    ensures PairsOf(cases, ks, a)
         == ExcludedPairs(Missed(cases, ks, a, matched)) + PairsOf(cases, OverlappingIndexes(cases, ks, matched), a)
  {
    if ks != [] {
      assert InBounds(ks[1..], cases);
      MissedOrOverlapping(cases, ks[1..], a, matched);
      var tail := Missed(cases, ks[1..], a, matched);
      var over := OverlappingIndexes(cases, ks[1..], matched);
      var pair := multiset{Pair(cases[ks[0]].id, a.id)};
      assert PairsOf(cases, ks, a) == pair + PairsOf(cases, ks[1..], a);
      if Overlaps(cases[ks[0]], matched) {
        PairsCons(cases, ks[0], over, a);
        assert OverlappingIndexes(cases, ks, matched) == [ks[0]] + over;
        assert Missed(cases, ks, a, matched) == tail;
      } else {
        var missed := Excluded(cases[ks[0]].id, a.id, matched[0].time);
        ExcludedConcat([missed], tail);
        assert ExcludedPairs([missed]) == pair + ExcludedPairs([missed][1..]);
        assert Missed(cases, ks, a, matched) == [missed] + tail;
        assert OverlappingIndexes(cases, ks, matched) == over;
      }
    }
  }

  lemma {:induction false} DeferAccounts(p: Progress, ks: seq<nat>, a: Action, reason: Reason)
    requires InBounds(ks, p.cases)
    ensures Accounted(WithDeferrals(p, ks, a, reason).audit) == Accounted(p.audit) + PairsOf(p.cases, ks, a)
  {
    UnresolvedConcat(p.audit.unresolved, Deferred(p.cases, ks, a, reason));
    DeferredPairs(p.cases, ks, a, reason);
  }

  lemma {:induction false} ApplyAccounts(p: Progress, k: nat, a: Action, matched: seq<Fill>, event: Event)
    requires k < |p.cases| && matched != [] && event.actionId == a.id
    ensures Accounted(WithEvent(p, k, a, matched, event).audit)
         == Accounted(p.audit) + multiset{Pair(p.cases[k].id, a.id)}
  {
    InitSnoc(p.audit.applied, Record(p.cases[k], a, matched, event));
  }

  lemma {:induction false} SettledAccounts(
    p: Progress, overlapping: seq<nat>, a: Action, matched: seq<Fill>, orders: seq<OrderRecord>)
    requires matched != [] && InBounds(overlapping, p.cases) && Settled(p, overlapping, a, matched, orders).Ok?
    ensures Accounted(Settled(p, overlapping, a, matched, orders).value.audit)
         == Accounted(p.audit) + PairsOf(p.cases, overlapping, a)
  {
    if |overlapping| > 1 {
      DeferAccounts(p, overlapping, a, SpansCases);
    } else if |overlapping| == 1 {
      var verdict := Judge(p.cases[overlapping[0]], a, matched, orders).value;
      if verdict.Defer? {
        DeferAccounts(p, overlapping, a, verdict.reason);
      } else {
        ApplyAccounts(p, overlapping[0], a, matched, verdict.event);
        PairsCons(p.cases, overlapping[0], [], a);
        assert overlapping == [overlapping[0]] + [];
      }
    }
  }

  lemma {:induction false} NotedAccounts(p: Progress, ks: seq<nat>, a: Action, matched: seq<Fill>)
    requires matched != [] && InBounds(ks, p.cases)
    ensures Accounted(Noted(p, ks, a, matched).audit)
         == Accounted(p.audit) + ExcludedPairs(Missed(p.cases, ks, a, matched))
  {
    ExcludedConcat(p.audit.excluded, Missed(p.cases, ks, a, matched));
  }

  lemma {:induction false} ExecutedAccounts(
    p: Progress, ks: seq<nat>, a: Action, matched: seq<Fill>, orders: seq<OrderRecord>)
    requires matched != [] && InBounds(ks, p.cases) && Executed(p, ks, a, matched, orders).Ok?
    ensures Accounted(Executed(p, ks, a, matched, orders).value.audit) == Accounted(p.audit) + PairsOf(p.cases, ks, a)
  {
    NotedAccounts(p, ks, a, matched);
    MissedOrOverlapping(p.cases, ks, a, matched);
    SettledAccounts(Noted(p, ks, a, matched), OverlappingIndexes(p.cases, ks, matched), a, matched, orders);
  }

  lemma {:induction false} StepAccounts(p: Progress, a: Action, fills: seq<Fill>, orders: seq<OrderRecord>)
    requires Stepped(p, a, fills, orders).Ok?
    ensures Accounted(Stepped(p, a, fills, orders).value.audit) == Accounted(p.audit) + Concerned(p.cases, a)
  {
    var ks := CandidateIndexes(p.cases, a, 0);
    var matched := Matched(fills, a);
    if a.kind.Other? || ks == [] {
    } else if matched == [] {
      DeferAccounts(p, ks, a, NoExecution);
    } else {
      ExecutedAccounts(p, ks, a, matched, orders);
    }
  }

  lemma {:induction false} SameCandidates(cases: seq<Case>, others: seq<Case>, a: Action, i: nat)
    requires SameCases(cases, others) && i <= |cases|
    ensures CandidateIndexes(cases, a, i) == CandidateIndexes(others, a, i)
    decreases |cases| - i
  {
    if i < |cases| {
      assert Erased(cases[i]) == Erased(others[i]);
      assert IsCandidate(cases[i], a) == IsCandidate(others[i], a);
      SameCandidates(cases, others, a, i + 1);
    }
  }

  lemma {:induction false} SamePairs(cases: seq<Case>, others: seq<Case>, ks: seq<nat>, a: Action)
    requires SameCases(cases, others) && InBounds(ks, cases)
    ensures PairsOf(cases, ks, a) == PairsOf(others, ks, a)
  {
    if ks != [] {
      assert InBounds(ks[1..], cases);
      assert Erased(cases[ks[0]]).id == Erased(others[ks[0]]).id;
      SamePairs(cases, others, ks[1..], a);
    }
  }

  /** What an action concerns does not depend on what was applied before. */
  lemma {:induction false} ConcernIgnoresEvents(cases: seq<Case>, others: seq<Case>, a: Action)
    requires SameCases(cases, others)
    ensures Concerned(cases, a) == Concerned(others, a)
  {
    SameCandidates(cases, others, a, 0);
    SamePairs(cases, others, CandidateIndexes(cases, a, 0), a);
  }

  lemma {:induction false} AllConcernedSnoc(cases: seq<Case>, actions: seq<Action>, n: nat)
    requires n < |actions|
    ensures AllConcerned(cases, actions[..n + 1]) == AllConcerned(cases, actions[..n]) + Concerned(cases, actions[n])
  {
    assert actions[..n + 1] == actions[..n] + [actions[n]];
    InitSnoc(actions[..n], actions[n]);
  }

  lemma {:induction false} FoldAccounts(
    inputs: seq<Case>, fills: seq<Fill>, orders: seq<OrderRecord>, actions: seq<Action>, n: nat)
    requires n <= |actions| && DistinctCases(inputs) && Distinct(actions, (a: Action) => a.id) && AllTrades(fills)
    requires Folded(Start(inputs), actions[..n], fills, orders).Ok?
    ensures Accounted(Folded(Start(inputs), actions[..n], fills, orders).value.audit)
         == AllConcerned(inputs, actions[..n])
  {
    if n == 0 {
      assert actions[..0] == [];
    } else {
      FoldedSnoc(Start(inputs), actions, n - 1, fills, orders);
      FoldAccounts(inputs, fills, orders, actions, n - 1);
      FoldKeeps(inputs, fills, orders, actions, n - 1);
      var p := Folded(Start(inputs), actions[..n - 1], fills, orders).value;
      StepAccounts(p, actions[n - 1], fills, orders);
      ConcernIgnoresEvents(p.cases, inputs, actions[n - 1]);
      AllConcernedSnoc(inputs, actions, n - 1);
    }
  }

  /**
   Nothing is dropped and nothing reported twice: the audit names each pair of an action and a case it may
   belong to exactly once, as applied, unresolved or excluded.
   */
  lemma {:induction false} EveryPairIsAccountedFor(inputs: seq<Case>, snapshot: Snapshot) returns (actions: seq<Action>)
    requires Reconciliation(inputs, snapshot).Ok?
    ensures Unique(snapshot.actions, (a: Action) => a.id) == Ok(actions)
    ensures Accounted(Reconciliation(inputs, snapshot).value.audit) == AllConcerned(inputs, actions)
  {
    var fills, orders, found, p := ReconciliationParts(inputs, snapshot);
    actions := Unique(snapshot.actions, (a: Action) => a.id).value;
    UniqueRowsAreDistinct(Traded(snapshot), (f: Fill) => f.execId);
    fills := Unique(Traded(snapshot), (f: Fill) => f.execId).value;
    orders := Unique(snapshot.orders, (o: OrderRecord) => o.orderId).value;
    UniqueRowsAreDistinct(snapshot.actions, (a: Action) => a.id);
    FilterElements(snapshot.fills, (f: Fill) => f.trade);
    assert actions[..|actions|] == actions;
    FoldAccounts(inputs, fills, orders, actions, |actions|);
  }
}
