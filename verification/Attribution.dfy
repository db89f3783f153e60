/**
 Attributing exchange executions to the actions that caused them. Identifiers are numbers ordered as the
 exchange's strings are; zero is the missing one.
 */
module Attribution {
  import opened Wrappers
  import opened Sequences
  import opened Trading

  datatype Kind = Reduce | Close | Other

  datatype Fill = Fill(execId: nat, orderId: nat, link: nat, symbol: string, sells: bool, qty: real, closed: real,
                       time: int, trade: bool)

  datatype OrderRecord = OrderRecord(orderId: nat, symbol: Option<string>, sells: Option<bool>, link: nat, filled: bool,
                                     qty: real)

  /** `link` is the client identifier derived from the action's own, `orderId` the recorded order, if any. */
  datatype Action = Action(
    id: nat, channel: int, kind: Kind, symbol: string, expectedSide: Option<Side>, closePct: real,
    orderId: nat, link: nat, status: string, createdAt: int)

  datatype Event = Event(ts: int, kind: Kind, pct: real, actionId: nat, status: string)

  /** `data` is everything else a case carries. */
  datatype Case = Case(id: nat, channel: int, symbol: string, side: Side, start: int, end: int, actions: seq<Event>,
                       data: int)

  datatype Applied = Applied(event: Event, caseId: nat, orderId: nat, execIds: seq<nat>, qty: real, createdAt: int)

  datatype Reason =
    | NoExecution | SpansCases | OrderMissing | Partial | CrossesCutoff | CrossesMinutes | BeyondLastCandle

  datatype Unresolved = Unresolved(caseId: nat, actionId: nat, status: string, reason: Reason)

  datatype Excluded = Excluded(caseId: nat, actionId: nat, first: int)

  datatype Audit = Audit(applied: seq<Applied>, unresolved: seq<Unresolved>, excluded: seq<Excluded>)

  datatype Snapshot = Snapshot(fills: seq<Fill>, orders: seq<OrderRecord>, actions: seq<Action>)

  datatype Reconciled = Reconciled(cases: seq<Case>, audit: Audit)

  datatype AttributionError =
    | DuplicateCases | ConflictingRows | ConflictingOrders | OrderClaimedTwice | InvalidExecution
    | WrongSide | ConflictingOrder | InvalidPct

  // ----- unique rows

  /** The rows once each, in order of first appearance, or nothing if they contradict each other. */
  function Unique<T(==)>(rows: seq<T>, key: T -> nat): Result<seq<T>, AttributionError> {
    if rows == [] then Ok([])
    else
      var before := Unique(Init(rows), key);
      var row := Last(rows);
      if before.Err? then before
      else if key(row) == 0 then Err(ConflictingRows)
      else
        var found := FindKey(before.value, key, key(row));
        if found.None? then Ok(before.value + [row])
        else if found.value == row then before
        else Err(ConflictingRows)
  }

  function FindKey<T>(rows: seq<T>, key: T -> nat, k: nat): (r: Option<T>)
    ensures r.Some? ==> r.value in rows && key(r.value) == k
    ensures r.None? ==> forall x :: x in rows ==> key(x) != k
  {
    if rows == [] then None else if key(rows[0]) == k then Some(rows[0]) else FindKey(rows[1..], key, k)
  }

  lemma {:induction false} UniqueSnoc<T>(rows: seq<T>, i: nat, key: T -> nat)
    requires i < |rows|
    ensures Unique(rows[..i + 1], key) == Unique(rows[..i] + [rows[i]], key)
    ensures Unique(rows[..i], key).Err? ==> Unique(rows[..i + 1], key) == Unique(rows[..i], key)
    ensures Init(rows[..i + 1]) == rows[..i] && Last(rows[..i + 1]) == rows[i]
  {
    assert rows[..i + 1] == rows[..i] + [rows[i]];
    InitSnoc(rows[..i], rows[i]);
  }

  lemma {:induction false} UniqueStaysErr<T>(rows: seq<T>, i: nat, key: T -> nat)
    requires i <= |rows| && Unique(rows[..i], key).Err?
    ensures Unique(rows, key) == Err(ConflictingRows)
    decreases |rows| - i
  {
    UniqueErr(rows[..i], key);
    if i == |rows| {
      assert rows[..i] == rows;
    } else {
      UniqueSnoc(rows, i, key);
      UniqueStaysErr(rows, i + 1, key);
    }
  }

  lemma {:induction false} UniqueErr<T>(rows: seq<T>, key: T -> nat)
    ensures Unique(rows, key).Err? ==> Unique(rows, key) == Err(ConflictingRows)
  {
    if rows != [] {
      UniqueErr(Init(rows), key);
    }
  }

  /** The loop over the rows, with its dictionary. */
  method UniqueRows<T(==)>(rows: seq<T>, key: T -> nat) returns (r: Result<seq<T>, AttributionError>)
    ensures r == Unique(rows, key)
  {
    var seen: map<nat, T> := map[];
    var unique: seq<T> := [];
    for i := 0 to |rows|
      invariant Unique(rows[..i], key) == Ok(unique)
      invariant forall k: nat :: FindKey(unique, key, k) == if k in seen then Some(seen[k]) else None
    {
      var row := rows[i];
      UniqueSnoc(rows, i, key);
      if key(row) == 0 || (key(row) in seen && seen[key(row)] != row) {
        UniqueStaysErr(rows, i + 1, key);
        return Err(ConflictingRows);
      }
      if key(row) !in seen {
        ghost var before := unique;
        unique := unique + [row];
        forall k: nat ensures FindKey(unique, key, k) == if k == key(row) then Some(row) else FindKey(before, key, k) {
          FindKeySnoc(before, row, key, k);
        }
      }
      seen := seen[key(row) := row];
    }
    assert rows[..|rows|] == rows;
    r := Ok(unique);
  }

  lemma {:induction false} FindKeySnoc<T>(rows: seq<T>, row: T, key: T -> nat, k: nat)
    requires FindKey(rows, key, key(row)).None?
    ensures FindKey(rows + [row], key, k) == if k == key(row) then Some(row) else FindKey(rows, key, k)
  {
    if rows != [] {
      TailOfConcat(rows, [row]);
      FindKeySnoc(rows[1..], row, key, k);
    }
  }

  // ----- one action

  predicate IsCandidate(c: Case, a: Action) {
    c.channel == a.channel && c.symbol == a.symbol && (a.expectedSide.None? || a.expectedSide == Some(c.side))
  }

  predicate Attributable(f: Fill, a: Action) {
    (a.orderId != 0 && f.orderId == a.orderId) || f.link == a.link
  }

  /** The attributable fills by time, then by execution identifier. */
  function Matched(fills: seq<Fill>, a: Action): seq<Fill> {
    StableSort(StableSort(Filter(fills, (f: Fill) => Attributable(f, a)), (f: Fill) => f.execId), (f: Fill) => f.time)
  }

  predicate OneOrder(matched: seq<Fill>, a: Action)
    requires matched != []
  {
    && (forall f :: f in matched ==> f.orderId == matched[0].orderId)
    && (a.orderId != 0 ==> matched[0].orderId == a.orderId)
  }

  predicate ClosingFill(f: Fill, a: Action) {
    f.symbol == a.symbol && (f.link == 0 || f.link == a.link) && f.qty == f.closed > 0.0
  }

  function Quantity(matched: seq<Fill>): real {
    Sum(matched, (f: Fill) => f.qty)
  }

  function ExecIds(matched: seq<Fill>): (ids: seq<nat>)
    ensures |ids| == |matched| && forall i :: 0 <= i < |ids| ==> ids[i] == matched[i].execId
  {
    seq(|matched|, i requires 0 <= i < |matched| => matched[i].execId)
  }

  function FindOrder(orders: seq<OrderRecord>, id: nat): (r: Option<OrderRecord>)
    ensures r.Some? ==> r.value in orders && r.value.orderId == id
  {
    if orders == [] then None else if orders[0].orderId == id then Some(orders[0]) else FindOrder(orders[1..], id)
  }

  function Minute(ms: int): int {
    (ms + 59_999) / 60_000
  }

  predicate ConflictsWith(o: OrderRecord, c: Case, a: Action) {
    || (o.symbol.Some? && o.symbol.value != c.symbol)
    || (o.sells.Some? && o.sells.value != c.side.Long?)
    || (o.link != 0 && o.link != a.link)
  }

  /** Why a single overlapping case cannot take the execution, if there is a reason. */
  function Obstacle(o: OrderRecord, c: Case, qty: real, first: int, last: int): Option<Reason> {
    if !o.filled || o.qty != qty then Some(Partial)
    else if !(c.start <= first <= last < c.end) then Some(CrossesCutoff)
    else if Minute(first) != Minute(last) then Some(CrossesMinutes)
    else if Minute(first) * 60_000 >= c.end then Some(BeyondLastCandle)
    else None
  }

  function ClosedPct(a: Action): real {
    if a.kind.Close? then 100.0 else a.closePct
  }

  datatype Verdict = Apply(event: Event) | Defer(reason: Reason)

  /** The verdict on the only overlapping case. */
  function Judge(c: Case, a: Action, matched: seq<Fill>, orders: seq<OrderRecord>): Result<Verdict, AttributionError>
    requires matched != []
  {
    var first, last := matched[0].time, matched[|matched| - 1].time;
    var order := FindOrder(orders, matched[0].orderId);
    if exists f :: f in matched && f.sells != c.side.Long? then Err(WrongSide)
    else if order.None? then Ok(Defer(OrderMissing))
    else if ConflictsWith(order.value, c, a) then Err(ConflictingOrder)
    else
      var obstacle := Obstacle(order.value, c, Quantity(matched), first, last);
      if obstacle.Some? then Ok(Defer(obstacle.value))
      else if !(0.0 < ClosedPct(a) <= 100.0) then Err(InvalidPct)
      else Ok(Apply(Event(first, a.kind, ClosedPct(a), a.id, a.status)))
  }

  predicate Overlaps(c: Case, matched: seq<Fill>)
    requires matched != []
  {
    matched[0].time < c.end && matched[|matched| - 1].time >= c.start
  }

  function Erased(c: Case): Case {
    c.(actions := [])
  }

  function Record(c: Case, a: Action, matched: seq<Fill>, event: Event): Applied
    requires matched != []
  {
    Applied(event, c.id, matched[0].orderId, ExecIds(matched), Quantity(matched), a.createdAt)
  }

  // ----- the whole pass

  predicate InBounds(ks: seq<nat>, cases: seq<Case>) {
    forall i :: 0 <= i < |ks| ==> ks[i] < |cases|
  }

  /** The cases from `i` on that the action may belong to, by index. */
  function CandidateIndexes(cases: seq<Case>, a: Action, i: nat): (ks: seq<nat>)
    requires i <= |cases|
    ensures InBounds(ks, cases) && forall j :: 0 <= j < |ks| ==> IsCandidate(cases[ks[j]], a)
    decreases |cases| - i
  {
    if i == |cases| then []
    else (if IsCandidate(cases[i], a) then [i] else []) + CandidateIndexes(cases, a, i + 1)
  }

  function OverlappingIndexes(cases: seq<Case>, ks: seq<nat>, matched: seq<Fill>): (overlapping: seq<nat>)
    requires matched != [] && InBounds(ks, cases)
    ensures InBounds(overlapping, cases)
    ensures forall j :: 0 <= j < |overlapping| ==> exists i :: 0 <= i < |ks| && ks[i] == overlapping[j]
  {
    if ks == [] then []
    else
      assert InBounds(ks[1..], cases);
      (if Overlaps(cases[ks[0]], matched) then [ks[0]] else []) + OverlappingIndexes(cases, ks[1..], matched)
  }

  function Deferred(cases: seq<Case>, ks: seq<nat>, a: Action, reason: Reason): seq<Unresolved>
    requires InBounds(ks, cases)
  {
    seq(|ks|, i requires 0 <= i < |ks| => Unresolved(cases[ks[i]].id, a.id, a.status, reason))
  }

  /** The candidates whose window the execution misses. */
  function Missed(cases: seq<Case>, ks: seq<nat>, a: Action, matched: seq<Fill>): seq<Excluded>
    requires matched != [] && InBounds(ks, cases)
  {
    if ks == [] then []
    else
      assert InBounds(ks[1..], cases);
      (if Overlaps(cases[ks[0]], matched) then [] else [Excluded(cases[ks[0]].id, a.id, matched[0].time)])
      + Missed(cases, ks[1..], a, matched)
  }

  lemma {:induction false} MissedSnoc(cases: seq<Case>, ks: seq<nat>, k: nat, a: Action, matched: seq<Fill>)
    requires matched != [] && InBounds(ks, cases) && k < |cases|
    ensures InBounds(ks + [k], cases)
    ensures Missed(cases, ks + [k], a, matched)
         == Missed(cases, ks, a, matched)
            + (if Overlaps(cases[k], matched) then [] else [Excluded(cases[k].id, a.id, matched[0].time)])
  {
    if ks == [] {
      assert [k][1..] == [];
    } else {
      assert InBounds(ks[1..], cases);
      TailOfConcat(ks, [k]);
      MissedSnoc(cases, ks[1..], k, a, matched);
    }
  }

  /** The loop that records them. */
  method Exclude(cases: seq<Case>, ks: seq<nat>, a: Action, matched: seq<Fill>) returns (r: seq<Excluded>)
    requires matched != [] && InBounds(ks, cases)
    ensures r == Missed(cases, ks, a, matched)
  {
    r := [];
    for i := 0 to |ks|
      invariant InBounds(ks[..i], cases)
      invariant r == Missed(cases, ks[..i], a, matched)
    {
      assert ks[..i + 1] == ks[..i] + [ks[i]];
      MissedSnoc(cases, ks[..i], ks[i], a, matched);
      if !Overlaps(cases[ks[i]], matched) {
        r := r + [Excluded(cases[ks[i]].id, a.id, matched[0].time)];
      }
    }
    assert ks[..|ks|] == ks;
  }

  /** An execution that was matched must be one order's, not yet claimed, made of closing fills. */
  function MatchFault(matched: seq<Fill>, a: Action, claimed: set<nat>): Option<AttributionError>
    requires matched != []
  {
    if !OneOrder(matched, a) then Some(ConflictingOrders)
    else if matched[0].orderId in claimed then Some(OrderClaimedTwice)
    else if exists f :: f in matched && !ClosingFill(f, a) then Some(InvalidExecution)
    else None
  }

  /** The cases, the audit and the claimed orders after some of the actions. */
  datatype Progress = Progress(cases: seq<Case>, audit: Audit, claimed: set<nat>)

  function WithEvent(p: Progress, k: nat, a: Action, matched: seq<Fill>, event: Event): Progress
    requires k < |p.cases| && matched != []
  {
    Progress(p.cases[k := p.cases[k].(actions := p.cases[k].actions + [event])],
             p.audit.(applied := p.audit.applied + [Record(p.cases[k], a, matched, event)]),
             p.claimed)
  }

  function WithDeferrals(p: Progress, ks: seq<nat>, a: Action, reason: Reason): Progress
    requires InBounds(ks, p.cases)
  {
    p.(audit := p.audit.(unresolved := p.audit.unresolved + Deferred(p.cases, ks, a, reason)))
  }

  /** The execution claimed and the cases it misses recorded. */
  function Noted(p: Progress, ks: seq<nat>, a: Action, matched: seq<Fill>): Progress
    requires matched != [] && InBounds(ks, p.cases)
  {
    p.(claimed := p.claimed + {matched[0].orderId},
       audit := p.audit.(excluded := p.audit.excluded + Missed(p.cases, ks, a, matched)))
  }

  /** What becomes of the cases it overlaps. */
  function Settled(p: Progress, overlapping: seq<nat>, a: Action, matched: seq<Fill>, orders: seq<OrderRecord>)
    : Result<Progress, AttributionError>
    requires matched != [] && InBounds(overlapping, p.cases)
  {
    if |overlapping| > 1 then Ok(WithDeferrals(p, overlapping, a, SpansCases))
    else if overlapping == [] then Ok(p)
    else
      var verdict := Judge(p.cases[overlapping[0]], a, matched, orders);
      if verdict.Err? then Err(verdict.error)
      else if verdict.value.Defer? then Ok(WithDeferrals(p, overlapping, a, verdict.value.reason))
      else Ok(WithEvent(p, overlapping[0], a, matched, verdict.value.event))
  }

  function Executed(p: Progress, ks: seq<nat>, a: Action, matched: seq<Fill>, orders: seq<OrderRecord>)
    : Result<Progress, AttributionError>
    requires matched != [] && InBounds(ks, p.cases)
  {
    Settled(Noted(p, ks, a, matched), OverlappingIndexes(p.cases, ks, matched), a, matched, orders)
  }

  /** What one action adds. */
  function Stepped(
    p: Progress, a: Action, fills: seq<Fill>, orders: seq<OrderRecord>): Result<Progress, AttributionError>
  {
    var ks := CandidateIndexes(p.cases, a, 0);
    var matched := Matched(fills, a);
    if a.kind.Other? || ks == [] then Ok(p)
    else if matched == [] then Ok(WithDeferrals(p, ks, a, NoExecution))
    else
      var fault := MatchFault(matched, a, p.claimed);
      if fault.Some? then Err(fault.value) else Executed(p, ks, a, matched, orders)
  }

  function Folded(
    p: Progress, actions: seq<Action>, fills: seq<Fill>, orders: seq<OrderRecord>): Result<Progress, AttributionError>
  {
    if actions == [] then Ok(p)
    else
      var before := Folded(p, Init(actions), fills, orders);
      if before.Err? then before else Stepped(before.value, Last(actions), fills, orders)
  }

  function Cleared(inputs: seq<Case>): seq<Case> {
    seq(|inputs|, k requires 0 <= k < |inputs| => Erased(inputs[k]))
  }

  function Start(inputs: seq<Case>): Progress {
    Progress(Cleared(inputs), Audit([], [], []), {})
  }

  function SortedEvents(events: seq<Event>): seq<Event> {
    StableSort(StableSort(events, (e: Event) => e.actionId), (e: Event) => e.ts)
  }

  function WithSortedEvents(c: Case): Case {
    c.(actions := SortedEvents(c.actions))
  }

  function Finished(p: Progress): Reconciled {
    Reconciled(seq(|p.cases|, k requires 0 <= k < |p.cases| => WithSortedEvents(p.cases[k])), p.audit)
  }

  predicate RepeatsCase(inputs: seq<Case>) {
    exists i, j :: 0 <= i < j < |inputs| && inputs[i].id == inputs[j].id
  }

  function Traded(snapshot: Snapshot): seq<Fill> {
    Filter(snapshot.fills, (f: Fill) => f.trade)
  }

  /** Reconciliation as a function of its inputs. */
  function Reconciliation(inputs: seq<Case>, snapshot: Snapshot): Result<Reconciled, AttributionError> {
    if RepeatsCase(inputs) then Err(DuplicateCases)
    else
      var fills :- Unique(Traded(snapshot), (f: Fill) => f.execId);
      var orders :- Unique(snapshot.orders, (o: OrderRecord) => o.orderId);
      var actions :- Unique(snapshot.actions, (a: Action) => a.id);
      var p :- Folded(Start(inputs), actions, fills, orders);
      Ok(Finished(p))
  }

  // ----- the loop as written

  method ReconcileAction(
    cases: seq<Case>, audit: Audit, claimed: set<nat>, a: Action, fills: seq<Fill>, orders: seq<OrderRecord>)
    returns (r: Result<Progress, AttributionError>)
    ensures r == Stepped(Progress(cases, audit, claimed), a, fills, orders)
  {
    r := Ok(Progress(cases, audit, claimed));
    if a.kind.Other? {
      return;
    }
    var candidates := CandidateIndexes(cases, a, 0);
    if candidates == [] {
      return;
    }
    var matched := Matched(fills, a);
    if matched == [] {
      var unresolved := audit.unresolved + Deferred(cases, candidates, a, NoExecution);
      return Ok(Progress(cases, audit.(unresolved := unresolved), claimed));
    }
    if !OneOrder(matched, a) {
      return Err(ConflictingOrders);
    }
    var order := matched[0].orderId;
    if order in claimed {
      return Err(OrderClaimedTwice);
    }
    if exists f :: f in matched && !ClosingFill(f, a) {
      return Err(InvalidExecution);
    }
    var excluded := Exclude(cases, candidates, a, matched);
    var audited := audit.(excluded := audit.excluded + excluded);
    var overlapping := OverlappingIndexes(cases, candidates, matched);
    var reason: Option<Reason> := None;
    var filed := cases;
    if |overlapping| > 1 {
      reason := Some(SpansCases);
    } else if |overlapping| == 1 {
      var k := overlapping[0];
      var verdict := Judge(cases[k], a, matched, orders);
      if verdict.Err? {
        return Err(verdict.error);
      }
      if verdict.value.Defer? {
        reason := Some(verdict.value.reason);
      } else {
        var event := verdict.value.event;
        filed := cases[k := cases[k].(actions := cases[k].actions + [event])];
        audited := audited.(applied := audited.applied + [Record(cases[k], a, matched, event)]);
      }
    }
    if reason.Some? {
      audited := audited.(unresolved := audited.unresolved + Deferred(cases, overlapping, a, reason.value));
    }
    r := Ok(Progress(filed, audited, claimed + {order}));
  }

  lemma {:induction false} FoldedSnoc(
    p: Progress, actions: seq<Action>, n: nat, fills: seq<Fill>, orders: seq<OrderRecord>)
    requires n < |actions|
    ensures
      var before := Folded(p, actions[..n], fills, orders);
      Folded(p, actions[..n + 1], fills, orders)
        == if before.Err? then before else Stepped(before.value, actions[n], fills, orders)
  {
    assert actions[..n + 1] == actions[..n] + [actions[n]];
    InitSnoc(actions[..n], actions[n]);
  }

  lemma {:induction false} FoldedStaysErr(
    p: Progress, actions: seq<Action>, n: nat, fills: seq<Fill>, orders: seq<OrderRecord>)
    requires n <= |actions| && Folded(p, actions[..n], fills, orders).Err?
    ensures Folded(p, actions, fills, orders) == Folded(p, actions[..n], fills, orders)
    decreases |actions| - n
  {
    if n == |actions| {
      assert actions[..n] == actions;
    } else {
      FoldedSnoc(p, actions, n, fills, orders);
      FoldedStaysErr(p, actions, n + 1, fills, orders);
    }
  }

  /** Matches executions to actions, one action after the other, on copies of the cases. */
  method ReconcileActions(inputs: seq<Case>, snapshot: Snapshot) returns (r: Result<Reconciled, AttributionError>)
    ensures r == Reconciliation(inputs, snapshot)
  {
    if RepeatsCase(inputs) {
      return Err(DuplicateCases);
    }
    var uniqueFills := UniqueRows(Traded(snapshot), (f: Fill) => f.execId);
    var uniqueOrders := UniqueRows(snapshot.orders, (o: OrderRecord) => o.orderId);
    var uniqueActions := UniqueRows(snapshot.actions, (a: Action) => a.id);
    if uniqueFills.Err? || uniqueOrders.Err? || uniqueActions.Err? {
      UniqueErr(Traded(snapshot), (f: Fill) => f.execId);
      UniqueErr(snapshot.orders, (o: OrderRecord) => o.orderId);
      UniqueErr(snapshot.actions, (a: Action) => a.id);
      return Err(ConflictingRows);
    }
    var fills, orders, actions := uniqueFills.value, uniqueOrders.value, uniqueActions.value;
    var cases := Cleared(inputs);
    var audit := Audit([], [], []);
    var claimed: set<nat> := {};
    ghost var initial := Progress(cases, audit, claimed);
    for n := 0 to |actions|
      invariant Folded(initial, actions[..n], fills, orders) == Ok(Progress(cases, audit, claimed))
    {
      FoldedSnoc(initial, actions, n, fills, orders);
      var step := ReconcileAction(cases, audit, claimed, actions[n], fills, orders);
      if step.Err? {
        FoldedStaysErr(initial, actions, n + 1, fills, orders);
        return Err(step.error);
      }
      cases, audit, claimed := step.value.cases, step.value.audit, step.value.claimed;
    }
    assert actions[..|actions|] == actions;
    r := Ok(Finished(Progress(cases, audit, claimed)));
  }
}
