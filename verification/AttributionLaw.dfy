/** What becomes of every pair of an action and a case it may belong to, stated from the inputs alone. */
module AttributionLaw {
  import opened Wrappers
  import opened Sequences
  import opened Attribution
  import opened AttributionSafety

  // ----- the law

  /** A case the action may belong to: its channel and symbol, and the expected side if one is given. */
  predicate Concerns(c: Case, a: Action) {
    c.channel == a.channel && c.symbol == a.symbol && (a.expectedSide.None? || a.expectedSide == Some(c.side))
  }

  /** The executions took place between these two times. */
  ghost predicate Spans(linked: seq<Fill>, first: int, last: int) {
    && (forall f :: f in linked ==> first <= f.time <= last)
    && (exists f :: f in linked && f.time == first)
    && (exists f :: f in linked && f.time == last)
  }

  /** Some of the executions took place while the case was covered, or on both sides of it. */
  predicate Meets(c: Case, first: int, last: int) {
    first < c.end && last >= c.start
  }

  /** No other case of the action meets its executions. */
  ghost predicate OnlyCase(cases: seq<Case>, k: nat, a: Action, first: int, last: int)
    requires k < |cases|
  {
    forall j :: 0 <= j < |cases| && j != k && Concerns(cases[j], a) ==> !Meets(cases[j], first, last)
  }

  /** The minute bar at whose end the time is booked. */
  function Booked(time: int): int {
    (time + 59_999) / 60_000
  }

  /** Why the executions of one case's action cannot be replayed on it, if there is a reason. */
  function Hindrance(c: Case, order: Option<OrderRecord>, qty: real, first: int, last: int): Option<Reason> {
    if order.None? then Some(OrderMissing)
    else if !order.value.filled || order.value.qty != qty then Some(Partial)
    else if first < c.start || last >= c.end then Some(CrossesCutoff)
    else if Booked(first) != Booked(last) then Some(CrossesMinutes)
    else if Booked(first) * 60_000 >= c.end then Some(BeyondLastCandle)
    else None
  }

  ghost predicate IsUnresolved(audit: Audit, c: Case, a: Action, reason: Reason) {
    Unresolved(c.id, a.id, a.status, reason) in audit.unresolved
  }

  /** The action was applied to the case at the time of its first execution. */
  ghost predicate IsApplied(audit: Audit, c: Case, a: Action, first: int, qty: real) {
    exists r :: r in audit.applied && r.caseId == c.id && r.qty == qty && r.createdAt == a.createdAt
      && r.event == Event(first, a.kind, if a.kind.Close? then 100.0 else a.closePct, a.id, a.status)
  }

  /** The record of the order these executions belong to. */
  ghost predicate OrderOf(orders: seq<OrderRecord>, linked: seq<Fill>, order: Option<OrderRecord>) {
    match order
    case None => forall o, f :: o in orders && f in linked ==> o.orderId != f.orderId
    case Some(o) => o in orders && forall f :: f in linked ==> o.orderId == f.orderId
  }

  /** What the audit says of the action and the case, given the action's executions. */
  ghost predicate Outcome(
    audit: Audit, cases: seq<Case>, k: nat, a: Action, linked: seq<Fill>, orders: seq<OrderRecord>)
    requires k < |cases|
  {
    var c := cases[k];
    if linked == [] then IsUnresolved(audit, c, a, NoExecution)
    else
      forall first, last, order :: Spans(linked, first, last) && OrderOf(orders, linked, order) ==>
        Told(audit, cases, k, a, first, last, order, Sum(linked, (f: Fill) => f.qty))
  }

  /** The executions have a first and a last time and belong to one order. */
  ghost predicate OneExecution(linked: seq<Fill>, orders: seq<OrderRecord>) {
    && (exists first, last :: Spans(linked, first, last))
    && (exists order :: OrderOf(orders, linked, order))
  }

  ghost predicate Told(
    audit: Audit, cases: seq<Case>, k: nat, a: Action, first: int, last: int, order: Option<OrderRecord>, qty: real)
    requires k < |cases|
  {
    var c := cases[k];
    var hindrance := Hindrance(c, order, qty, first, last);
    if !Meets(c, first, last) then Excluded(c.id, a.id, first) in audit.excluded
    else if !OnlyCase(cases, k, a, first, last) then IsUnresolved(audit, c, a, SpansCases)
    else if hindrance.Some? then IsUnresolved(audit, c, a, hindrance.value)
    else IsApplied(audit, c, a, first, qty)
  }

  // ----- the matched executions

  lemma {:induction false} InsertSums<T>(x: T, s: seq<T>, key: T -> int, amount: T -> real)
    ensures Sum(Insert(x, s, key), amount) == amount(x) + Sum(s, amount)
  {
    if s == [] || key(x) <= key(s[0]) {
      assert ([x] + s)[1..] == s;
    } else {
      InsertSums(x, s[1..], key, amount);
      assert ([s[0]] + Insert(x, s[1..], key))[1..] == Insert(x, s[1..], key);
    }
  }

  lemma {:induction false} SortSums<T>(s: seq<T>, key: T -> int, amount: T -> real)
    ensures Sum(StableSort(s, key), amount) == Sum(s, amount)
  {
    if s != [] {
      SortSums(s[1..], key, amount);
      InsertSums(s[0], StableSort(s[1..], key), key, amount);
    }
  }

  /** The executions of an action among `fills`, written out. */
  function LinkedFills(fills: seq<Fill>, a: Action): seq<Fill> {
    Filter(fills, (f: Fill) => (a.orderId != 0 && f.orderId == a.orderId) || f.link == a.link)
  }

  lemma {:induction false} MatchedAreLinked(fills: seq<Fill>, a: Action)
    ensures forall f :: f in Matched(fills, a) <==> f in LinkedFills(fills, a)
    ensures Quantity(Matched(fills, a)) == Sum(LinkedFills(fills, a), (f: Fill) => f.qty)
    ensures Matched(fills, a) == [] <==> LinkedFills(fills, a) == []
  {
    var linked := LinkedFills(fills, a);
    var qty := (f: Fill) => f.qty;
    FilterAgrees(fills, (f: Fill) => Attributable(f, a),
                 (f: Fill) => (a.orderId != 0 && f.orderId == a.orderId) || f.link == a.link);
    assert Matched(fills, a) == StableSort(StableSort(linked, (f: Fill) => f.execId), (f: Fill) => f.time);
    var byId := StableSort(linked, (f: Fill) => f.execId);
    SortPermutes(linked, (f: Fill) => f.execId);
    SortPermutes(byId, (f: Fill) => f.time);
    SortSums(linked, (f: Fill) => f.execId, qty);
    SortSums(byId, (f: Fill) => f.time, qty);
    assert Quantity(Matched(fills, a)) == Sum(Matched(fills, a), qty);
  }

  lemma {:induction false} MatchedSpans(fills: seq<Fill>, a: Action, first: int, last: int)
    requires Matched(fills, a) != [] && Spans(LinkedFills(fills, a), first, last)
    ensures first == Matched(fills, a)[0].time && last == Matched(fills, a)[|Matched(fills, a)| - 1].time
  {
    var matched := Matched(fills, a);
    MatchedFacts(fills, a);
    MatchedAreLinked(fills, a);
    assert matched[0] in matched && matched[|matched| - 1] in matched;
  }

  // ----- the cases of an action

  ghost predicate Rising(ks: seq<nat>) {
    forall i, j :: 0 <= i < j < |ks| ==> ks[i] < ks[j]
  }

  lemma {:induction false} ConsRises(k: nat, later: seq<nat>)
    requires Rising(later) && forall j :: j in later ==> k < j
    ensures Rising([k] + later)
  {
    var ks := [k] + later;
    forall i, j | 0 <= i < j < |ks| ensures ks[i] < ks[j] {
      assert later[j - 1] in later;
    }
  }

  lemma {:induction false} CandidatesRise(cases: seq<Case>, a: Action, i: nat)
    requires i <= |cases|
    ensures Rising(CandidateIndexes(cases, a, i))
    ensures forall k :: k in CandidateIndexes(cases, a, i) <==> i <= k < |cases| && Concerns(cases[k], a)
    decreases |cases| - i
  {
    if i < |cases| {
      CandidatesRise(cases, a, i + 1);
      ConsRises(i, CandidateIndexes(cases, a, i + 1));
      assert IsCandidate(cases[i], a) <==> Concerns(cases[i], a);
    }
  }

  lemma {:induction false} TailRises(ks: seq<nat>)
    requires Rising(ks) && ks != []
    ensures Rising(ks[1..]) && forall j :: j in ks[1..] ==> ks[0] < j
  {
    forall j | j in ks[1..] ensures ks[0] < j {
      var i :| 0 <= i < |ks[1..]| && ks[1..][i] == j;
      assert ks[0] < ks[i + 1];
    }
  }

  /** The overlapping cases are the candidates the executions meet. */
  ghost predicate IsOverlapping(cases: seq<Case>, ks: seq<nat>, overlapping: seq<nat>, first: int, last: int) {
    forall k :: k in overlapping <==> k in ks && k < |cases| && Meets(cases[k], first, last)
  }

  lemma {:induction false} OverlappingRise(cases: seq<Case>, ks: seq<nat>, matched: seq<Fill>)
    requires matched != [] && InBounds(ks, cases) && Rising(ks)
    ensures Rising(OverlappingIndexes(cases, ks, matched))
    ensures
      IsOverlapping(cases, ks, OverlappingIndexes(cases, ks, matched), matched[0].time, matched[|matched| - 1].time)
  {
    if ks != [] {
      assert InBounds(ks[1..], cases);
      TailRises(ks);
      OverlappingRise(cases, ks[1..], matched);
      var later := OverlappingIndexes(cases, ks[1..], matched);
      ConsRises(ks[0], later);
      assert ks == [ks[0]] + ks[1..];
      if Overlaps(cases[ks[0]], matched) {
        assert OverlappingIndexes(cases, ks, matched) == [ks[0]] + later;
      } else {
        assert OverlappingIndexes(cases, ks, matched) == later;
      }
    }
  }

  lemma {:induction false} LoneIndex(ks: seq<nat>, k: nat)
    requires Rising(ks) && k in ks && forall j :: j in ks ==> j == k
    ensures ks == [k]
  {
    assert |ks| > 1 ==> ks[0] < ks[1];
    forall i | 0 <= i < |ks| ensures ks[i] == k {
      assert ks[i] in ks;
    }
  }

  lemma {:induction false} TwoIndexes(ks: seq<nat>, j: nat, k: nat)
    requires j in ks && k in ks && j != k
    ensures |ks| > 1
  {
  }

  /** A case that meets the executions is the only overlapping one, or one of several. */
  lemma {:induction false} OverlapsOrOnly(
    cases: seq<Case>, ks: seq<nat>, overlapping: seq<nat>, a: Action, first: int, last: int, k: nat)
    requires k < |cases| && Concerns(cases[k], a) && Meets(cases[k], first, last)
    requires forall j: nat :: j in ks <==> j < |cases| && Concerns(cases[j], a)
    requires Rising(overlapping) && IsOverlapping(cases, ks, overlapping, first, last)
    ensures if OnlyCase(cases, k, a, first, last) then overlapping == [k] else |overlapping| > 1 && k in overlapping
  {
    if OnlyCase(cases, k, a, first, last) {
      forall j | j in overlapping ensures j == k {
      }
      LoneIndex(overlapping, k);
    } else {
      var j: nat :| j < |cases| && j != k && Concerns(cases[j], a) && Meets(cases[j], first, last);
      TwoIndexes(overlapping, j, k);
    }
  }

  lemma {:induction false} MissedIsExcluded(cases: seq<Case>, ks: seq<nat>, a: Action, matched: seq<Fill>, k: nat)
    requires matched != [] && InBounds(ks, cases) && k in ks && k < |cases|
    requires !Meets(cases[k], matched[0].time, matched[|matched| - 1].time)
    ensures Excluded(cases[k].id, a.id, matched[0].time) in Missed(cases, ks, a, matched)
  {
    assert InBounds(ks[1..], cases);
    if ks[0] != k {
      MissedIsExcluded(cases, ks[1..], a, matched, k);
    }
  }

  lemma {:induction false} DeferredIsUnresolved(cases: seq<Case>, ks: seq<nat>, a: Action, reason: Reason, k: nat)
    requires InBounds(ks, cases) && k in ks && k < |cases|
    ensures Unresolved(cases[k].id, a.id, a.status, reason) in Deferred(cases, ks, a, reason)
  {
    var i :| 0 <= i < |ks| && ks[i] == k;
    assert Deferred(cases, ks, a, reason)[i] == Unresolved(cases[k].id, a.id, a.status, reason);
  }

  // ----- one action

  lemma {:induction false} JudgedByHindrance(c: Case, a: Action, fills: seq<Fill>, orders: seq<OrderRecord>)
    requires Matched(fills, a) != [] && Judge(c, a, Matched(fills, a), orders).Ok?
    ensures
      var matched := Matched(fills, a);
      var first, last := matched[0].time, matched[|matched| - 1].time;
      var hindrance := Hindrance(c, FindOrder(orders, matched[0].orderId), Quantity(matched), first, last);
      Judge(c, a, matched, orders).value
        == if hindrance.Some? then Defer(hindrance.value)
           else Apply(Event(first, a.kind, if a.kind.Close? then 100.0 else a.closePct, a.id, a.status))
  {
    MatchedFacts(fills, a);
    var matched := Matched(fills, a);
    assert matched[|matched| - 1] in matched;
  }

  /** The one record of the executions' order. */
  lemma {:induction false} FoundOrder(fills: seq<Fill>, a: Action, orders: seq<OrderRecord>, order: Option<OrderRecord>)
    requires Matched(fills, a) != [] && Distinct(orders, (o: OrderRecord) => o.orderId)
    requires OrderOf(orders, LinkedFills(fills, a), order)
    ensures FindOrder(orders, Matched(fills, a)[0].orderId) == order
  {
    var f := Matched(fills, a)[0];
    MatchedAreLinked(fills, a);
    assert f in Matched(fills, a);
    var found := FindOrder(orders, f.orderId);
    if order.None? {
      assert f in LinkedFills(fills, a);
    } else {
      FindsOrder(orders, f.orderId, order.value);
      SameKeySameRow(orders, (o: OrderRecord) => o.orderId, found.value, order.value);
    }
  }

  lemma {:induction false} FindsOrder(orders: seq<OrderRecord>, id: nat, o: OrderRecord)
    requires o in orders && o.orderId == id
    ensures FindOrder(orders, id).Some?
  {
    if orders[0].orderId != id {
      FindsOrder(orders[1..], id, o);
    }
  }

  /** Nothing reported is ever taken back. */
  ghost predicate Extends(audit: Audit, more: Audit) {
    audit.applied <= more.applied && audit.unresolved <= more.unresolved && audit.excluded <= more.excluded
  }

  lemma {:induction false} SettledExtends(
    p: Progress, overlapping: seq<nat>, a: Action, matched: seq<Fill>, orders: seq<OrderRecord>)
    requires matched != [] && InBounds(overlapping, p.cases) && Settled(p, overlapping, a, matched, orders).Ok?
    ensures Extends(p.audit, Settled(p, overlapping, a, matched, orders).value.audit)
  {
  }

  /** With executions and a case of the action, a step that succeeds is the one on a matched execution. */
  lemma {:induction false} StepExecutes(p: Progress, a: Action, fills: seq<Fill>, orders: seq<OrderRecord>, k: nat)
    requires Stepped(p, a, fills, orders).Ok? && !a.kind.Other? && k < |p.cases| && Concerns(p.cases[k], a)
    requires Matched(fills, a) != []
    ensures k in CandidateIndexes(p.cases, a, 0)
    ensures OneOrder(Matched(fills, a), a)
    ensures Stepped(p, a, fills, orders) == Executed(p, CandidateIndexes(p.cases, a, 0), a, Matched(fills, a), orders)
  {
    CandidatesRise(p.cases, a, 0);
    assert k in CandidateIndexes(p.cases, a, 0);
  }

  lemma {:induction false} LinkedSpan(fills: seq<Fill>, a: Action)
    requires Matched(fills, a) != []
    ensures exists first, last :: Spans(LinkedFills(fills, a), first, last)
  {
    var matched, linked := Matched(fills, a), LinkedFills(fills, a);
    MatchedAreLinked(fills, a);
    MatchedFacts(fills, a);
    var first, last := matched[0], matched[|matched| - 1];
    assert first in matched && last in matched;
    assert first in linked && last in linked;
    assert Spans(linked, first.time, last.time);
  }

  lemma {:induction false} LinkedIsOneExecution(fills: seq<Fill>, a: Action, orders: seq<OrderRecord>)
    requires Matched(fills, a) != [] && OneOrder(Matched(fills, a), a)
    ensures OneExecution(LinkedFills(fills, a), orders)
  {
    MatchedAreLinked(fills, a);
    LinkedSpan(fills, a);
    OneOrderIsFound(LinkedFills(fills, a), orders, Matched(fills, a)[0].orderId);
  }

  lemma {:induction false} OneOrderIsFound(linked: seq<Fill>, orders: seq<OrderRecord>, id: nat)
    requires linked != [] && forall f :: f in linked ==> f.orderId == id
    ensures exists order :: OrderOf(orders, linked, order)
  {
    var found := FindOrder(orders, id);
    if found.None? {
      forall o | o in orders ensures o.orderId != id {
        if o.orderId == id {
          FindsOrder(orders, id, o);
        }
      }
    }
    assert OrderOf(orders, linked, found);
  }

  /** What one action adds to the audit about one of its cases. */
  lemma {:induction false} StepTells(p: Progress, a: Action, fills: seq<Fill>, orders: seq<OrderRecord>, k: nat)
    requires Stepped(p, a, fills, orders).Ok? && !a.kind.Other? && k < |p.cases| && Concerns(p.cases[k], a)
    requires Distinct(orders, (o: OrderRecord) => o.orderId)
    ensures Outcome(Stepped(p, a, fills, orders).value.audit, p.cases, k, a, LinkedFills(fills, a), orders)
    ensures LinkedFills(fills, a) != [] ==> OneExecution(LinkedFills(fills, a), orders)
  {
    var ks := CandidateIndexes(p.cases, a, 0);
    var matched := Matched(fills, a);
    var audit := Stepped(p, a, fills, orders).value.audit;
    MatchedAreLinked(fills, a);
    if matched == [] {
      CandidatesRise(p.cases, a, 0);
      DeferredIsUnresolved(p.cases, ks, a, NoExecution, k);
    } else {
      StepExecutes(p, a, fills, orders, k);
      LinkedIsOneExecution(fills, a, orders);
      forall first, last, order | Spans(LinkedFills(fills, a), first, last)
                                  && OrderOf(orders, LinkedFills(fills, a), order)
        ensures Told(audit, p.cases, k, a, first, last, order, Sum(LinkedFills(fills, a), (f: Fill) => f.qty))
      {
        MatchedSpans(fills, a, first, last);
        FoundOrder(fills, a, orders, order);
        ExecutionTells(p, a, fills, orders, k, first, last);
      }
    }
  }

  lemma {:induction false} ExecutionTells(
    p: Progress, a: Action, fills: seq<Fill>, orders: seq<OrderRecord>, k: nat, first: int, last: int)
    requires k < |p.cases| && Concerns(p.cases[k], a) && Matched(fills, a) != []
    requires k in CandidateIndexes(p.cases, a, 0)
    requires Executed(p, CandidateIndexes(p.cases, a, 0), a, Matched(fills, a), orders).Ok?
    requires first == Matched(fills, a)[0].time && last == Matched(fills, a)[|Matched(fills, a)| - 1].time
    ensures
      Told(Executed(p, CandidateIndexes(p.cases, a, 0), a, Matched(fills, a), orders).value.audit, p.cases, k, a,
           first, last, FindOrder(orders, Matched(fills, a)[0].orderId), Quantity(Matched(fills, a)))
  {
    if !Meets(p.cases[k], first, last) {
      MissedTells(p, a, Matched(fills, a), orders, k);
    } else {
      MeetingTells(p, a, fills, orders, k, first, last);
    }
  }

  lemma {:induction false} MissedTells(p: Progress, a: Action, matched: seq<Fill>, orders: seq<OrderRecord>, k: nat)
    requires k < |p.cases| && matched != [] && k in CandidateIndexes(p.cases, a, 0)
    requires Executed(p, CandidateIndexes(p.cases, a, 0), a, matched, orders).Ok?
    requires !Meets(p.cases[k], matched[0].time, matched[|matched| - 1].time)
    ensures
      Excluded(p.cases[k].id, a.id, matched[0].time)
        in Executed(p, CandidateIndexes(p.cases, a, 0), a, matched, orders).value.audit.excluded
  {
    var ks := CandidateIndexes(p.cases, a, 0);
    MissedIsExcluded(p.cases, ks, a, matched, k);
    SettledExtends(Noted(p, ks, a, matched), OverlappingIndexes(p.cases, ks, matched), a, matched, orders);
  }

  lemma {:induction false} MeetingTells(
    p: Progress, a: Action, fills: seq<Fill>, orders: seq<OrderRecord>, k: nat, first: int, last: int)
    requires k < |p.cases| && Concerns(p.cases[k], a) && Matched(fills, a) != []
    requires Executed(p, CandidateIndexes(p.cases, a, 0), a, Matched(fills, a), orders).Ok?
    requires first == Matched(fills, a)[0].time && last == Matched(fills, a)[|Matched(fills, a)| - 1].time
    requires Meets(p.cases[k], first, last)
    ensures
      Told(Executed(p, CandidateIndexes(p.cases, a, 0), a, Matched(fills, a), orders).value.audit, p.cases, k, a,
           first, last, FindOrder(orders, Matched(fills, a)[0].orderId), Quantity(Matched(fills, a)))
  {
    var ks, matched := CandidateIndexes(p.cases, a, 0), Matched(fills, a);
    var overlapping := OverlappingIndexes(p.cases, ks, matched);
    CandidatesRise(p.cases, a, 0);
    OverlappingRise(p.cases, ks, matched);
    OverlapsOrOnly(p.cases, ks, overlapping, a, first, last, k);
    var noted := Noted(p, ks, a, matched);
    assert Executed(p, ks, a, matched, orders) == Settled(noted, overlapping, a, matched, orders);
    if OnlyCase(p.cases, k, a, first, last) {
      LoneCaseTells(noted, k, a, fills, orders, first, last);
    } else {
      SeveralCasesTell(noted, overlapping, a, matched, orders, k);
    }
  }

  lemma {:induction false} SeveralCasesTell(
    p: Progress, overlapping: seq<nat>, a: Action, matched: seq<Fill>, orders: seq<OrderRecord>, k: nat)
    requires matched != [] && InBounds(overlapping, p.cases) && |overlapping| > 1
    requires k in overlapping && k < |p.cases|
    ensures Settled(p, overlapping, a, matched, orders).Ok?
    ensures IsUnresolved(Settled(p, overlapping, a, matched, orders).value.audit, p.cases[k], a, SpansCases)
  {
    DeferredIsUnresolved(p.cases, overlapping, a, SpansCases, k);
  }

  lemma {:induction false} LoneCaseTells(
    p: Progress, k: nat, a: Action, fills: seq<Fill>, orders: seq<OrderRecord>, first: int, last: int)
    requires k < |p.cases| && Matched(fills, a) != [] && Settled(p, [k], a, Matched(fills, a), orders).Ok?
    requires first == Matched(fills, a)[0].time && last == Matched(fills, a)[|Matched(fills, a)| - 1].time
    ensures
      var matched := Matched(fills, a);
      var audit := Settled(p, [k], a, matched, orders).value.audit;
      var qty := Quantity(matched);
      var hindrance := Hindrance(p.cases[k], FindOrder(orders, matched[0].orderId), qty, first, last);
      if hindrance.Some? then IsUnresolved(audit, p.cases[k], a, hindrance.value)
      else IsApplied(audit, p.cases[k], a, first, qty)
  {
    var matched := Matched(fills, a);
    JudgedByHindrance(p.cases[k], a, fills, orders);
    var verdict := Judge(p.cases[k], a, matched, orders).value;
    if verdict.Defer? {
      DeferredIsUnresolved(p.cases, [k], a, verdict.reason, k);
    } else {
      var r := Record(p.cases[k], a, matched, verdict.event);
      assert r in Settled(p, [k], a, matched, orders).value.audit.applied;
    }
  }

  // ----- the whole pass

  lemma {:induction false} StepExtends(p: Progress, a: Action, fills: seq<Fill>, orders: seq<OrderRecord>)
    requires Stepped(p, a, fills, orders).Ok?
    ensures Extends(p.audit, Stepped(p, a, fills, orders).value.audit)
  {
    var ks := CandidateIndexes(p.cases, a, 0);
    var matched := Matched(fills, a);
    if !a.kind.Other? && ks != [] && matched != [] {
      var overlapping := OverlappingIndexes(p.cases, ks, matched);
      SettledExtends(Noted(p, ks, a, matched), overlapping, a, matched, orders);
    }
  }

  lemma {:induction false} FoldExtends(
    p: Progress, actions: seq<Action>, n: nat, m: nat, fills: seq<Fill>, orders: seq<OrderRecord>)
    requires n <= m <= |actions| && Folded(p, actions[..m], fills, orders).Ok?
    ensures Folded(p, actions[..n], fills, orders).Ok?
    ensures Extends(Folded(p, actions[..n], fills, orders).value.audit,
                    Folded(p, actions[..m], fills, orders).value.audit)
    decreases m - n
  {
    if n < m {
      FoldedSnoc(p, actions, m - 1, fills, orders);
      FoldExtends(p, actions, n, m - 1, fills, orders);
      StepExtends(Folded(p, actions[..m - 1], fills, orders).value, actions[m - 1], fills, orders);
    }
  }

  lemma {:induction false} StaysTold(
    audit: Audit, more: Audit, cases: seq<Case>, k: nat, a: Action, linked: seq<Fill>, orders: seq<OrderRecord>)
    requires k < |cases| && Extends(audit, more) && Outcome(audit, cases, k, a, linked, orders)
    ensures Outcome(more, cases, k, a, linked, orders)
  {
    if linked != [] {
      forall first, last, order | Spans(linked, first, last) && OrderOf(orders, linked, order)
        ensures Told(more, cases, k, a, first, last, order, Sum(linked, (f: Fill) => f.qty))
      {
        ToldStays(audit, more, cases, k, a, first, last, order, Sum(linked, (f: Fill) => f.qty));
      }
    }
  }

  lemma {:induction false} ToldStays(
    audit: Audit, more: Audit, cases: seq<Case>, k: nat, a: Action, first: int, last: int, order: Option<OrderRecord>,
    qty: real)
    requires k < |cases| && Extends(audit, more) && Told(audit, cases, k, a, first, last, order, qty)
    ensures Told(more, cases, k, a, first, last, order, qty)
  {
  }

  lemma {:induction false} ToldOfInputs(
    audit: Audit, cases: seq<Case>, inputs: seq<Case>, k: nat, a: Action, linked: seq<Fill>, orders: seq<OrderRecord>)
    requires SameCases(cases, inputs) && k < |cases| && Outcome(audit, cases, k, a, linked, orders)
    ensures Outcome(audit, inputs, k, a, linked, orders)
  {
    forall j | 0 <= j < |cases|
      ensures cases[j].id == inputs[j].id && cases[j].start == inputs[j].start && cases[j].end == inputs[j].end
      ensures Concerns(cases[j], a) == Concerns(inputs[j], a)
    {
      assert Erased(cases[j]) == Erased(inputs[j]);
    }
    if linked != [] {
      forall first, last, order | Spans(linked, first, last) && OrderOf(orders, linked, order)
        ensures Told(audit, inputs, k, a, first, last, order, Sum(linked, (f: Fill) => f.qty))
      {
        assert OnlyCase(cases, k, a, first, last) == OnlyCase(inputs, k, a, first, last);
        assert Told(audit, cases, k, a, first, last, order, Sum(linked, (f: Fill) => f.qty));
      }
    }
  }

  /** The distinct executions of a snapshot that are trades, and its distinct order records. */
  ghost predicate DistinctRows(snapshot: Snapshot, fills: seq<Fill>, orders: seq<OrderRecord>) {
    && (forall f :: f in fills <==> f in snapshot.fills && f.trade)
    && (forall i, j :: 0 <= i < j < |fills| ==> fills[i].execId != fills[j].execId)
    && (forall o :: o in orders <==> o in snapshot.orders)
    && (forall i, j :: 0 <= i < j < |orders| ==> orders[i].orderId != orders[j].orderId)
  }

  /**
   The law of attribution. For every REDUCE or CLOSE and every case of its channel, symbol and side, the audit says
   what its executions decide, an execution being the action's if it carries its recorded order or its client link:
   without any the pair is unresolved; executions that miss the case exclude it; those that meet several cases are
   unresolved for each; and on a single case the action is applied at the first execution, unless its order record is
   missing, not filled to just this quantity, or the executions cross the case's end or a minute.
   */
  lemma {:induction false} EveryPairIsDecided(inputs: seq<Case>, snapshot: Snapshot, a: Action, k: nat)
    returns (fills: seq<Fill>, orders: seq<OrderRecord>)
    requires Reconciliation(inputs, snapshot).Ok?
    requires a in snapshot.actions && !a.kind.Other? && k < |inputs| && Concerns(inputs[k], a)
    ensures DistinctRows(snapshot, fills, orders)
    ensures
      var linked := Filter(fills, (f: Fill) => (a.orderId != 0 && f.orderId == a.orderId) || f.link == a.link);
      && Outcome(Reconciliation(inputs, snapshot).value.audit, inputs, k, a, linked, orders)
      && (linked != [] ==> OneExecution(linked, orders))
  {
    var actions, p;
    fills, orders, actions, p := ReconciliationParts(inputs, snapshot);
    FilterElements(snapshot.fills, (f: Fill) => f.trade);
    RowsAreDistinct(fills, orders);
    var n :| 0 <= n < |actions| && actions[n] == a;
    DecidedByStep(inputs, fills, orders, actions, n, k, p);
  }

  lemma {:induction false} DecidedByStep(
    inputs: seq<Case>, fills: seq<Fill>, orders: seq<OrderRecord>, actions: seq<Action>, n: nat, k: nat, p: Progress)
    requires n < |actions| && !actions[n].kind.Other? && k < |inputs| && Concerns(inputs[k], actions[n])
    requires DistinctCases(inputs) && Distinct(actions, (b: Action) => b.id) && AllTrades(fills)
    requires Distinct(orders, (o: OrderRecord) => o.orderId)
    requires Folded(Start(inputs), actions, fills, orders) == Ok(p)
    ensures Outcome(p.audit, inputs, k, actions[n], LinkedFills(fills, actions[n]), orders)
    ensures LinkedFills(fills, actions[n]) != [] ==> OneExecution(LinkedFills(fills, actions[n]), orders)
  {
    var a := actions[n];
    assert actions[..|actions|] == actions;
    FoldExtends(Start(inputs), actions, n + 1, |actions|, fills, orders);
    FoldExtends(Start(inputs), actions, n, n + 1, fills, orders);
    FoldKeeps(inputs, fills, orders, actions, n);
    FoldedSnoc(Start(inputs), actions, n, fills, orders);
    var before := Folded(Start(inputs), actions[..n], fills, orders).value;
    var after := Folded(Start(inputs), actions[..n + 1], fills, orders).value;
    assert Erased(before.cases[k]) == Erased(inputs[k]);
    StepTells(before, a, fills, orders, k);
    StaysTold(after.audit, p.audit, before.cases, k, a, LinkedFills(fills, a), orders);
    ToldOfInputs(p.audit, before.cases, inputs, k, a, LinkedFills(fills, a), orders);
  }

  lemma {:induction false} RowsAreDistinct(fills: seq<Fill>, orders: seq<OrderRecord>)
    requires Distinct(fills, (f: Fill) => f.execId) && Distinct(orders, (o: OrderRecord) => o.orderId)
    ensures forall i, j :: 0 <= i < j < |fills| ==> fills[i].execId != fills[j].execId
    ensures forall i, j :: 0 <= i < j < |orders| ==> orders[i].orderId != orders[j].orderId
  {
    var execId := (f: Fill) => f.execId;
    var orderId := (o: OrderRecord) => o.orderId;
    forall i, j | 0 <= i < j < |fills| ensures fills[i].execId != fills[j].execId {
      assert execId(fills[i]) != execId(fills[j]);
    }
    forall i, j | 0 <= i < j < |orders| ensures orders[i].orderId != orders[j].orderId {
      assert orderId(orders[i]) != orderId(orders[j]);
    }
  }
}
