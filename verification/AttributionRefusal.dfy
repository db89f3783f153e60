/** When a reconciliation is refused: exactly when its rows, or the executions of some action, contradict each other. */
module AttributionRefusal {
  import opened Wrappers
  import opened Sequences
  import opened Trading
  import opened Attribution
  import opened AttributionSafety
  import opened AttributionLaw

  /** The action closes something, and has executions and a case they may belong to. */
  ghost predicate Executes(cases: seq<Case>, a: Action, linked: seq<Fill>) {
    !a.kind.Other? && linked != [] && exists k: nat :: k < |cases| && Concerns(cases[k], a)
  }

  /** The executions are of several orders or of another than the recorded one, or no closing fills of the action. */
  ghost predicate Misread(linked: seq<Fill>, a: Action) {
    || (exists f, g :: f in linked && g in linked && f.orderId != g.orderId)
    || (exists f :: f in linked && a.orderId != 0 && f.orderId != a.orderId)
    || (exists f :: f in linked && (f.symbol != a.symbol || (f.link != 0 && f.link != a.link)
                                    || f.qty != f.closed || f.qty <= 0.0))
  }

  /** Executions that do not close the case, an order record that disagrees, or a percentage that is none. */
  ghost predicate Misfits(
    c: Case, a: Action, linked: seq<Fill>, order: Option<OrderRecord>, first: int, last: int, qty: real)
  {
    || (exists f :: f in linked && f.sells != c.side.Long?)
    || (order.Some? && !Agrees(order.value, c, a))
    || (Hindrance(c, order, qty, first, last).None? && a.kind.Reduce? && !(0.0 < a.closePct <= 100.0))
  }

  /** Some case is the only one these executions meet, and they do not fit it. */
  ghost predicate MisfitsCase(cases: seq<Case>, a: Action, linked: seq<Fill>, orders: seq<OrderRecord>) {
    exists k: nat, first, last, order :: MisfitsAt(cases, k, a, linked, orders, first, last, order)
  }

  ghost predicate MisfitsAt(
    cases: seq<Case>, k: nat, a: Action, linked: seq<Fill>, orders: seq<OrderRecord>, first: int, last: int,
    order: Option<OrderRecord>)
  {
    && k < |cases| && Concerns(cases[k], a) && Spans(linked, first, last) && OrderOf(orders, linked, order)
    && Meets(cases[k], first, last) && OnlyCase(cases, k, a, first, last)
    && Misfits(cases[k], a, linked, order, first, last, Sum(linked, (f: Fill) => f.qty))
  }

  // ----- one action

  lemma {:induction false} JudgedByMisfit(c: Case, a: Action, fills: seq<Fill>, orders: seq<OrderRecord>)
    requires Matched(fills, a) != [] && !a.kind.Other?
    ensures
      var matched := Matched(fills, a);
      var first, last := matched[0].time, matched[|matched| - 1].time;
      Judge(c, a, matched, orders).Err?
      <==> Misfits(c, a, LinkedFills(fills, a), FindOrder(orders, matched[0].orderId), first, last, Quantity(matched))
  {
    MatchedAreLinked(fills, a);
    MatchedFacts(fills, a);
    var matched := Matched(fills, a);
    var first, last := matched[0].time, matched[|matched| - 1].time;
    assert matched[|matched| - 1] in matched;
    var order := FindOrder(orders, matched[0].orderId);
    if order.Some? {
      HindranceIsObstacle(c, order.value, Quantity(matched), first, last);
      assert ConflictsWith(order.value, c, a) <==> !Agrees(order.value, c, a) by {
        ConflictsDisagree(order.value, c, a);
      }
    }
  }

  lemma {:induction false} ConflictsDisagree(o: OrderRecord, c: Case, a: Action)
    ensures ConflictsWith(o, c, a) <==> !Agrees(o, c, a)
  {
  }

  lemma {:induction false} HindranceIsObstacle(c: Case, o: OrderRecord, qty: real, first: int, last: int)
    requires first <= last
    ensures Hindrance(c, Some(o), qty, first, last) == Obstacle(o, c, qty, first, last)
  {
  }

  /** Executions that read well are of one order and close it for the action. */
  lemma {:induction false} ReadsWell(fills: seq<Fill>, a: Action)
    requires Matched(fills, a) != []
    ensures !Misread(LinkedFills(fills, a), a) <==>
              OneOrder(Matched(fills, a), a) && forall f :: f in Matched(fills, a) ==> ClosingFill(f, a)
  {
    MatchedAreLinked(fills, a);
    assert Matched(fills, a)[0] in Matched(fills, a);
  }

  /** With one order behind the executions, what a misfit is measured by is determined. */
  lemma {:induction false} OneMeasure(
    fills: seq<Fill>, a: Action, orders: seq<OrderRecord>, first: int, last: int, order: Option<OrderRecord>)
    requires Matched(fills, a) != [] && Distinct(orders, (o: OrderRecord) => o.orderId)
    requires OneOrder(Matched(fills, a), a)
    ensures
      var matched, linked := Matched(fills, a), LinkedFills(fills, a);
      Spans(linked, first, last) && OrderOf(orders, linked, order)
      <==> && first == matched[0].time && last == matched[|matched| - 1].time
           && order == FindOrder(orders, matched[0].orderId)
  {
    var linked := LinkedFills(fills, a);
    LinkedSpan(fills, a);
    LinkedIsOneExecution(fills, a, orders);
    var first', last' :| Spans(linked, first', last');
    var order' :| OrderOf(orders, linked, order');
    MatchedSpans(fills, a, first', last');
    FoundOrder(fills, a, orders, order');
    if Spans(linked, first, last) && OrderOf(orders, linked, order) {
      MatchedSpans(fills, a, first, last);
      FoundOrder(fills, a, orders, order);
    }
  }

  lemma {:induction false} LoneCase(
    cases: seq<Case>, ks: seq<nat>, overlapping: seq<nat>, a: Action, first: int, last: int)
    requires forall j: nat :: j in ks <==> j < |cases| && Concerns(cases[j], a)
    requires IsOverlapping(cases, ks, overlapping, first, last) && |overlapping| == 1
    ensures overlapping[0] < |cases| && Concerns(cases[overlapping[0]], a) && Meets(cases[overlapping[0]], first, last)
    ensures OnlyCase(cases, overlapping[0], a, first, last)
  {
    var k := overlapping[0];
    assert k in overlapping;
    forall j | 0 <= j < |cases| && j != k && Concerns(cases[j], a)
      ensures !Meets(cases[j], first, last)
    {
      assert j in overlapping ==> j == k;
    }
  }

  lemma {:induction false} LoneExecution(
    p: Progress, ks: seq<nat>, a: Action, matched: seq<Fill>, orders: seq<OrderRecord>, k: nat)
    requires matched != [] && InBounds(ks, p.cases) && k < |p.cases|
    requires OverlappingIndexes(p.cases, ks, matched) == [k]
    ensures Executed(p, ks, a, matched, orders).Err? <==> Judge(p.cases[k], a, matched, orders).Err?
  {
  }

  /** The overlapping case of an execution that is refused. */
  lemma {:induction false} RefusedAlone(p: Progress, a: Action, matched: seq<Fill>, orders: seq<OrderRecord>)
    returns (k: nat)
    requires matched != [] && Executed(p, CandidateIndexes(p.cases, a, 0), a, matched, orders).Err?
    ensures OverlappingIndexes(p.cases, CandidateIndexes(p.cases, a, 0), matched) == [k] && k < |p.cases|
    ensures Judge(p.cases[k], a, matched, orders).Err?
  {
    var overlapping := OverlappingIndexes(p.cases, CandidateIndexes(p.cases, a, 0), matched);
    k := overlapping[0];
    assert overlapping == [k];
  }

  lemma {:induction false} OverlapsAlone(cases: seq<Case>, a: Action, matched: seq<Fill>, k: nat)
    requires matched != [] && k < |cases|
    ensures OverlappingIndexes(cases, CandidateIndexes(cases, a, 0), matched) == [k]
            <==> && Concerns(cases[k], a) && Meets(cases[k], matched[0].time, matched[|matched| - 1].time)
                 && OnlyCase(cases, k, a, matched[0].time, matched[|matched| - 1].time)
  {
    var ks := CandidateIndexes(cases, a, 0);
    var first, last := matched[0].time, matched[|matched| - 1].time;
    var overlapping := OverlappingIndexes(cases, ks, matched);
    CandidatesRise(cases, a, 0);
    OverlappingRise(cases, ks, matched);
    if overlapping == [k] {
      LoneCase(cases, ks, overlapping, a, first, last);
    }
    if Concerns(cases[k], a) && Meets(cases[k], first, last) {
      OverlapsOrOnly(cases, ks, overlapping, a, first, last, k);
    }
  }

  lemma {:induction false} JudgedOnLinked(
    c: Case, a: Action, fills: seq<Fill>, orders: seq<OrderRecord>, first: int, last: int, order: Option<OrderRecord>)
    requires Matched(fills, a) != [] && !a.kind.Other?
    requires first == Matched(fills, a)[0].time && last == Matched(fills, a)[|Matched(fills, a)| - 1].time
    requires order == FindOrder(orders, Matched(fills, a)[0].orderId)
    ensures
      Judge(c, a, Matched(fills, a), orders).Err?
      <==> Misfits(c, a, LinkedFills(fills, a), order, first, last, Sum(LinkedFills(fills, a), (f: Fill) => f.qty))
  {
    JudgedByMisfit(c, a, fills, orders);
    MatchedAreLinked(fills, a);
  }

  /** Where the executions meet one case only, they misfit it exactly when the verdict on it fails. */
  lemma {:induction false} MisfitIsJudged(
    cases: seq<Case>, k: nat, a: Action, fills: seq<Fill>, orders: seq<OrderRecord>, first: int, last: int,
    order: Option<OrderRecord>)
    requires Matched(fills, a) != [] && Distinct(orders, (o: OrderRecord) => o.orderId) && !a.kind.Other?
    requires OneOrder(Matched(fills, a), a) && k < |cases|
    requires Spans(LinkedFills(fills, a), first, last) && OrderOf(orders, LinkedFills(fills, a), order)
    ensures MisfitsAt(cases, k, a, LinkedFills(fills, a), orders, first, last, order)
            <==> && OverlappingIndexes(cases, CandidateIndexes(cases, a, 0), Matched(fills, a)) == [k]
                 && Judge(cases[k], a, Matched(fills, a), orders).Err?
  {
    OneMeasure(fills, a, orders, first, last, order);
    OverlapsAlone(cases, a, Matched(fills, a), k);
    JudgedOnLinked(cases[k], a, fills, orders, first, last, order);
  }

  lemma {:induction false} RefusedIsMisfit(p: Progress, a: Action, fills: seq<Fill>, orders: seq<OrderRecord>)
    requires Matched(fills, a) != [] && Distinct(orders, (o: OrderRecord) => o.orderId) && !a.kind.Other?
    requires OneOrder(Matched(fills, a), a)
    requires Executed(p, CandidateIndexes(p.cases, a, 0), a, Matched(fills, a), orders).Err?
    ensures MisfitsCase(p.cases, a, LinkedFills(fills, a), orders)
  {
    LinkedSpan(fills, a);
    LinkedIsOneExecution(fills, a, orders);
    var first, last :| Spans(LinkedFills(fills, a), first, last);
    var order :| OrderOf(orders, LinkedFills(fills, a), order);
    var k := RefusedAlone(p, a, Matched(fills, a), orders);
    MisfitIsJudged(p.cases, k, a, fills, orders, first, last, order);
  }

  lemma {:induction false} MisfitIsRefused(p: Progress, a: Action, fills: seq<Fill>, orders: seq<OrderRecord>)
    requires Matched(fills, a) != [] && Distinct(orders, (o: OrderRecord) => o.orderId) && !a.kind.Other?
    requires OneOrder(Matched(fills, a), a)
    requires MisfitsCase(p.cases, a, LinkedFills(fills, a), orders)
    ensures Executed(p, CandidateIndexes(p.cases, a, 0), a, Matched(fills, a), orders).Err?
  {
    var k: nat, first, last, order :| MisfitsAt(p.cases, k, a, LinkedFills(fills, a), orders, first, last, order);
    MisfitIsJudged(p.cases, k, a, fills, orders, first, last, order);
    LoneExecution(p, CandidateIndexes(p.cases, a, 0), a, Matched(fills, a), orders, k);
  }

  lemma {:induction false} ConcernsSome(cases: seq<Case>, a: Action)
    ensures CandidateIndexes(cases, a, 0) != [] <==> exists k: nat :: k < |cases| && Concerns(cases[k], a)
  {
    var ks := CandidateIndexes(cases, a, 0);
    CandidatesRise(cases, a, 0);
    if ks != [] { assert ks[0] in ks; }
  }

  lemma {:induction false} FaultsAreMisread(fills: seq<Fill>, a: Action, claimed: set<nat>)
    requires Matched(fills, a) != []
    ensures MatchFault(Matched(fills, a), a, claimed).Some?
            <==> Misread(LinkedFills(fills, a), a) || exists f :: f in LinkedFills(fills, a) && f.orderId in claimed
    ensures MatchFault(Matched(fills, a), a, claimed).None? ==> OneOrder(Matched(fills, a), a)
  {
    ReadsWell(fills, a);
    MatchedAreLinked(fills, a);
    assert Matched(fills, a)[0] in Matched(fills, a);
  }

  /** A step fails exactly on executions that read badly, misfit their only case, or are of an order already claimed. */
  lemma {:induction false} StepRefuses(p: Progress, a: Action, fills: seq<Fill>, orders: seq<OrderRecord>)
    requires Distinct(orders, (o: OrderRecord) => o.orderId)
    ensures
      var linked := LinkedFills(fills, a);
      Stepped(p, a, fills, orders).Err?
      <==> Executes(p.cases, a, linked)
           && (Misread(linked, a) || MisfitsCase(p.cases, a, linked, orders)
               || exists f :: f in linked && f.orderId in p.claimed)
  {
    ConcernsSome(p.cases, a);
    MatchedAreLinked(fills, a);
    if Executes(p.cases, a, LinkedFills(fills, a)) {
      FaultsAreMisread(fills, a, p.claimed);
      if MatchFault(Matched(fills, a), a, p.claimed).None? {
        if Executed(p, CandidateIndexes(p.cases, a, 0), a, Matched(fills, a), orders).Err? {
          RefusedIsMisfit(p, a, fills, orders);
        } else if MisfitsCase(p.cases, a, LinkedFills(fills, a), orders) {
          MisfitIsRefused(p, a, fills, orders);
        }
      }
    }
  }

  // ----- the whole pass

  /** Some order has executions in both. */
  ghost predicate Shares(linked: seq<Fill>, others: seq<Fill>) {
    exists f, g :: f in linked && g in others && f.orderId == g.orderId
  }

  ghost predicate ExecutesAt(inputs: seq<Case>, fills: seq<Fill>, actions: seq<Action>, n: nat)
    requires n < |actions|
  {
    Executes(inputs, actions[n], LinkedFills(fills, actions[n]))
  }

  /** An action whose executions read badly, misfit their only case, or are of the same order as an earlier action's. */
  ghost predicate Refuses(
    inputs: seq<Case>, fills: seq<Fill>, orders: seq<OrderRecord>, actions: seq<Action>, n: nat)
    requires n < |actions|
  {
    var a, linked := actions[n], LinkedFills(fills, actions[n]);
    && ExecutesAt(inputs, fills, actions, n)
    && (|| Misread(linked, a) || MisfitsCase(inputs, a, linked, orders)
        || SharesEarlier(inputs, fills, actions, n, linked))
  }

  /** An earlier action executed on an order of these executions. */
  ghost predicate SharesEarlier(
    inputs: seq<Case>, fills: seq<Fill>, actions: seq<Action>, n: nat, linked: seq<Fill>)
    requires n <= |actions|
  {
    exists m: nat :: m < n && ExecutesAt(inputs, fills, actions, m) && Shares(LinkedFills(fills, actions[m]), linked)
  }

  ghost predicate RefusesBefore(
    inputs: seq<Case>, fills: seq<Fill>, orders: seq<OrderRecord>, actions: seq<Action>, n: nat)
    requires n <= |actions|
  {
    exists m: nat :: m < n && Refuses(inputs, fills, orders, actions, m)
  }

  lemma {:induction false} RefusesNext(
    inputs: seq<Case>, fills: seq<Fill>, orders: seq<OrderRecord>, actions: seq<Action>, n: nat)
    requires n < |actions|
    ensures RefusesBefore(inputs, fills, orders, actions, n + 1)
            <==> RefusesBefore(inputs, fills, orders, actions, n) || Refuses(inputs, fills, orders, actions, n)
  {
  }

  /** The claimed orders are those of the actions executed so far. */
  ghost predicate Claims(claimed: set<nat>, inputs: seq<Case>, fills: seq<Fill>, actions: seq<Action>, n: nat)
    requires n <= |actions|
  {
    forall id :: id in claimed <==> exists m: nat :: m < n && ClaimsAt(inputs, fills, actions, m, id)
  }

  ghost predicate ClaimsAt(inputs: seq<Case>, fills: seq<Fill>, actions: seq<Action>, m: nat, id: nat)
    requires m < |actions|
  {
    ExecutesAt(inputs, fills, actions, m) && exists f :: f in LinkedFills(fills, actions[m]) && f.orderId == id
  }

  lemma {:induction false} SameMeeting(
    cases: seq<Case>, inputs: seq<Case>, k: nat, a: Action, linked: seq<Fill>, order: Option<OrderRecord>, first: int,
    last: int, qty: real)
    requires SameCases(cases, inputs) && k < |cases|
    ensures Concerns(cases[k], a) <==> Concerns(inputs[k], a)
    ensures Meets(cases[k], first, last) <==> Meets(inputs[k], first, last)
    ensures OnlyCase(cases, k, a, first, last) <==> OnlyCase(inputs, k, a, first, last)
    ensures Misfits(cases[k], a, linked, order, first, last, qty)
            <==> Misfits(inputs[k], a, linked, order, first, last, qty)
  {
    assert Erased(cases[k]) == Erased(inputs[k]);
    forall j | 0 <= j < |cases|
      ensures Concerns(cases[j], a) == Concerns(inputs[j], a)
      ensures Meets(cases[j], first, last) == Meets(inputs[j], first, last)
    {
      assert Erased(cases[j]) == Erased(inputs[j]);
    }
  }

  lemma {:induction false} SameMisfits(
    cases: seq<Case>, inputs: seq<Case>, a: Action, linked: seq<Fill>, orders: seq<OrderRecord>)
    requires SameCases(cases, inputs)
    ensures Executes(cases, a, linked) <==> Executes(inputs, a, linked)
    ensures MisfitsCase(cases, a, linked, orders) <==> MisfitsCase(inputs, a, linked, orders)
  {
    forall k: nat | k < |cases| ensures Concerns(cases[k], a) <==> Concerns(inputs[k], a) {
      assert Erased(cases[k]) == Erased(inputs[k]);
    }
    forall k: nat, first, last, order
      ensures MisfitsAt(cases, k, a, linked, orders, first, last, order)
              <==> MisfitsAt(inputs, k, a, linked, orders, first, last, order)
    {
      if k < |cases| {
        SameMeeting(cases, inputs, k, a, linked, order, first, last, Sum(linked, (f: Fill) => f.qty));
      }
    }
  }

  lemma {:induction false} StepClaims(p: Progress, a: Action, fills: seq<Fill>, orders: seq<OrderRecord>, id: nat)
    requires Stepped(p, a, fills, orders).Ok?
    ensures
      id in Stepped(p, a, fills, orders).value.claimed
      <==> id in p.claimed
           || (Executes(p.cases, a, LinkedFills(fills, a)) && exists f :: f in LinkedFills(fills, a) && f.orderId == id)
  {
    ConcernsSome(p.cases, a);
    MatchedAreLinked(fills, a);
    if Executes(p.cases, a, LinkedFills(fills, a)) {
      assert Matched(fills, a)[0] in Matched(fills, a);
    }
  }

  lemma {:induction false} ClaimedIsShared(
    inputs: seq<Case>, fills: seq<Fill>, actions: seq<Action>, n: nat, linked: seq<Fill>, claimed: set<nat>)
    requires n <= |actions| && Claims(claimed, inputs, fills, actions, n)
    ensures (exists f :: f in linked && f.orderId in claimed)
            <==> SharesEarlier(inputs, fills, actions, n, linked)
  {
    if f :| f in linked && f.orderId in claimed {
      var m: nat :| m < n && ClaimsAt(inputs, fills, actions, m, f.orderId);
      var g :| g in LinkedFills(fills, actions[m]) && g.orderId == f.orderId;
      assert Shares(LinkedFills(fills, actions[m]), linked);
    }
    if SharesEarlier(inputs, fills, actions, n, linked) {
      var m: nat :| m < n && ExecutesAt(inputs, fills, actions, m) && Shares(LinkedFills(fills, actions[m]), linked);
      var g, f :| g in LinkedFills(fills, actions[m]) && f in linked && g.orderId == f.orderId;
      assert ClaimsAt(inputs, fills, actions, m, f.orderId);
    }
  }

  lemma {:induction false} ClaimsNext(
    inputs: seq<Case>, fills: seq<Fill>, actions: seq<Action>, n: nat, claimed: set<nat>, more: set<nat>)
    requires n < |actions| && Claims(claimed, inputs, fills, actions, n)
    requires forall id :: id in more <==> id in claimed || ClaimsAt(inputs, fills, actions, n, id)
    ensures Claims(more, inputs, fills, actions, n + 1)
  {
  }

  lemma {:induction false} NextClaims(
    inputs: seq<Case>, fills: seq<Fill>, orders: seq<OrderRecord>, actions: seq<Action>, n: nat, p: Progress)
    requires n < |actions| && SameCases(p.cases, inputs) && Claims(p.claimed, inputs, fills, actions, n)
    requires Stepped(p, actions[n], fills, orders).Ok?
    ensures Claims(Stepped(p, actions[n], fills, orders).value.claimed, inputs, fills, actions, n + 1)
  {
    var a, more := actions[n], Stepped(p, actions[n], fills, orders).value.claimed;
    SameMisfits(p.cases, inputs, a, LinkedFills(fills, a), orders);
    forall id ensures id in more <==> id in p.claimed || ClaimsAt(inputs, fills, actions, n, id) {
      StepClaims(p, a, fills, orders, id);
    }
    ClaimsNext(inputs, fills, actions, n, p.claimed, more);
  }

  /** One more action: the pass is refused there, or claims its order. */
  lemma {:induction false} NextRefuses(
    inputs: seq<Case>, fills: seq<Fill>, orders: seq<OrderRecord>, actions: seq<Action>, n: nat, p: Progress)
    requires n < |actions| && Distinct(orders, (o: OrderRecord) => o.orderId) && SameCases(p.cases, inputs)
    requires Claims(p.claimed, inputs, fills, actions, n)
    ensures Stepped(p, actions[n], fills, orders).Err? <==> Refuses(inputs, fills, orders, actions, n)
  {
    var a, linked := actions[n], LinkedFills(fills, actions[n]);
    SameMisfits(p.cases, inputs, a, linked, orders);
    StepRefuses(p, a, fills, orders);
    ClaimedIsShared(inputs, fills, actions, n, linked, p.claimed);
  }

  lemma {:induction false} FoldRefuses(
    inputs: seq<Case>, fills: seq<Fill>, orders: seq<OrderRecord>, actions: seq<Action>, n: nat)
    requires n <= |actions| && DistinctCases(inputs) && Distinct(actions, (b: Action) => b.id) && AllTrades(fills)
    requires Distinct(orders, (o: OrderRecord) => o.orderId)
    ensures Folded(Start(inputs), actions[..n], fills, orders).Err?
            <==> RefusesBefore(inputs, fills, orders, actions, n)
    ensures
      var p := Folded(Start(inputs), actions[..n], fills, orders);
      p.Ok? ==> Claims(p.value.claimed, inputs, fills, actions, n)
  {
    if n == 0 {
      assert actions[..0] == [];
    } else {
      FoldRefuses(inputs, fills, orders, actions, n - 1);
      FoldedSnoc(Start(inputs), actions, n - 1, fills, orders);
      RefusesNext(inputs, fills, orders, actions, n - 1);
      var before := Folded(Start(inputs), actions[..n - 1], fills, orders);
      if before.Ok? {
        NextStep(inputs, fills, orders, actions, n - 1, before.value);
      }
    }
  }

  lemma {:induction false} NextStep(
    inputs: seq<Case>, fills: seq<Fill>, orders: seq<OrderRecord>, actions: seq<Action>, n: nat, p: Progress)
    requires n < |actions| && DistinctCases(inputs) && Distinct(actions, (b: Action) => b.id) && AllTrades(fills)
    requires Distinct(orders, (o: OrderRecord) => o.orderId) && Claims(p.claimed, inputs, fills, actions, n)
    requires Folded(Start(inputs), actions[..n], fills, orders) == Ok(p)
    ensures Stepped(p, actions[n], fills, orders).Err? <==> Refuses(inputs, fills, orders, actions, n)
    ensures
      var next := Stepped(p, actions[n], fills, orders);
      next.Ok? ==> Claims(next.value.claimed, inputs, fills, actions, n + 1)
  {
    FoldKeeps(inputs, fills, orders, actions, n);
    NextRefuses(inputs, fills, orders, actions, n, p);
    if Stepped(p, actions[n], fills, orders).Ok? {
      NextClaims(inputs, fills, orders, actions, n, p);
    }
  }

  /** A row without identifier, or two different rows under one, in a list with these identifiers. */
  ghost predicate Inconsistent<T(!new)>(rows: seq<T>, key: T -> nat) {
    (exists x :: x in rows && key(x) == 0) || (exists x, y :: x in rows && y in rows && key(x) == key(y) && x != y)
  }

  ghost predicate InconsistentRows(inputs: seq<Case>, snapshot: Snapshot) {
    || (exists i, j :: 0 <= i < j < |inputs| && inputs[i].id == inputs[j].id)
    || Inconsistent(Filter(snapshot.fills, (f: Fill) => f.trade), (f: Fill) => f.execId)
    || Inconsistent(snapshot.orders, (o: OrderRecord) => o.orderId)
    || Inconsistent(snapshot.actions, (a: Action) => a.id)
  }

  /** The actions of a snapshot, once each and in order. */
  ghost predicate DistinctActions(snapshot: Snapshot, actions: seq<Action>) {
    && (forall a :: a in actions <==> a in snapshot.actions)
    && (forall i, j :: 0 <= i < j < |actions| ==> actions[i].id != actions[j].id)
  }

  /**
   A reconciliation is refused if and only if its cases or rows are inconsistent, or some action's executions are of
   several orders, no closing fills of it, a misfit for the only case they meet, or of an earlier action's order.
   */
  lemma {:induction false} RefusedExactlyWhen(inputs: seq<Case>, snapshot: Snapshot)
    returns (fills: seq<Fill>, orders: seq<OrderRecord>, actions: seq<Action>)
    ensures InconsistentRows(inputs, snapshot) ==> Reconciliation(inputs, snapshot).Err?
    ensures !InconsistentRows(inputs, snapshot) ==>
              && DistinctRows(snapshot, fills, orders) && DistinctActions(snapshot, actions)
              && (Reconciliation(inputs, snapshot).Err?
                  <==> exists n: nat :: n < |actions| && Refuses(inputs, fills, orders, actions, n))
  {
    fills, orders, actions := [], [], [];
    if InconsistentRows(inputs, snapshot) {
      InconsistentIsRefused(inputs, snapshot);
    } else {
      fills, orders, actions := ConsistentParts(inputs, snapshot);
      FilterElements(snapshot.fills, (f: Fill) => f.trade);
      RowsAreDistinct(fills, orders);
      ActionsAreDistinct(actions);
      FoldRefuses(inputs, fills, orders, actions, |actions|);
      assert actions[..|actions|] == actions;
    }
  }

  lemma {:induction false} InconsistentIsRefused(inputs: seq<Case>, snapshot: Snapshot)
    requires InconsistentRows(inputs, snapshot)
    ensures Reconciliation(inputs, snapshot).Err?
  {
    UniqueRowsAreDistinct(Traded(snapshot), (f: Fill) => f.execId);
    UniqueRowsAreDistinct(snapshot.orders, (o: OrderRecord) => o.orderId);
    UniqueRowsAreDistinct(snapshot.actions, (a: Action) => a.id);
  }

  lemma {:induction false} ConsistentParts(inputs: seq<Case>, snapshot: Snapshot)
    returns (fills: seq<Fill>, orders: seq<OrderRecord>, actions: seq<Action>)
    requires !InconsistentRows(inputs, snapshot)
    ensures DistinctCases(inputs)
    ensures Deduplicated(Traded(snapshot), fills, (f: Fill) => f.execId)
    ensures Deduplicated(snapshot.orders, orders, (o: OrderRecord) => o.orderId)
    ensures Deduplicated(snapshot.actions, actions, (a: Action) => a.id)
    ensures Reconciliation(inputs, snapshot).Err? <==> Folded(Start(inputs), actions, fills, orders).Err?
  {
    UniqueRowsAreDistinct(Traded(snapshot), (f: Fill) => f.execId);
    UniqueRowsAreDistinct(snapshot.orders, (o: OrderRecord) => o.orderId);
    UniqueRowsAreDistinct(snapshot.actions, (a: Action) => a.id);
    fills := Unique(Traded(snapshot), (f: Fill) => f.execId).value;
    orders := Unique(snapshot.orders, (o: OrderRecord) => o.orderId).value;
    actions := Unique(snapshot.actions, (a: Action) => a.id).value;
  }

  lemma {:induction false} ActionsAreDistinct(actions: seq<Action>)
    requires Distinct(actions, (a: Action) => a.id)
    ensures forall i, j :: 0 <= i < j < |actions| ==> actions[i].id != actions[j].id
  {
    var id := (a: Action) => a.id;
    forall i, j | 0 <= i < j < |actions| ensures actions[i].id != actions[j].id {
      assert id(actions[i]) != id(actions[j]);
    }
  }
}
