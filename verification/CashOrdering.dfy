/**
 Ordering the ledger rows of one millisecond by their balance edges.
 A stack-based Hierholzer search either uses every cash transition once or the batch is refused.
 */
module CashOrdering {
  import opened Wrappers
  import opened Sequences
  import opened EulerTrails
  import opened Ledger

  datatype CashError = EmptyBatch | ContradictoryTransitions | IncompleteChain

  /** `edges` lists, for each balance, the balances its unused transitions lead to. */
  ghost predicate Adjacency(edges: map<real, seq<real>>, es: seq<Edge>) {
    forall u, v ::
      multiset(es)[(u, v)] == if u in edges then multiset(edges[u])[v] else 0
  }

  ghost predicate CountsDegrees(degree: map<real, int>, es: seq<Edge>) {
    forall x :: Excess(es, x) == if x in degree then degree[x] else 0
  }

  lemma {:induction false} AdjacencyOut(edges: map<real, seq<real>>, es: seq<Edge>, u: real)
    requires Adjacency(edges, es)
    requires u !in edges || edges[u] == []
    ensures Out(es, u) == 0
  {
    forall e | e in es ensures e.0 != u {
      assert e in multiset(es);
      var (_, v) := e;
      assert multiset(es)[(u, v)] == 0;
    }
    NoEdgeMeansNoOut(es, u);
  }

  function WithTransition(edges: map<real, seq<real>>, before: real, after: real): map<real, seq<real>> {
    edges[before := (if before in edges then edges[before] else []) + [after]]
  }

  function WithDegrees(degree: map<real, int>, before: real, after: real): map<real, int> {
    var left := degree[before := (if before in degree then degree[before] else 0) + 1];
    left[after := (if after in left then left[after] else 0) - 1]
  }

  /** What the bookkeeping knows of the transitions seen so far. */
  ghost predicate Collected(
    edges: map<real, seq<real>>, expected: multiset<Edge>, degree: map<real, int>, es: seq<Edge>)
  {
    Adjacency(edges, es) && expected == multiset(es) && CountsDegrees(degree, es)
  }

  /** The degree bookkeeping of the first loop, one ledger row at a time. */
  method CollectEdges(rows: seq<LedgerRow>)
    returns (edges: map<real, seq<real>>, expected: multiset<Edge>, degree: map<real, int>)
    ensures Collected(edges, expected, degree, EdgesOf(rows))
  {
    edges, expected, degree := map[], multiset{}, map[];
    var i := 0;
    while i < |rows|
      invariant 0 <= i <= |rows|
      invariant Collected(edges, expected, degree, EdgesOf(rows[..i]))
    {
      EdgesOfNext(rows, i);
      edges, expected, degree := CollectRow(edges, expected, degree, rows[i], EdgesOf(rows[..i]));
      i := i + 1;
    }
    assert rows[..i] == rows;
  }

  method CollectRow(
    edges: map<real, seq<real>>, expected: multiset<Edge>, degree: map<real, int>, row: LedgerRow, ghost es: seq<Edge>)
    returns (edges': map<real, seq<real>>, expected': multiset<Edge>, degree': map<real, int>)
    requires Collected(edges, expected, degree, es)
    ensures Collected(edges', expected', degree', es + [EdgeOf(row)])
  {
    var after := row.cashBalance;
    var before := after - row.change;
    edges' := WithTransition(edges, before, after);
    expected' := expected + multiset{(before, after)};
    degree' := WithDegrees(degree, before, after);
    AdjacencyAfterAppend(edges, es, before, after);
    CountsAfterAppend(degree, es, before, after);
  }

  lemma {:induction false} EdgesOfNext(rows: seq<LedgerRow>, i: nat)
    requires i < |rows|
    ensures EdgesOf(rows[..i + 1]) == EdgesOf(rows[..i]) + [EdgeOf(rows[i])]
  {
  }

  lemma {:induction false} AdjacencyAfterAppend(edges: map<real, seq<real>>, es: seq<Edge>, before: real, after: real)
    requires Adjacency(edges, es)
    ensures Adjacency(WithTransition(edges, before, after), es + [(before, after)])
  {
    var edges' := WithTransition(edges, before, after);
    forall u, v
      ensures multiset(es + [(before, after)])[(u, v)] == if u in edges' then multiset(edges'[u])[v] else 0
    {
      assert multiset(es)[(u, v)] == if u in edges then multiset(edges[u])[v] else 0;
    }
  }

  lemma {:induction false} CountsAfterAppend(degree: map<real, int>, es: seq<Edge>, before: real, after: real)
    requires CountsDegrees(degree, es)
    ensures CountsDegrees(WithDegrees(degree, before, after), es + [(before, after)])
  {
    var degree' := WithDegrees(degree, before, after);
    forall x ensures Excess(es + [(before, after)], x) == if x in degree' then degree'[x] else 0 {
      DegreesConcat(es, [(before, after)], x);
      assert Excess(es, x) == if x in degree then degree[x] else 0;
      assert Excess([(before, after)], x) == Delta(x, before) - Delta(x, after);
    }
  }

  /** The pair that joins a walk ending at `x` to the finished part of the trail. */
  ghost function Junction(x: real, reverse: seq<real>): multiset<Edge> {
    if reverse == [] then multiset{} else multiset{(x, Last(reverse))}
  }

  /** Every edge is unused, on the stack, in the finished part, or the junction of the two. */
  ghost predicate Conserves(
    es: seq<Edge>, rest: seq<Edge>, stack: seq<real>, reverse: seq<real>, target: real)
  {
    multiset(es) == multiset(rest) + multiset(Pairs(stack)) + multiset(Pairs(Reversed(reverse)))
                    + (if stack == [] then multiset{} else Junction(target, reverse))
  }

  /** What is known of a search that began from the right root. */
  ghost predicate Consistent(
    es: seq<Edge>, rest: seq<Edge>, stack: seq<real>, reverse: seq<real>, target: real)
  {
    && Conserves(es, rest, stack, reverse, target)
    && (stack != [] ==> Balanced(rest, Last(stack), target))
  }

  /** Following an unused edge out of the top of the stack. */
  lemma {:induction false} PushKeepsConsistent(
    es: seq<Edge>, rest: seq<Edge>, stack: seq<real>, reverse: seq<real>, target: real, i: nat)
    requires stack != [] && Consistent(es, rest, stack, reverse, target)
    requires i < |rest| && rest[i].0 == Last(stack)
    ensures Consistent(es, rest[..i] + rest[i + 1..], stack + [rest[i].1], reverse, target)
  {
    var w := rest[i].1;
    var rest' := rest[..i] + rest[i + 1..];
    MultisetAfterRemoval(rest, i);
    StackGrows(stack, rest[i]);
    MoveEdge(multiset(es), multiset(rest), multiset(Pairs(stack)), multiset(Pairs(Reversed(reverse))),
             Junction(target, reverse), multiset(rest'), rest[i], multiset(Pairs(stack + [w])));
    BalancedAfterPush(rest, i, target);
  }

  lemma {:induction false} BalancedAfterPush(rest: seq<Edge>, i: nat, target: real)
    requires i < |rest| && Balanced(rest, rest[i].0, target)
    ensures Balanced(rest[..i] + rest[i + 1..], rest[i].1, target)
  {
    var rest' := rest[..i] + rest[i + 1..];
    forall x ensures Excess(rest', x) == Delta(x, rest[i].1) - Delta(x, target) {
      DegreesAfterRemoval(rest, i, x);
      assert Excess(rest, x) == Delta(x, rest[i].0) - Delta(x, target);
    }
  }

  lemma {:induction false} StackGrows(stack: seq<real>, e: Edge)
    requires stack != [] && e.0 == Last(stack)
    ensures multiset(Pairs(stack + [e.1])) == multiset(Pairs(stack)) + multiset{e}
  {
    PairsConcat(stack, [e.1]);
    assert Pairs([e.1]) == [];
  }

  lemma {:induction false} MoveEdge<T>(
    all: multiset<T>, rest: multiset<T>, stack: multiset<T>, done: multiset<T>, junction: multiset<T>,
    rest': multiset<T>, e: T, stack': multiset<T>)
    requires all == rest + stack + done + junction
    requires rest == rest' + multiset{e} && stack' == stack + multiset{e}
    ensures all == rest' + stack' + done + junction
  {
  }

  /**
   A balance with no unused edge left can only be the one the current excursion set out for:
   so the popped balance joins the finished part of the trail.
   */
  lemma {:induction false} PopKeepsConsistent(
    es: seq<Edge>, rest: seq<Edge>, stack: seq<real>, reverse: seq<real>, target: real)
    returns (target': real)
    requires stack != [] && Consistent(es, rest, stack, reverse, target)
    requires Out(rest, Last(stack)) == 0
    ensures Consistent(es, rest, stack[..|stack| - 1], reverse + [Last(stack)], target')
  {
    var w := Last(stack);
    var below := stack[..|stack| - 1];
    assert w == target by {
      assert Excess(rest, w) == Delta(w, w) - Delta(w, target);
    }
    target' := if below == [] then w else Last(below);
    PopConserves(es, rest, stack, reverse, target');
    if below != [] {
      forall x ensures Excess(rest, x) == Delta(x, target') - Delta(x, target') {
        assert Excess(rest, x) == Delta(x, w) - Delta(x, target);
      }
    }
  }

  /** Moving the top of the stack over changes neither the pairs nor the junction between them. */
  lemma {:induction false} PopConserves(
    es: seq<Edge>, rest: seq<Edge>, stack: seq<real>, reverse: seq<real>, target': real)
    requires stack != [] && Conserves(es, rest, stack, reverse, Last(stack))
    requires |stack| > 1 ==> target' == stack[|stack| - 2]
    ensures Conserves(es, rest, stack[..|stack| - 1], reverse + [Last(stack)], target')
  {
    var w, below := Last(stack), stack[..|stack| - 1];
    FinishedGrows(reverse, w);
    StackShrinks(stack);
    MoveTop(multiset(es), multiset(rest), multiset(Pairs(stack)), multiset(Pairs(Reversed(reverse))),
            Junction(w, reverse),
            multiset(Pairs(below)), multiset(Pairs(Reversed(reverse + [w]))),
            if below == [] then multiset{} else Junction(target', reverse + [w]));
  }

  lemma {:induction false} FinishedGrows(reverse: seq<real>, w: real)
    ensures multiset(Pairs(Reversed(reverse + [w]))) == multiset(Pairs(Reversed(reverse))) + Junction(w, reverse)
  {
    ReversedSnoc(reverse, w);
    ReversedElements(reverse);
    if reverse != [] {
      PairsConcat([w], Reversed(reverse));
      assert Pairs([w]) == [];
    }
  }

  lemma {:induction false} StackShrinks(stack: seq<real>)
    requires stack != []
    ensures
      multiset(Pairs(stack)) ==
      multiset(Pairs(stack[..|stack| - 1]))
      + (if |stack| == 1 then multiset{} else multiset{(stack[|stack| - 2], Last(stack))})
  {
    var w, below := Last(stack), stack[..|stack| - 1];
    assert stack == below + [w];
    if below != [] {
      PairsConcat(below, [w]);
      assert Pairs([w]) == [];
    }
  }

  lemma {:induction false} MoveTop<T>(
    all: multiset<T>, rest: multiset<T>, stack: multiset<T>, done: multiset<T>, junction: multiset<T>,
    below: multiset<T>, done': multiset<T>, junction': multiset<T>)
    requires all == rest + stack + done + junction
    requires stack == below + junction' && done' == done + junction
    ensures all == rest + below + done' + junction'
  {
  }

  /** Taking the last recorded destination of `u` uses up one edge. */
  lemma {:induction false} AdjacencyAfterPop(edges: map<real, seq<real>>, es: seq<Edge>, u: real, i: nat)
    requires Adjacency(edges, es)
    requires u in edges && edges[u] != []
    requires i < |es| && es[i] == (u, Last(edges[u]))
    ensures Adjacency(edges[u := edges[u][..|edges[u]| - 1]], es[..i] + es[i + 1..])
  {
    var es' := es[..i] + es[i + 1..];
    MultisetAfterRemoval(es, i);
    assert edges[u] == edges[u][..|edges[u]| - 1] + [Last(edges[u])];
    var edges' := edges[u := edges[u][..|edges[u]| - 1]];
    forall x, y
      ensures multiset(es')[(x, y)] == if x in edges' then multiset(edges'[x])[y] else 0
    {
      assert multiset(es)[(x, y)] == if x in edges then multiset(edges[x])[y] else 0;
    }
  }

  /** The invariant of the stack loop; `good` says that the root fits the degrees. */
  ghost predicate Searching(
    es: seq<Edge>, edges: map<real, seq<real>>, rest: seq<Edge>, stack: seq<real>, reverse: seq<real>,
    root: real, good: bool, target: real)
  {
    && Adjacency(edges, rest)
    && (if stack != [] then stack[0] == root else reverse != [] && Last(reverse) == root)
    && (forall x :: x in reverse ==> Out(rest, x) == 0)
    && (good ==> Consistent(es, rest, stack, reverse, target))
  }

  lemma {:induction false} StartSearch(es: seq<Edge>, edges: map<real, seq<real>>, root: real, good: bool, target: real)
    requires Adjacency(edges, es)
    requires good ==> Balanced(es, root, target)
    ensures Searching(es, edges, es, [root], [], root, good, target)
  {
    assert Pairs([root]) == [] && Reversed([]) == [] && Pairs([]) == [];
  }

  lemma {:induction false} PushStep(
    es: seq<Edge>, edges: map<real, seq<real>>, rest: seq<Edge>, stack: seq<real>, reverse: seq<real>,
    root: real, good: bool, target: real)
    returns (rest': seq<Edge>)
    requires Searching(es, edges, rest, stack, reverse, root, good, target)
    requires stack != [] && Last(stack) in edges && edges[Last(stack)] != []
    ensures |rest'| == |rest| - 1
    ensures
      var top := Last(stack);
      Searching(es, edges[top := edges[top][..|edges[top]| - 1]], rest', stack + [Last(edges[top])], reverse,
                root, good, target)
  {
    var top := Last(stack);
    var next := Last(edges[top]);
    assert multiset(rest)[(top, next)] == multiset(edges[top])[next];
    assert (top, next) in rest;
    var i :| 0 <= i < |rest| && rest[i] == (top, next);
    rest' := rest[..i] + rest[i + 1..];
    AdjacencyAfterPop(edges, rest, top, i);
    forall x | x in reverse ensures Out(rest', x) == 0 {
      DegreesAfterRemoval(rest, i, x);
    }
    if good { PushKeepsConsistent(es, rest, stack, reverse, target, i); }
  }

  lemma {:induction false} PopStep(
    es: seq<Edge>, edges: map<real, seq<real>>, rest: seq<Edge>, stack: seq<real>, reverse: seq<real>,
    root: real, good: bool, target: real)
    returns (target': real)
    requires Searching(es, edges, rest, stack, reverse, root, good, target)
    requires stack != [] && (Last(stack) in edges ==> edges[Last(stack)] == [])
    ensures Searching(es, edges, rest, stack[..|stack| - 1], reverse + [Last(stack)], root, good, target')
  {
    AdjacencyOut(edges, rest, Last(stack));
    target' := target;
    if good { target' := PopKeepsConsistent(es, rest, stack, reverse, target); }
  }

  /** The stack loop: a path from `root` that no unused edge leaves. */
  method Traverse(ghost es: seq<Edge>, edges0: map<real, seq<real>>, root: real)
    returns (path: seq<real>, ghost rest: seq<Edge>)
    requires Adjacency(edges0, es)
    ensures path != [] && path[0] == root
    ensures forall x :: x in path ==> Out(rest, x) == 0
    ensures (exists end :: Balanced(es, root, end)) ==> multiset(es) == multiset(rest) + multiset(Pairs(path))
  {
    var edges := edges0;
    var stack, reverse := [root], [];
    rest := es;
    ghost var good := exists end :: Balanced(es, root, end);
    ghost var target := root;
    if good { target :| Balanced(es, root, target); }
    StartSearch(es, edges, root, good, target);
    while stack != []
      invariant Searching(es, edges, rest, stack, reverse, root, good, target)
      decreases 2 * |rest| + |stack|
    {
      var top := Last(stack);
      if top in edges && edges[top] != [] {
        rest := PushStep(es, edges, rest, stack, reverse, root, good, target);
        stack := stack + [Last(edges[top])];
        edges := edges[top := edges[top][..|edges[top]| - 1]];
      } else {
        target := PopStep(es, edges, rest, stack, reverse, root, good, target);
        stack, reverse := stack[..|stack| - 1], reverse + [top];
      }
    }
    ReversedElements(reverse);
    path := Reversed(reverse);
  }

  ghost predicate IsStart(starts: set<real>, ends: set<real>, degree: map<real, int>) {
    && (forall b :: b in starts <==> b in degree && degree[b] == 1)
    && (forall b :: b in ends <==> b in degree && degree[b] == -1)
  }

  /** The degree test of the source: nothing is off by more than one, and a start has its end. */
  predicate AcceptableDegrees(degree: map<real, int>, starts: set<real>, ends: set<real>) {
    && (forall b :: b in degree ==> -1 <= degree[b] <= 1)
    && ((|starts| == 1 && |ends| == 1) || (starts == {} && ends == {}))
  }

  /** What the degrees say when a trail exists: at most one start and one matching end. */
  lemma {:induction false} DegreesOfTrail(
    p: seq<real>, es: seq<Edge>, degree: map<real, int>, starts: set<real>, ends: set<real>)
    requires IsTrail(p, es, None) && CountsDegrees(degree, es) && IsStart(starts, ends, degree)
    ensures AcceptableDegrees(degree, starts, ends)
    ensures p[0] != Last(p) ==> starts == {p[0]} && ends == {Last(p)}
    ensures p[0] == Last(p) ==> starts == {} && ends == {}
  {
    TrailIsBalanced(p, es, None);
    forall b
      ensures (if b in degree then degree[b] else 0) == Delta(b, p[0]) - Delta(b, Last(p))
    {
      assert Excess(es, b) == if b in degree then degree[b] else 0;
      assert Excess(es, b) == Delta(b, p[0]) - Delta(b, Last(p));
    }
    forall b ensures b in starts <==> b == p[0] && p[0] != Last(p) {
      assert (if b in degree then degree[b] else 0) == Delta(b, p[0]) - Delta(b, Last(p));
    }
    forall b ensures b in ends <==> b == Last(p) && p[0] != Last(p) {
      assert (if b in degree then degree[b] else 0) == Delta(b, p[0]) - Delta(b, Last(p));
    }
    if p[0] == Last(p) {
      assert starts == {} && ends == {};
    } else {
      assert starts == {p[0]};
      assert ends == {Last(p)};
    }
  }

  /** When a trail exists, the search from the chosen root finds one. */
  lemma {:induction false} SearchSucceeds(
    p: seq<real>, es: seq<Edge>, opening: Option<real>, root: real, path: seq<real>, rest: seq<Edge>)
    requires IsTrail(p, es, opening)
    requires path != [] && path[0] == root
    requires opening.Some? ==> root == opening.value
    requires p[0] != Last(p) ==> root == p[0]
    requires opening.None? && p[0] == Last(p) ==> es != [] && root == es[0].0
    requires forall x :: x in path ==> Out(rest, x) == 0
    requires (exists end :: Balanced(es, root, end)) ==> multiset(es) == multiset(rest) + multiset(Pairs(path))
    ensures IsTrail(path, es, opening)
    ensures |path| == |es| + 1
    ensures Last(path) == if p[0] == Last(p) then root else Last(p)
  {
    TrailIsBalanced(p, es, opening);
    var k := 0;
    if root == p[0] {
      assert Balanced(es, root, Last(p));
    } else {
      assert es[0] in multiset(Pairs(p));
      PairEnds(p, es[0]);
      k :| 0 <= k < |p| && p[k] == root;
      forall x ensures Excess(es, x) == Delta(x, root) - Delta(x, root) {
        assert Excess(es, x) == Delta(x, p[0]) - Delta(x, Last(p));
      }
      assert Balanced(es, root, root);
    }
    NothingIsLeftOver(p, rest, path, k);
    PairsLength(path);
    assert |multiset(Pairs(path))| == |multiset(es)|;
    TrailIsBalanced(path, es, opening);
    if p[0] == Last(p) {
      assert Excess(es, Last(path)) == Delta(Last(path), p[0]) - Delta(Last(path), Last(p));
      assert Excess(es, Last(path)) == Delta(Last(path), root) - Delta(Last(path), Last(path));
    } else {
      ClosingBalanceIsDetermined(p, es, path, es);
    }
  }

  /**
   The balances of one millisecond in order, or a refusal. It succeeds exactly when some
   ordering of the rows forms an unbroken chain from the opening balance.
   */
  method CashPath(rows: seq<LedgerRow>, opening: Option<real>) returns (r: Result<seq<real>, CashError>)
    ensures r.Ok? ==> IsTrail(r.value, EdgesOf(rows), opening)
    ensures rows != [] || opening.Some? ==> (r.Ok? <==> HasTrail(EdgesOf(rows), opening))
    ensures rows == [] && opening.None? ==> r.Err?
    ensures r.Ok? && opening.None? && r.value[0] == Last(r.value) ==> r.value[0] == EdgeOf(rows[0]).0
  {
    var edges, expected, degree := CollectEdges(rows);
    ghost var es := EdgesOf(rows);
    var starts := set b | b in degree && degree[b] == 1;
    var ends := set b | b in degree && degree[b] == -1;
    ghost var p := [];
    ghost var solvable := HasTrail(es, opening);
    if solvable {
      p :| IsTrail(p, es, opening);
      DegreesOfTrail(p, es, degree, starts, ends);
    }
    if !AcceptableDegrees(degree, starts, ends) {
      return Err(ContradictoryTransitions);
    }
    var root;
    if opening.Some? {
      root := opening.value;
    } else if start :| start in starts {
      root := start;
    } else if rows == [] {
      return Err(EmptyBatch);
    } else {
      root := rows[0].cashBalance - rows[0].change;
    }
    var path; ghost var rest;
    path, rest := Traverse(es, edges, root);
    if solvable {
      SearchSucceeds(p, es, opening, root, path, rest);
    }
    if |path| != |rows| + 1
       || multiset(Pairs(path)) != expected
       || (starts != {} && (path[0] !in starts || path[|path| - 1] !in ends)) {
      return Err(IncompleteChain);
    }
    assert IsTrail(path, es, opening);
    if opening.None? && path[0] == Last(path) {
      DegreesOfTrail(path, es, degree, starts, ends);
    }
    return Ok(path);
  }
}
