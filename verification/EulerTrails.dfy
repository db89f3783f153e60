/**
 Directed multigraphs over cash balances, and the trails that use every edge exactly once.
 An edge `(before, after)` is one ledger row; a trail is an ordering of the rows of one
 millisecond in which each row starts at the balance the previous row ended at.
 */
module EulerTrails {
  import opened Wrappers
  import opened Sequences

  type Edge = (real, real)

  /** The consecutive pairs of a walk. */
  function Pairs(p: seq<real>): seq<Edge> {
    if |p| <= 1 then [] else [(p[0], p[1])] + Pairs(p[1..])
  }

  function Reversed(s: seq<real>): seq<real> {
    if s == [] then [] else Reversed(s[1..]) + [s[0]]
  }

  /** Number of edges that leave `x`. */
  function Out(es: seq<Edge>, x: real): nat {
    if es == [] then 0 else (if es[0].0 == x then 1 else 0) + Out(es[1..], x)
  }

  /** Number of edges that enter `x`. */
  function In(es: seq<Edge>, x: real): nat {
    if es == [] then 0 else (if es[0].1 == x then 1 else 0) + In(es[1..], x)
  }

  function Excess(es: seq<Edge>, x: real): int {
    Out(es, x) - In(es, x)
  }

  function Delta(x: real, y: real): int {
    if x == y then 1 else 0
  }

  /** The edges have the degrees of a trail from `first` to `last`. */
  ghost predicate Balanced(es: seq<Edge>, first: real, last: real) {
    forall x :: Excess(es, x) == Delta(x, first) - Delta(x, last)
  }

  /** `p` uses every edge exactly once, from `opening` when there is one. */
  ghost predicate IsTrail(p: seq<real>, es: seq<Edge>, opening: Option<real>) {
    && p != []
    && multiset(Pairs(p)) == multiset(es)
    && (opening.Some? ==> p[0] == opening.value)
  }

  ghost predicate HasTrail(es: seq<Edge>, opening: Option<real>) {
    exists p :: IsTrail(p, es, opening)
  }

  // ----- degrees

  lemma {:induction false} DegreesConcat(a: seq<Edge>, b: seq<Edge>, x: real)
    ensures Out(a + b, x) == Out(a, x) + Out(b, x)
    ensures In(a + b, x) == In(a, x) + In(b, x)
  {
    if a == [] {
      assert a + b == b;
    } else {
      assert (a + b)[1..] == a[1..] + b;
      DegreesConcat(a[1..], b, x);
    }
  }

  lemma {:induction false} DegreesAfterRemoval(es: seq<Edge>, i: nat, x: real)
    requires i < |es|
    ensures Out(es, x) == Out(es[..i] + es[i + 1..], x) + Delta(es[i].0, x)
    ensures In(es, x) == In(es[..i] + es[i + 1..], x) + Delta(es[i].1, x)
  {
    assert es == es[..i] + ([es[i]] + es[i + 1..]);
    DegreesConcat(es[..i], [es[i]] + es[i + 1..], x);
    DegreesConcat([es[i]], es[i + 1..], x);
    DegreesConcat(es[..i], es[i + 1..], x);
  }

  lemma {:induction false} MultisetAfterRemoval<T>(s: seq<T>, i: nat)
    requires i < |s|
    ensures multiset(s) == multiset(s[..i] + s[i + 1..]) + multiset{s[i]}
  {
    assert s == s[..i] + ([s[i]] + s[i + 1..]);
  }

  /** Where the first element of `a` went in a permutation `b`, and what remains of both. */
  lemma {:induction false} MatchHead<T>(a: seq<T>, b: seq<T>) returns (i: nat)
    requires a != [] && multiset(a) == multiset(b)
    ensures i < |b| && b[i] == a[0]
    ensures multiset(a[1..]) == multiset(b[..i] + b[i + 1..])
  {
    assert a[0] in multiset(b);
    i :| 0 <= i < |b| && b[i] == a[0];
    MultisetAfterRemoval(b, i);
    assert a == [a[0]] + a[1..];
    assert multiset(a[1..]) == multiset(a) - multiset{a[0]};
  }

  /** Degrees depend on which edges there are, not on their order. */
  lemma {:induction false} DegreesOfMultiset(es: seq<Edge>, fs: seq<Edge>, x: real)
    requires multiset(es) == multiset(fs)
    ensures Out(es, x) == Out(fs, x) && In(es, x) == In(fs, x)
    decreases |es|
  {
    if es == [] {
      assert |multiset(es)| == |multiset(fs)|;
    } else {
      var i := MatchHead(es, fs);
      DegreesOfMultiset(es[1..], fs[..i] + fs[i + 1..], x);
      DegreesAfterRemoval(fs, i, x);
    }
  }

  lemma {:induction false} NoOutMeansNoEdge(es: seq<Edge>, e: Edge)
    requires e in es
    ensures Out(es, e.0) >= 1
  {
    if es[0] != e {
      NoOutMeansNoEdge(es[1..], e);
    }
  }

  lemma {:induction false} NoEdgeMeansNoOut(es: seq<Edge>, x: real)
    requires forall e :: e in es ==> e.0 != x
    ensures Out(es, x) == 0
  {
    if es != [] {
      NoEdgeMeansNoOut(es[1..], x);
    }
  }

  // ----- walks

  lemma {:induction false} PairsConcat(a: seq<real>, b: seq<real>)
    requires a != [] && b != []
    ensures Pairs(a + b) == Pairs(a) + [(Last(a), b[0])] + Pairs(b)
  {
    if |a| == 1 {
      assert (a + b)[1..] == b;
    } else {
      assert (a + b)[1..] == a[1..] + b;
      PairsConcat(a[1..], b);
    }
  }

  lemma {:induction false} PairsLength(p: seq<real>)
    requires p != []
    ensures |Pairs(p)| == |p| - 1
  {
    if |p| > 1 { PairsLength(p[1..]); }
  }

  lemma {:induction false} PairAt(p: seq<real>, i: nat)
    requires i + 1 < |p|
    ensures (p[i], p[i + 1]) in Pairs(p)
  {
    if i > 0 { PairAt(p[1..], i - 1); }
  }

  lemma {:induction false} PairEnds(p: seq<real>, e: Edge)
    requires e in Pairs(p)
    ensures e.0 in p && e.1 in p
  {
    if e == (p[0], p[1]) {
    } else {
      PairEnds(p[1..], e);
    }
  }

  lemma {:induction false} ReversedSnoc(s: seq<real>, x: real)
    ensures Reversed(s + [x]) == [x] + Reversed(s)
  {
    if s == [] {
      assert s + [x] == [x];
      assert [x][1..] == [];
    } else {
      assert (s + [x])[1..] == s[1..] + [x];
      ReversedSnoc(s[1..], x);
    }
  }

  lemma {:induction false} ReversedElements(s: seq<real>)
    ensures |Reversed(s)| == |s|
    ensures forall x :: x in s <==> x in Reversed(s)
    ensures s != [] ==> Reversed(s)[0] == Last(s)
  {
    if s != [] {
      ReversedElements(s[1..]);
      assert s == [s[0]] + s[1..];
    }
  }

  /** A walk leaves every balance as often as it enters it, except at its two ends. */
  lemma {:induction false} WalkIsBalanced(p: seq<real>, x: real)
    requires p != []
    ensures Excess(Pairs(p), x) == Delta(x, p[0]) - Delta(x, Last(p))
  {
    if |p| > 1 {
      WalkIsBalanced(p[1..], x);
    }
  }

  lemma {:induction false} TrailIsBalanced(p: seq<real>, es: seq<Edge>, opening: Option<real>)
    requires IsTrail(p, es, opening)
    ensures Balanced(es, p[0], Last(p))
  {
    forall x ensures Excess(es, x) == Delta(x, p[0]) - Delta(x, Last(p)) {
      WalkIsBalanced(p, x);
      DegreesOfMultiset(Pairs(p), es, x);
    }
  }

  /**
   The closing balance does not depend on the order in which the rows are listed, nor on
   which trail is chosen: the opening balance and the edges determine it.
   */
  lemma {:induction false} ClosingBalanceIsDetermined(p: seq<real>, es: seq<Edge>, q: seq<real>, fs: seq<Edge>)
    requires IsTrail(p, es, None) && IsTrail(q, fs, None)
    requires multiset(es) == multiset(fs)
    requires p[0] == q[0]
    ensures Last(p) == Last(q)
  {
    TrailIsBalanced(p, es, None);
    TrailIsBalanced(q, fs, None);
    DegreesOfMultiset(es, fs, Last(p));
    assert Excess(es, Last(p)) == Delta(Last(p), p[0]) - Delta(Last(p), Last(p));
    assert Excess(fs, Last(p)) == Delta(Last(p), q[0]) - Delta(Last(p), Last(q));
  }

  /** An open trail can only start at the one balance that is left once more than entered. */
  lemma {:induction false} OpenTrailStartIsDetermined(p: seq<real>, es: seq<Edge>, q: seq<real>, fs: seq<Edge>)
    requires IsTrail(p, es, None) && IsTrail(q, fs, None)
    requires multiset(es) == multiset(fs)
    requires p[0] != Last(p)
    ensures p[0] == q[0] && Last(p) == Last(q)
  {
    TrailIsBalanced(p, es, None);
    TrailIsBalanced(q, fs, None);
    DegreesOfMultiset(es, fs, p[0]);
    assert Excess(es, p[0]) == Delta(p[0], p[0]) - Delta(p[0], Last(p));
    assert Excess(fs, p[0]) == Delta(p[0], q[0]) - Delta(p[0], Last(q));
    ClosingBalanceIsDetermined(p, es, q, fs);
  }

  // ----- reachability: why nothing is left over

  /** From a visited balance on, a trail never leaves the visited balances. */
  lemma {:induction false} TrailStaysVisited(p: seq<real>, rest: seq<Edge>, path: seq<real>, k: nat, i: nat)
    requires k <= i < |p|
    requires p[k] in path
    requires forall x :: x in path ==> Out(rest, x) == 0
    requires multiset(Pairs(p)) == multiset(rest) + multiset(Pairs(path))
    ensures p[i] in path
    decreases i
  {
    if i > k {
      TrailStaysVisited(p, rest, path, k, i - 1);
      var e := (p[i - 1], p[i]);
      PairAt(p, i - 1);
      assert e in multiset(Pairs(p));
      if e in rest {
        NoOutMeansNoEdge(rest, e);
        assert false;
      }
      assert e in multiset(Pairs(path));
      PairEnds(path, e);
    }
  }

  /** If some trail uses every edge, a search that exhausts every balance it visits misses none. */
  lemma {:induction false} NothingIsLeftOver(p: seq<real>, rest: seq<Edge>, path: seq<real>, k: nat)
    requires k < |p| && path != [] && p[k] == path[0]
    requires k == 0 || p[0] == Last(p)
    requires forall x :: x in path ==> Out(rest, x) == 0
    requires multiset(Pairs(p)) == multiset(rest) + multiset(Pairs(path))
    ensures rest == []
  {
    if rest != [] {
      var e := rest[0];
      assert e in multiset(Pairs(p));
      PairEnds(p, e);
      var i :| 0 <= i < |p| && p[i] == e.0;
      TrailStaysVisited(p, rest, path, k, |p| - 1);
      if i >= k {
        TrailStaysVisited(p, rest, path, k, i);
      } else {
        TrailStaysVisited(p, rest, path, 0, i);
      }
      NoOutMeansNoEdge(rest, e);
      assert false;
    }
  }
}
