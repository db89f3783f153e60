/** Filtering, summing and Python's stable sort, on sequences. */
module Sequences {

  function Last<T>(s: seq<T>): T
    requires s != []
  {
    s[|s| - 1]
  }

  function Init<T>(s: seq<T>): seq<T>
    requires s != []
  {
    s[..|s| - 1]
  }

  lemma {:induction false} InitSnoc<T>(s: seq<T>, x: T)
    ensures Init(s + [x]) == s && Last(s + [x]) == x
  {
  }

  lemma {:induction false} TailOfConcat<T>(a: seq<T>, b: seq<T>)
    requires a != []
    ensures (a + b)[1..] == a[1..] + b && (a + b)[0] == a[0]
  {
  }

  function Filter<T>(s: seq<T>, keep: T -> bool): seq<T> {
    if s == [] then [] else (if keep(s[0]) then [s[0]] else []) + Filter(s[1..], keep)
  }

  lemma {:induction false} FilterConcat<T>(a: seq<T>, b: seq<T>, keep: T -> bool)
    ensures Filter(a + b, keep) == Filter(a, keep) + Filter(b, keep)
  {
    if a == [] {
      assert a + b == b;
    } else {
      TailOfConcat(a, b);
      FilterConcat(a[1..], b, keep);
      var head: seq<T> := if keep(a[0]) then [a[0]] else [];
      assert head + Filter(a[1..], keep) + Filter(b, keep) == head + (Filter(a[1..], keep) + Filter(b, keep));
    }
  }

  lemma {:induction false} FilterElements<T>(s: seq<T>, keep: T -> bool)
    ensures forall x :: x in Filter(s, keep) ==> x in s && keep(x)
    ensures forall x :: x in s && keep(x) ==> x in Filter(s, keep)
    ensures |Filter(s, keep)| <= |s|
  {
    if s != [] {
      FilterElements(s[1..], keep);
      assert s == [s[0]] + s[1..];
    }
  }

  lemma {:induction false} FilterNothing<T>(s: seq<T>, keep: T -> bool)
    requires forall x :: x in s ==> !keep(x)
    ensures Filter(s, keep) == []
  {
    if s != [] {
      FilterNothing(s[1..], keep);
    }
  }

  /** A test and its opposite split the sequence: nothing is lost and nothing counted twice. */
  lemma {:induction false} FilterSplits<T>(s: seq<T>, keep: T -> bool, drop: T -> bool)
    requires forall x :: x in s ==> (keep(x) <==> !drop(x))
    ensures multiset(s) == multiset(Filter(s, keep)) + multiset(Filter(s, drop))
  {
    if s != [] {
      FilterSplits(s[1..], keep, drop);
      assert s == [s[0]] + s[1..];
    }
  }

  lemma {:induction false} FilterAgrees<T>(s: seq<T>, f: T -> bool, g: T -> bool)
    requires forall x :: x in s ==> f(x) == g(x)
    ensures Filter(s, f) == Filter(s, g)
  {
    if s != [] {
      FilterAgrees(s[1..], f, g);
    }
  }

  lemma {:induction false} FilterTwice<T>(s: seq<T>, f: T -> bool, g: T -> bool)
    requires forall x :: x in s && f(x) ==> g(x)
    ensures Filter(Filter(s, g), f) == Filter(s, f)
  {
    if s != [] {
      FilterTwice(s[1..], f, g);
      FilterConcat(if g(s[0]) then [s[0]] else [], Filter(s[1..], g), f);
    }
  }

  // ----- stable sorting

  ghost predicate SortedBy<T>(s: seq<T>, key: T -> int) {
    forall i, j :: 0 <= i < j < |s| ==> key(s[i]) <= key(s[j])
  }

  /** Places `x` before the first element whose key is not smaller. */
  function Insert<T>(x: T, s: seq<T>, key: T -> int): seq<T> {
    if s == [] || key(x) <= key(s[0]) then [x] + s else [s[0]] + Insert(x, s[1..], key)
  }

  /** Python's `sorted(s, key=key)`: elements with equal keys keep their order. */
  function StableSort<T>(s: seq<T>, key: T -> int): seq<T> {
    if s == [] then [] else Insert(s[0], StableSort(s[1..], key), key)
  }

  lemma {:induction false} InsertPermutes<T>(x: T, s: seq<T>, key: T -> int)
    ensures multiset(Insert(x, s, key)) == multiset{x} + multiset(s)
  {
    if s == [] || key(x) <= key(s[0]) {
    } else {
      InsertPermutes(x, s[1..], key);
      assert s == [s[0]] + s[1..];
    }
  }

  lemma {:induction false} SortPermutes<T>(s: seq<T>, key: T -> int)
    ensures multiset(StableSort(s, key)) == multiset(s)
    ensures |StableSort(s, key)| == |s|
    ensures forall x :: x in StableSort(s, key) <==> x in s
  {
    if s != [] {
      SortPermutes(s[1..], key);
      InsertPermutes(s[0], StableSort(s[1..], key), key);
      assert s == [s[0]] + s[1..];
    }
    assert |multiset(StableSort(s, key))| == |multiset(s)|;
    forall x ensures x in StableSort(s, key) <==> x in s {
      assert x in multiset(StableSort(s, key)) <==> x in multiset(s);
    }
  }

  lemma {:induction false} InsertOrders<T>(x: T, s: seq<T>, key: T -> int)
    requires SortedBy(s, key)
    ensures SortedBy(Insert(x, s, key), key)
  {
    if s == [] || key(x) <= key(s[0]) {
    } else {
      InsertOrders(x, s[1..], key);
      InsertPermutes(x, s[1..], key);
      var r := Insert(x, s[1..], key);
      forall y | y in r ensures key(s[0]) <= key(y) {
        assert y in multiset(r);
      }
    }
  }

  lemma {:induction false} SortOrders<T>(s: seq<T>, key: T -> int)
    ensures SortedBy(StableSort(s, key), key)
  {
    if s != [] {
      SortOrders(s[1..], key);
      InsertOrders(s[0], StableSort(s[1..], key), key);
    }
  }

  lemma {:induction false} FilterCons<T>(x: T, s: seq<T>, keep: T -> bool)
    ensures Filter([x] + s, keep) == if keep(x) then [x] + Filter(s, keep) else Filter(s, keep)
  {
    assert ([x] + s)[1..] == s;
  }

  lemma {:induction false} InsertFirst<T>(x: T, s: seq<T>, key: T -> int)
    requires forall y :: y in s ==> key(x) <= key(y)
    ensures Insert(x, s, key) == [x] + s
  {
  }

  lemma {:induction false} InsertLater<T>(x: T, y: T, s: seq<T>, key: T -> int)
    requires key(y) < key(x)
    ensures Insert(x, [y] + s, key) == [y] + Insert(x, s, key)
  {
    assert ([y] + s)[1..] == s;
  }

  lemma {:induction false} FilterInsert<T>(x: T, s: seq<T>, key: T -> int, keep: T -> bool)
    requires SortedBy(s, key)
    ensures Filter(Insert(x, s, key), keep) == if keep(x) then Insert(x, Filter(s, keep), key) else Filter(s, keep)
  {
    if s == [] || key(x) <= key(s[0]) {
      FilterCons(x, s, keep);
      FilterElements(s, keep);
      var kept := Filter(s, keep);
      forall y | y in kept ensures key(x) <= key(y) {
        assert y in s;
        var i :| 0 <= i < |s| && s[i] == y;
        assert i == 0 || key(s[0]) <= key(s[i]);
      }
      InsertFirst(x, kept, key);
    } else {
      var y, rest := s[0], s[1..];
      assert s == [y] + rest;
      FilterInsert(x, rest, key, keep);
      calc {
        Filter(Insert(x, [y] + rest, key), keep);
        { InsertLater(x, y, rest, key); }
        Filter([y] + Insert(x, rest, key), keep);
        { FilterCons(y, Insert(x, rest, key), keep); }
        (if keep(y) then [y] else []) + Filter(Insert(x, rest, key), keep);
      }
      FilterCons(y, rest, keep);
      InsertLater(x, y, Filter(rest, keep), key);
    }
  }

  /** Stability: sorting and filtering commute, so the kept elements keep their relative order. */
  lemma {:induction false} FilterCommutesWithSort<T>(s: seq<T>, key: T -> int, keep: T -> bool)
    ensures Filter(StableSort(s, key), keep) == StableSort(Filter(s, keep), key)
  {
    if s != [] {
      var rest := StableSort(s[1..], key);
      FilterCommutesWithSort(s[1..], key, keep);
      SortOrders(s[1..], key);
      FilterInsert(s[0], rest, key, keep);
      FilterCons(s[0], s[1..], keep);
      assert [s[0]] + s[1..] == s;
      SortCons(s[0], Filter(s[1..], keep), key);
    }
  }

  lemma {:induction false} SortCons<T>(x: T, s: seq<T>, key: T -> int)
    ensures StableSort([x] + s, key) == Insert(x, StableSort(s, key), key)
  {
    assert ([x] + s)[1..] == s;
  }

  lemma {:induction false} SortOfSorted<T>(s: seq<T>, key: T -> int)
    requires SortedBy(s, key)
    ensures StableSort(s, key) == s
  {
    if s != [] {
      SortOfSorted(s[1..], key);
    }
  }

  /** Ordered by one key, and by another where the first ties. */
  ghost predicate SortedByBoth<T>(s: seq<T>, major: T -> int, minor: T -> int) {
    forall i, j :: 0 <= i < j < |s| ==>
      major(s[i]) < major(s[j]) || (major(s[i]) == major(s[j]) && minor(s[i]) <= minor(s[j]))
  }

  lemma {:induction false} InsertKeepsBoth<T>(x: T, s: seq<T>, major: T -> int, minor: T -> int)
    requires SortedByBoth(s, major, minor) && forall y :: y in s ==> minor(x) <= minor(y)
    ensures SortedByBoth(Insert(x, s, major), major, minor)
  {
    if s == [] || major(x) <= major(s[0]) {
    } else {
      InsertKeepsBoth(x, s[1..], major, minor);
      InsertPermutes(x, s[1..], major);
      var r := Insert(x, s[1..], major);
      forall y | y in r ensures major(s[0]) < major(y) || (major(s[0]) == major(y) && minor(s[0]) <= minor(y)) {
        assert y in multiset(r);
      }
    }
  }

  /** Sorting what is already sorted by another key keeps that order among equals. */
  lemma {:induction false} SortKeepsBoth<T>(s: seq<T>, major: T -> int, minor: T -> int)
    requires SortedBy(s, minor)
    ensures SortedByBoth(StableSort(s, major), major, minor)
  {
    if s != [] {
      SortKeepsBoth(s[1..], major, minor);
      SortPermutes(s[1..], major);
      var rest := StableSort(s[1..], major);
      forall y | y in rest ensures minor(s[0]) <= minor(y) {
        assert y in multiset(rest) && y in multiset(s[1..]);
        var k :| 0 <= k < |s[1..]| && s[1..][k] == y;
        assert minor(s[0]) <= minor(s[k + 1]);
      }
      InsertKeepsBoth(s[0], StableSort(s[1..], major), major, minor);
    }
  }

  // ----- sums

  function Sum<T>(s: seq<T>, amount: T -> real): real {
    if s == [] then 0.0 else amount(s[0]) + Sum(s[1..], amount)
  }

  lemma {:induction false} SumConcat<T>(a: seq<T>, b: seq<T>, amount: T -> real)
    ensures Sum(a + b, amount) == Sum(a, amount) + Sum(b, amount)
  {
    if a == [] {
      assert a + b == b;
    } else {
      TailOfConcat(a, b);
      SumConcat(a[1..], b, amount);
    }
  }
}
