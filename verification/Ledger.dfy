/** The exchange's transaction-log rows, after their decimal fields have been parsed. */
module Ledger {
  import opened Sequences
  import opened EulerTrails

  datatype LedgerRow = LedgerRow(
    id: string,
    currency: string,
    time: nat,            // milliseconds since the epoch
    change: real,
    cashFlow: real,
    funding: real,
    fee: real,
    cashBalance: real,    // the balance after the row
    kind: string,
    category: string,
    symbol: string,
    side: string,
    quantity: real,
    price: real)

  /** A row as a transition between two cash balances. */
  function EdgeOf(row: LedgerRow): Edge {
    (row.cashBalance - row.change, row.cashBalance)
  }

  function EdgesOf(rows: seq<LedgerRow>): seq<Edge> {
    seq(|rows|, i requires 0 <= i < |rows| => EdgeOf(rows[i]))
  }

  /** The wallet changes of the rows, added up. */
  function TotalChange(rows: seq<LedgerRow>): real {
    if rows == [] then 0.0 else rows[0].change + TotalChange(rows[1..])
  }

  lemma {:induction false} EdgesOfConcat(a: seq<LedgerRow>, b: seq<LedgerRow>)
    ensures EdgesOf(a + b) == EdgesOf(a) + EdgesOf(b)
  {
  }

  lemma {:induction false} TotalChangeConcat(a: seq<LedgerRow>, b: seq<LedgerRow>)
    ensures TotalChange(a + b) == TotalChange(a) + TotalChange(b)
  {
    if a == [] {
      assert a + b == b;
    } else {
      assert (a + b)[1..] == a[1..] + b;
      TotalChangeConcat(a[1..], b);
    }
  }

  /** Listing the rows in another order lists the same transitions. */
  lemma {:induction false} EdgesOfPermutation(a: seq<LedgerRow>, b: seq<LedgerRow>)
    requires multiset(a) == multiset(b)
    ensures multiset(EdgesOf(a)) == multiset(EdgesOf(b))
    decreases |a|
  {
    if a == [] {
      assert |multiset(a)| == |multiset(b)|;
    } else {
      var i := MatchHead(a, b);
      var before, after := b[..i], b[i + 1..];
      EdgesOfPermutation(a[1..], before + after);
      assert EdgesOf(a) == [EdgeOf(a[0])] + EdgesOf(a[1..]);
      assert EdgesOf(b) == EdgesOf(before) + ([EdgeOf(a[0])] + EdgesOf(after));
      EdgesOfConcat(before, after);
    }
  }

  /** The amounts carried by a sequence of edges. */
  function TotalOfEdges(es: seq<Edge>): real {
    if es == [] then 0.0 else es[0].1 - es[0].0 + TotalOfEdges(es[1..])
  }

  lemma {:induction false} TotalOfEdgesConcat(a: seq<Edge>, b: seq<Edge>)
    ensures TotalOfEdges(a + b) == TotalOfEdges(a) + TotalOfEdges(b)
  {
    if a == [] {
      assert a + b == b;
    } else {
      assert (a + b)[1..] == a[1..] + b;
      TotalOfEdgesConcat(a[1..], b);
    }
  }

  lemma {:induction false} TotalOfEdgesPermutation(a: seq<Edge>, b: seq<Edge>)
    requires multiset(a) == multiset(b)
    ensures TotalOfEdges(a) == TotalOfEdges(b)
    decreases |a|
  {
    if a == [] {
      assert |multiset(a)| == |multiset(b)|;
    } else {
      var i := MatchHead(a, b);
      TotalOfEdgesPermutation(a[1..], b[..i] + b[i + 1..]);
      TotalOfEdgesAfterRemoval(b, i);
    }
  }

  lemma {:induction false} TotalOfEdgesAfterRemoval(b: seq<Edge>, i: nat)
    requires i < |b|
    ensures TotalOfEdges(b) == TotalOfEdges(b[..i] + b[i + 1..]) + b[i].1 - b[i].0
  {
    assert b == b[..i] + ([b[i]] + b[i + 1..]);
    TotalOfEdgesConcat(b[..i], [b[i]] + b[i + 1..]);
    TotalOfEdgesConcat([b[i]], b[i + 1..]);
    TotalOfEdgesConcat(b[..i], b[i + 1..]);
  }

  lemma {:induction false} TotalOfEdgesOf(rows: seq<LedgerRow>)
    ensures TotalOfEdges(EdgesOf(rows)) == TotalChange(rows)
  {
    if rows != [] {
      assert EdgesOf(rows)[1..] == EdgesOf(rows[1..]);
      TotalOfEdgesOf(rows[1..]);
    }
  }

  lemma {:induction false} WalkTelescopes(p: seq<real>)
    requires p != []
    ensures TotalOfEdges(Pairs(p)) == Last(p) - p[0]
  {
    if |p| > 1 {
      WalkTelescopes(p[1..]);
    }
  }
}
