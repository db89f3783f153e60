/** Completed positions as the forensic scripts read them. */
module Forensics {
  import opened Wrappers
  import opened Sequences
  import opened Trading

  /** `id` stands for the identity of the position's record. */
  datatype Position = Position(
    id: int,
    start: int,
    closedAt: int,
    complete: bool,
    source: Option<int>,
    side: Side,
    netR: real,
    netPnl: real,
    risk: real,
    planned: Option<real>)

  /** The complete positions in order of their start. */
  function Ordered(positions: seq<Position>): seq<Position> {
    StableSort(Filter(positions, (p: Position) => p.complete), (p: Position) => p.start)
  }

  ghost predicate InOrder(positions: seq<Position>) {
    forall i, j :: 0 <= i < j < |positions| ==> positions[i].start <= positions[j].start
  }

  lemma {:induction false} OrderedIsInOrder(positions: seq<Position>)
    ensures InOrder(Ordered(positions))
    ensures multiset(Ordered(positions)) == multiset(Filter(positions, (p: Position) => p.complete))
    ensures forall p :: p in Ordered(positions) <==> p in positions && p.complete
  {
    var kept := Filter(positions, (p: Position) => p.complete);
    SortOrders(kept, (p: Position) => p.start);
    SortPermutes(kept, (p: Position) => p.start);
    FilterElements(positions, (p: Position) => p.complete);
    assert SortedBy(Ordered(positions), (p: Position) => p.start);
    forall i, j | 0 <= i < j < |Ordered(positions)| ensures Ordered(positions)[i].start <= Ordered(positions)[j].start {
      var key := (p: Position) => p.start;
      assert key(Ordered(positions)[i]) <= key(Ordered(positions)[j]);
    }
  }
}
