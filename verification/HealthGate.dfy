/** The source-side health gate: a paper gate on the last closed trades of the same source and side. */
module HealthGate {
  import opened Wrappers
  import opened Sequences
  import opened Forensics

  datatype Decisions = Decisions(allowed: seq<Position>, suppressed: seq<Position>)

  datatype GateError = WindowNotPositive

  /** What the gate may look at when `p` enters: other trades of its source and side already closed. */
  predicate Prior(p: Position, other: Position) {
    && other.id != p.id
    && other.source == p.source && other.side == p.side
    && other.closedAt > 0 && other.closedAt < p.start
  }

  function History(complete: seq<Position>, p: Position): seq<Position> {
    StableSort(Filter(complete, (other: Position) => Prior(p, other)), (other: Position) => other.closedAt)
  }

  /** Python's `s[-n:]`. */
  function LastOnes<T>(s: seq<T>, n: nat): seq<T> {
    if |s| <= n then s else s[|s| - n..]
  }

  function Outcome(history: seq<Position>): real {
    Sum(history, (p: Position) => p.netR)
  }

  predicate Unhealthy(history: seq<Position>, window: nat) {
    |LastOnes(history, window)| == window && Outcome(LastOnes(history, window)) <= 0.0
  }

  predicate Suppressed(complete: seq<Position>, p: Position, window: nat) {
    p.source.Some? && Unhealthy(History(complete, p), window)
  }

  function Decided(complete: seq<Position>, window: nat): Decisions {
    Decisions(Filter(complete, (p: Position) => !Suppressed(complete, p, window)),
              Filter(complete, (p: Position) => Suppressed(complete, p, window)))
  }

  /** The loop over the complete positions, each one appended to one of the two lists. */
  method Decide(positions: seq<Position>, window: int) returns (r: Result<Decisions, GateError>)
    ensures r == if window < 1 then Err(WindowNotPositive) else Ok(Decided(Ordered(positions), window))
  {
    if window < 1 {
      return Err(WindowNotPositive);
    }
    var complete := Ordered(positions);
    var allowed: seq<Position> := [];
    var suppressed: seq<Position> := [];
    ghost var keep := (p: Position) => !Suppressed(complete, p, window);
    ghost var drop := (p: Position) => Suppressed(complete, p, window);
    for k := 0 to |complete|
      invariant allowed == Filter(complete[..k], keep)
      invariant suppressed == Filter(complete[..k], drop)
    {
      var p := complete[k];
      assert complete[..k + 1] == complete[..k] + [p];
      FilterConcat(complete[..k], [p], keep);
      FilterConcat(complete[..k], [p], drop);
      if p.source.None? {
        allowed := allowed + [p];
      } else {
        var recent := LastOnes(History(complete, p), window);
        if |recent| == window && Outcome(recent) <= 0.0 {
          suppressed := suppressed + [p];
        } else {
          allowed := allowed + [p];
        }
      }
    }
    assert complete[..|complete|] == complete;
    FilterAgrees(complete, keep, (p: Position) => !Suppressed(complete, p, window));
    FilterAgrees(complete, drop, (p: Position) => Suppressed(complete, p, window));
    r := Ok(Decisions(allowed, suppressed));
  }

  /** Every complete position lands in exactly one list, and both lists keep the order of the entries. */
  lemma {:induction false} DecisionsPartition(positions: seq<Position>, window: nat)
    ensures
      var d := Decided(Ordered(positions), window);
      && multiset(d.allowed) + multiset(d.suppressed) == multiset(Filter(positions, (p: Position) => p.complete))
      && (forall p :: p in d.suppressed ==> p !in d.allowed)
  {
    var complete := Ordered(positions);
    var keep := (p: Position) => !Suppressed(complete, p, window);
    var drop := (p: Position) => Suppressed(complete, p, window);
    OrderedIsInOrder(positions);
    FilterSplits(complete, keep, drop);
    FilterElements(complete, keep);
    FilterElements(complete, drop);
  }

  /** What the raw list says about the past of `p`. */
  function Past(positions: seq<Position>, p: Position): seq<Position> {
    Filter(positions, (other: Position) => other.complete && Prior(p, other))
  }

  /** The gate's history depends on the past alone. */
  lemma {:induction false} HistoryIsOfThePast(positions: seq<Position>, p: Position)
    ensures History(Ordered(positions), p)
         == StableSort(StableSort(Past(positions, p), (other: Position) => other.start),
                       (other: Position) => other.closedAt)
  {
    var done := (other: Position) => other.complete;
    var prior := (other: Position) => Prior(p, other);
    var both := (other: Position) => other.complete && Prior(p, other);
    var start := (other: Position) => other.start;
    FilterCommutesWithSort(Filter(positions, done), start, prior);
    FilterTwice(positions, both, done);
    FilterElements(positions, done);
    FilterAgrees(Filter(positions, done), prior, both);
    assert Filter(Ordered(positions), prior) == StableSort(Past(positions, p), start);
  }

  /** The past of `p`, written out. */
  lemma {:induction false} PastIsClosedBefore(positions: seq<Position>, p: Position)
    ensures
      Past(positions, p)
        == Filter(positions, (other: Position) =>
             && other.complete && other.id != p.id && other.source == p.source && other.side == p.side
             && 0 < other.closedAt < p.start)
  {
    FilterAgrees(positions, (other: Position) => other.complete && Prior(p, other), (other: Position) =>
      && other.complete && other.id != p.id && other.source == p.source && other.side == p.side
      && 0 < other.closedAt < p.start);
  }

  /**
   No look-ahead: if two lists agree on the complete trades of `p`'s source and side, other than `p` itself, that
   closed before `p` starts, they decide `p` alike, whatever else was added, removed or altered: other sources, the
   other side, incomplete trades, trades still open when `p` enters, and `p` itself.
   */
  lemma {:induction false} NoLookAhead(positions: seq<Position>, others: seq<Position>, p: Position, window: nat)
    requires
      Filter(positions, (other: Position) =>
        && other.complete && other.id != p.id && other.source == p.source && other.side == p.side
        && 0 < other.closedAt < p.start)
      == Filter(others, (other: Position) =>
        && other.complete && other.id != p.id && other.source == p.source && other.side == p.side
        && 0 < other.closedAt < p.start)
    ensures Suppressed(Ordered(positions), p, window) == Suppressed(Ordered(others), p, window)
  {
    HistoryIsOfThePast(positions, p);
    HistoryIsOfThePast(others, p);
    PastIsClosedBefore(positions, p);
    PastIsClosedBefore(others, p);
    var visible := (other: Position) =>
      && other.complete && other.id != p.id && other.source == p.source && other.side == p.side
      && 0 < other.closedAt < p.start;
    assert Past(positions, p) == Past(others, p);
  }

  /** In particular, inserting anything but such trades changes nothing for `p`. */
  lemma {:induction false} LaterPositionsDoNotMatter(
    before: seq<Position>, inserted: seq<Position>, after: seq<Position>, p: Position, window: nat)
    requires
      forall other :: other in inserted ==>
        || !other.complete || other.id == p.id || other.source != p.source || other.side != p.side
        || other.closedAt <= 0 || other.closedAt >= p.start
    ensures Suppressed(Ordered(before + inserted + after), p, window) == Suppressed(Ordered(before + after), p, window)
  {
    var both := (other: Position) => other.complete && Prior(p, other);
    FilterConcat(before + inserted, after, both);
    FilterConcat(before, inserted, both);
    FilterConcat(before, after, both);
    FilterNothing(inserted, both);
    assert Filter(before, both) + [] == Filter(before, both);
    HistoryIsOfThePast(before + inserted + after, p);
    HistoryIsOfThePast(before + after, p);
  }

  lemma {:induction false} UnhealthyExactlyWhen(history: seq<Position>, window: nat)
    ensures Unhealthy(history, window) <==>
              |history| >= window && Sum(history[|history| - window..], (other: Position) => other.netR) <= 0.0
  {
    assert |history| == window ==> history[|history| - window..] == history;
  }

  /**
   The decision, exactly: `p` is suppressed if and only if its source is known, at least `window` complete trades of
   that source and side other than `p` closed before it starts, and the last `window` of them by close, ties in order
   of start and then of the list, lost or broke even in sum.
   */
  lemma {:induction false} SuppressedExactlyWhen(positions: seq<Position>, p: Position, window: nat)
    ensures
      var closed := Filter(positions, (other: Position) =>
        && other.complete && other.id != p.id && other.source == p.source && other.side == p.side
        && 0 < other.closedAt < p.start);
      var byClose := StableSort(StableSort(closed, (other: Position) => other.start),
                                (other: Position) => other.closedAt);
      Suppressed(Ordered(positions), p, window) <==>
        && p.source.Some? && |byClose| >= window
        && Sum(byClose[|byClose| - window..], (other: Position) => other.netR) <= 0.0
  {
    HistoryIsOfThePast(positions, p);
    PastIsClosedBefore(positions, p);
    UnhealthyExactlyWhen(History(Ordered(positions), p), window);
  }

  /** What the gate returns: the complete positions, each suppressed or allowed by that decision. */
  lemma {:induction false} DecidedExactly(positions: seq<Position>, p: Position, window: nat)
    ensures
      p in Decided(Ordered(positions), window).suppressed <==>
        p in positions && p.complete && Suppressed(Ordered(positions), p, window)
    ensures
      p in Decided(Ordered(positions), window).allowed <==>
        p in positions && p.complete && !Suppressed(Ordered(positions), p, window)
  {
    var complete := Ordered(positions);
    OrderedIsInOrder(positions);
    FilterElements(complete, (q: Position) => !Suppressed(complete, q, window));
    FilterElements(complete, (q: Position) => Suppressed(complete, q, window));
  }

  /** The trades behind a suppression: `window` of the latest closes, all closed in time, losing in sum. */
  lemma {:induction false} SuppressedMeansLosses(positions: seq<Position>, p: Position, window: nat)
    returns (recent: seq<Position>)
    requires window >= 1 && Suppressed(Ordered(positions), p, window)
    ensures |recent| == window && Sum(recent, (other: Position) => other.netR) <= 0.0
    ensures
      forall r :: r in recent ==>
        r in positions && r.complete && r.id != p.id && r.source == p.source && r.side == p.side
        && 0 < r.closedAt < p.start
    ensures
      forall other, r ::
        && other in positions && other.complete && other.id != p.id && other.source == p.source
        && other.side == p.side && 0 < other.closedAt < p.start && other !in recent && r in recent ==>
          other.closedAt <= r.closedAt
  {
    var complete := Ordered(positions);
    var history := History(complete, p);
    recent := LastOnes(history, window);
    OrderedIsInOrder(positions);
    FilterElements(complete, (other: Position) => Prior(p, other));
    HistoryIsByClose(complete, p);
    LastOnesAreLatest(history, window);
    forall r | r in recent
      ensures r in positions && r.complete && r.id != p.id && r.source == p.source && r.side == p.side
      ensures 0 < r.closedAt < p.start
    {
      assert r in history;
    }
    LeftOutIsEarlier(history, window);
  }

  lemma {:induction false} LeftOutIsEarlier(history: seq<Position>, window: nat)
    requires Latest(history, window)
    ensures
      forall other, r ::
        other in history && other !in LastOnes(history, window) && r in LastOnes(history, window) ==>
          other.closedAt <= r.closedAt
  {
    var recent := LastOnes(history, window);
    var first := |history| - |recent|;
    forall k | first <= k < |history| ensures history[k] in recent {
      assert recent[k - first] == history[k];
    }
    forall other, r | other in history && other !in recent && r in recent ensures other.closedAt <= r.closedAt {
      var i :| 0 <= i < |history| && history[i] == other;
      var j :| 0 <= j < |recent| && recent[j] == r;
      assert recent[j] == history[first + j];
    }
  }

  /** Nothing left out of the window closed later than anything in it. */
  ghost predicate Latest(history: seq<Position>, window: nat) {
    forall i, j :: 0 <= i < |history| - window <= j < |history| ==> history[i].closedAt <= history[j].closedAt
  }

  lemma {:induction false} HistoryIsByClose(complete: seq<Position>, p: Position)
    ensures SortedBy(History(complete, p), (other: Position) => other.closedAt)
    ensures forall h :: h in History(complete, p) <==> h in Filter(complete, (other: Position) => Prior(p, other))
  {
    var past := Filter(complete, (other: Position) => Prior(p, other));
    SortOrders(past, (other: Position) => other.closedAt);
    SortPermutes(past, (other: Position) => other.closedAt);
  }

  lemma {:induction false} LastOnesAreLatest(history: seq<Position>, window: nat)
    requires SortedBy(history, (other: Position) => other.closedAt)
    ensures Latest(history, window)
    ensures LastOnes(history, window) == history[if |history| <= window then 0 else |history| - window..]
    ensures forall r :: r in LastOnes(history, window) ==> r in history
  {
    var closed := (other: Position) => other.closedAt;
    forall i, j | 0 <= i < |history| - window <= j < |history| ensures history[i].closedAt <= history[j].closedAt {
      assert closed(history[i]) <= closed(history[j]);
    }
  }
}
