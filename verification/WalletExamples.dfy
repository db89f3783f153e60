/** Concrete ledgers: one decided by the order of its rows alone, and three whose series the validator rejects. */
module WalletExamples {
  import opened Wrappers
  import opened Sequences
  import opened EulerTrails
  import opened Ledger
  import opened BalanceHistory
  import opened DemoBalance
  import opened WalletHistory
  import opened WalletOrigin
  import opened WalletRowOrder

  // ----- reading a short ledger

  ghost predicate DistinctIds(rows: seq<LedgerRow>) {
    forall i, j :: 0 <= i < j < |rows| ==> rows[i].id != rows[j].id
  }

  lemma {:induction false} LastIsNew(init: seq<LedgerRow>, last: LedgerRow)
    requires DistinctIds(init + [last])
    ensures !HasId(init, last.id) && DistinctIds(init)
  {
    var rows := init + [last];
    forall i | 0 <= i < |init| ensures init[i].id != last.id {
      assert rows[i].id != rows[|init|].id;
    }
    forall i, j | 0 <= i < j < |init| ensures init[i].id != init[j].id {
      assert rows[i].id != rows[j].id;
    }
  }

  lemma {:induction false} NothingRepeated(rows: seq<LedgerRow>)
    requires DistinctIds(rows)
    ensures FirstOccurrences(rows) == rows
  {
    if rows != [] {
      var init, last := rows[..|rows| - 1], Last(rows);
      assert rows == init + [last];
      LastIsNew(init, last);
      NothingRepeated(init);
      assert FirstOccurrences(rows) == init + [last];
    }
  }

  /** Distinct rows that are listed in order of time are read as they are. */
  lemma {:induction false} ReadAsListed(rows: seq<LedgerRow>)
    requires DistinctIds(rows) && SortedBy(rows, TimeOf)
    ensures Ordered(rows) == rows
  {
    NothingRepeated(rows);
    SortOfSorted(rows, TimeOf);
  }

  // ----- chaining two batches

  lemma {:induction false} TwoBatchesChain(batches: seq<Batch>, x: real, y: real)
    requires |batches| == 2
    requires Linked(batches[0].rows, None, x) && Linked(batches[1].rows, Some(x), y)
    ensures Chained(batches, None, [Close(batches[0].time, x), Close(batches[1].time, y)])
  {
    var first, second := Close(batches[0].time, x), Close(batches[1].time, y);
    ChainSnoc([], None, [], batches[0], x);
    ChainSnoc([batches[0]], None, [first], batches[1], y);
    assert [] + [batches[0]] == [batches[0]] && [batches[0]] + [batches[1]] == batches;
    assert [first] + [second] == [first, second];
  }

  lemma {:induction false} PairsOfThree(x: real, y: real, z: real)
    ensures Pairs([x, y, z]) == [(x, y), (y, z)]
  {
    assert [x, y, z][1..] == [y, z] && [y, z][1..] == [z];
    assert Pairs([y, z]) == [(y, z)] + Pairs([z]);
  }

  lemma {:induction false} TrailLinks(rows: seq<LedgerRow>, path: seq<real>, start: Option<real>)
    requires IsTrail(path, EdgesOf(rows), start)
    ensures Linked(rows, start, Last(path))
  {
  }

  // ----- the same ledger, listed in two orders

  function Transition(id: string, time: nat, before: real, after: real): LedgerRow {
    LedgerRow(id, "USDT", time, after - before, after - before, 0.0, 0.0, after, "", "", "", "", 0.0, 0.0)
  }

  function Away(x: real): LedgerRow {
    Transition("1", 1, x + 1.0, x)
  }

  function Back(x: real): LedgerRow {
    Transition("2", 1, x, x + 1.0)
  }

  function Onward(x: real): LedgerRow {
    Transition("3", 2, x, x + 2.0)
  }

  /** One down and one up in one millisecond, then on to `x + 2`: the ledger opened at `x`. */
  function Refused(x: real): seq<LedgerRow> {
    [Away(x), Back(x), Onward(x)]
  }

  /** The same rows, the first two the other way round. */
  function Accepted(x: real): seq<LedgerRow> {
    [Back(x), Away(x), Onward(x)]
  }

  lemma {:induction false} ThreeRows(a: LedgerRow, b: LedgerRow, c: LedgerRow)
    requires a.time == b.time < c.time
    ensures Batches([a, b, c]) == [Batch(a.time, [a, b]), Batch(c.time, [c])]
  {
    InitSnoc([a, b], c);
    InitSnoc([a], b);
    InitSnoc([], a);
    assert [] + [a] == [a] && [a] + [b] == [a, b] && [a, b] + [c] == [a, b, c];
    assert Batches([a]) == [Batch(a.time, [a])];
    assert Batches([a, b]) == Grown(Batches([a]), b) == [Batch(a.time, [a, b])];
    assert Batches([a, b, c]) == Grown(Batches([a, b]), c);
  }

  lemma {:induction false} ThreeAreRead(a: LedgerRow, b: LedgerRow, c: LedgerRow)
    requires a.id != b.id && a.id != c.id && b.id != c.id && a.time <= b.time <= c.time
    requires AcceptableRow(a, 0, 10) && AcceptableRow(b, 0, 10) && AcceptableRow(c, 0, 10)
    ensures Ordered([a, b, c]) == [a, b, c] && Acceptable([a, b, c], 0, 10)
  {
    ReadAsListed([a, b, c]);
  }

  lemma {:induction false} RefusedIsRead(x: real)
    ensures Ordered(Refused(x)) == Refused(x) && Acceptable(Refused(x), 0, 10)
  {
    assert "1"[0] != "2"[0] && "1"[0] != "3"[0] && "2"[0] != "3"[0];
    ThreeAreRead(Away(x), Back(x), Onward(x));
  }

  lemma {:induction false} AcceptedIsRead(x: real)
    ensures Ordered(Accepted(x)) == Accepted(x) && Acceptable(Accepted(x), 0, 10)
  {
    assert "1"[0] != "2"[0] && "1"[0] != "3"[0] && "2"[0] != "3"[0];
    ThreeAreRead(Back(x), Away(x), Onward(x));
  }

  lemma {:induction false} SwapFirstTwo<T>(a: T, b: T, c: T)
    ensures multiset([a, b, c]) == multiset([b, a, c])
  {
  }

  lemma {:induction false} TotalOfThree(a: LedgerRow, b: LedgerRow, c: LedgerRow)
    ensures TotalChange([a, b, c]) == a.change + b.change + c.change
  {
    assert [a, b, c][1..] == [b, c] && [b, c][1..] == [c] && [c][1..] == [];
    assert TotalChange([b, c]) == b.change + TotalChange([c]);
  }

  lemma {:induction false} AcceptedChain(x: real)
    ensures ChainsUp(Accepted(x), x + 2.0) && ListedFromOrigin(Accepted(x), x + 2.0)
    ensures StartsWithCycle(Accepted(x)) && !ListedFromOrigin(Refused(x), x + 2.0)
  {
    ThreeRows(Back(x), Away(x), Onward(x));
    TotalOfThree(Back(x), Away(x), Onward(x));
    TotalOfThree(Away(x), Back(x), Onward(x));
    var batches := Batches(Accepted(x));
    var cycle, step := [Back(x), Away(x)], [Onward(x)];
    assert EdgesOf(cycle) == [(x, x + 1.0), (x + 1.0, x)];
    assert EdgesOf(step) == [(x, x + 2.0)];
    PairsOfThree(x, x + 1.0, x);
    TrailLinks(cycle, [x, x + 1.0, x], None);
    ClosedTrail([x, x + 1.0, x], cycle);
    assert Pairs([x, x + 2.0]) == [(x, x + 2.0)] + Pairs([x + 2.0]);
    TrailLinks(step, [x, x + 2.0], Some(x));
    TwoBatchesChain(batches, x, x + 2.0);
  }

  /**
   One ledger, two listings: the rows chain up to the wallet in both, and only the one that lists the cycle
   from the balance it opened at is accepted.
   */
  lemma {:induction false} ListingDecides(x: real)
    ensures multiset(Refused(x)) == multiset(Accepted(x))
    ensures ChainsUp(Ordered(Refused(x)), x + 2.0)
    ensures Reconstructible(Accepted(x), 0, 10_000, x + 2.0)
    ensures !Reconstructible(Refused(x), 0, 10_000, x + 2.0)
  {
    SwapFirstTwo(Away(x), Back(x), Onward(x));
    AcceptedIsRead(x);
    RefusedIsRead(x);
    AcceptedChain(x);
    AcceptedWhenListed(Accepted(x), x + 2.0);
    RefusedWhenListed(Accepted(x), Refused(x), x + 2.0);
  }

  lemma {:induction false} AcceptedWhenListed(rows: seq<LedgerRow>, wallet: real)
    requires Ordered(rows) == rows && Acceptable(rows, 0, 10) && ChainsUp(rows, wallet)
    requires ListedFromOrigin(rows, wallet)
    ensures Reconstructible(rows, 0, 10_000, wallet)
  {
    AcceptedExactlyWhen(rows, 0, 10_000, wallet);
  }

  /** The same cycle, listed from elsewhere, is refused although it chains up as well. */
  lemma {:induction false} RefusedWhenListed(accepted: seq<LedgerRow>, refused: seq<LedgerRow>, wallet: real)
    requires multiset(accepted) == multiset(refused) && Reconstructible(accepted, 0, 10_000, wallet)
    requires StartsWithCycle(Ordered(accepted)) && !ListedFromOrigin(Ordered(refused), wallet)
    requires Acceptable(accepted, 0, 10) && ChainsUp(Ordered(accepted), wallet)
    ensures ChainsUp(Ordered(refused), wallet) && !Reconstructible(refused, 0, 10_000, wallet)
  {
    OrderMattersOnlyForCycles(accepted, refused, 0, 10_000, wallet);
    OrderedPermute(accepted, refused, 0, 10);
    OrderedRows(accepted, 0, 10);
    OrderedRows(refused, 0, 10);
    SameLedger(Ordered(accepted), Ordered(refused), wallet);
  }

  // ----- accepted rows the validator rejects

  /** A first deposit of 5, with the given label, price and time. */
  function Deposit(kind: string, price: real, time: nat): LedgerRow {
    LedgerRow("1", "USDT", time, 5.0, 5.0, 0.0, 0.0, 5.0, kind, "", "", "", 0.0, price)
  }

  lemma {:induction false} OneBatch(row: LedgerRow, close: real)
    requires Linked([row], None, close)
    ensures Batches([row]) == [Batch(row.time, [row])]
    ensures Chained(Batches([row]), None, [Close(row.time, close)])
  {
    InitSnoc([], row);
    assert [] + [row] == [row];
    ChainSnoc([], None, [], Batch(row.time, [row]), close);
    assert [] + [Batch(row.time, [row])] == [Batch(row.time, [row])];
    assert [] + [Close(row.time, close)] == [Close(row.time, close)];
  }

  lemma {:induction false} DepositLinks(row: LedgerRow)
    requires EdgeOf(row) == (0.0, 5.0)
    ensures Linked([row], None, 5.0) && !IsClosed([row])
  {
    assert EdgesOf([row]) == [(0.0, 5.0)];
    assert Pairs([0.0, 5.0]) == [(0.0, 5.0)] + Pairs([5.0]);
    TrailLinks([row], [0.0, 5.0], None);
    ClosedTrail([0.0, 5.0], [row]);
  }

  lemma {:induction false} DepositReaches(row: LedgerRow)
    requires Linked([row], None, 5.0) && !IsClosed([row])
    ensures ChainsUp([row], 5.0) && !StartsWithCycle([row])
  {
    OneBatch(row, 5.0);
  }

  lemma {:induction false} OneRowIsAccepted(row: LedgerRow, start: nat, asOf: nat)
    requires ValidInterval(start, asOf) && AcceptableRow(row, start / 1000, asOf / 1000) && EdgeOf(row) == (0.0, 5.0)
    ensures Reconstructible([row], start, asOf, 5.0) && Ordered([row]) == [row]
  {
    ReadAsListed([row]);
    DepositLinks(row);
    DepositReaches(row);
    assert Acceptable([row], start / 1000, asOf / 1000);
    AcceptedExactlyWhen([row], start, asOf, 5.0);
  }

  lemma {:induction false} DepositIsAccepted(kind: string, price: real, time: nat, start: nat, asOf: nat)
    requires |kind| <= 80 && ValidInterval(start, asOf) && start / 1000 <= time <= asOf / 1000
    ensures Reconstructible([Deposit(kind, price, time)], start, asOf, 5.0)
    ensures Ordered([Deposit(kind, price, time)]) == [Deposit(kind, price, time)]
  {
    OneRowIsAccepted(Deposit(kind, price, time), start, asOf);
  }

  /** The one series of an unpublishable row is invalid. */
  lemma {:induction false} OneRowIsRejected(row: LedgerRow, start: nat, asOf: nat, closes: seq<Close>)
    requires ValidInterval(start, asOf) && ValidRow(row, start / 1000, asOf / 1000) && !PublishableRow(row, start)
    requires Reconciles([row], closes, 5.0)
    ensures !ValidHistory(SeriesOf([row], closes, 5.0, start, asOf))
  {
    assert row in [row] && !Publishable([row], start);
    assert SortedBy([row], TimeOf);
    ProducerMeetsValidator([row], closes, 5.0, start, asOf);
  }

  /** The reconstruction accepts the deposit, and the validator rejects the series it makes of it. */
  ghost predicate AcceptedAndInvalid(kind: string, price: real, time: nat, start: nat, asOf: nat) {
    && start <= asOf
    && Reconstructible([Deposit(kind, price, time)], start, asOf, 5.0)
    && forall closes :: Reconciles(Ordered([Deposit(kind, price, time)]), closes, 5.0) ==>
         !ValidHistory(SeriesOf(Ordered([Deposit(kind, price, time)]), closes, 5.0, start, asOf))
  }

  lemma {:induction false} UnpublishableDeposit(kind: string, price: real, time: nat, start: nat, asOf: nat)
    requires |kind| <= 80 && ValidInterval(start, asOf) && start / 1000 <= time <= asOf / 1000
    requires !PublishableRow(Deposit(kind, price, time), start)
    ensures AcceptedAndInvalid(kind, price, time, start, asOf)
  {
    DepositIsAccepted(kind, price, time, start, asOf);
    forall closes | Reconciles(Ordered([Deposit(kind, price, time)]), closes, 5.0)
      ensures !ValidHistory(SeriesOf(Ordered([Deposit(kind, price, time)]), closes, 5.0, start, asOf))
    {
      OneRowIsRejected(Deposit(kind, price, time), start, asOf, closes);
    }
  }

  /**
   What the producer does not check: a label with a space, a negative price, and a row of the millisecond in
   which the window starts, before its microsecond.
   */
  lemma {:induction false} ProducerAcceptsUnpublishable()
    ensures AcceptedAndInvalid("wire in", 0.0, 1, 0, 10_000)
    ensures AcceptedAndInvalid("", -1.0, 1, 0, 10_000)
    ensures AcceptedAndInvalid("", 0.0, 1, 1_500, 10_000)
  {
    assert !LabelChar("wire in"[4]);
    UnpublishableDeposit("wire in", 0.0, 1, 0, 10_000);
    UnpublishableDeposit("", -1.0, 1, 0, 10_000);
    UnpublishableDeposit("", 0.0, 1, 1_500, 10_000);
  }
}
