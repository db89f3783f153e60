/**
 When the reconstruction accepts a ledger: exactly when it chains up to the wallet and a first millisecond
 that closes a cycle is listed from the balance it really opened at.
 */
module WalletOrigin {
  import opened Wrappers
  import opened Sequences
  import opened EulerTrails
  import opened Ledger
  import opened DemoBalance
  import opened DailyCloses
  import opened WalletHistory

  /** Some ordering of the rows leads up to the wallet, from whatever opening balance. */
  ghost predicate ChainsUp(ordered: seq<LedgerRow>, wallet: real) {
    exists closes :: Chained(Batches(ordered), None, closes) && (closes != [] ==> Last(closes).balance == wallet)
  }

  /** The first millisecond's rows leave every balance as often as they enter it. */
  ghost predicate StartsWithCycle(ordered: seq<LedgerRow>) {
    ordered != [] && Batches(ordered) != [] && IsClosed(Batches(ordered)[0].rows)
  }

  /** The first listed row starts at the wallet less every change in the window. */
  predicate ListedFromOrigin(ordered: seq<LedgerRow>, wallet: real) {
    ordered != [] && EdgeOf(ordered[0]).0 == wallet - TotalChange(ordered)
  }

  // ----- the chain and its origin

  /** The first listed row is the first row of the first batch. */
  lemma {:induction false} FirstRow(batches: seq<Batch>)
    requires WellGrouped(batches) && batches != []
    ensures Flatten(batches) != [] && Flatten(batches)[0] == batches[0].rows[0]
  {
    if |batches| == 1 {
      assert Flatten(Init(batches)) == [];
    } else {
      FirstRow(Init(batches));
    }
  }

  /** The last close is the first close plus every change after the first batch. */
  lemma {:induction false} ChainTelescopes(batches: seq<Batch>, opening: Option<real>, closes: seq<Close>)
    requires batches != [] && Chained(batches, opening, closes)
    ensures Last(closes).balance == Origin(batches, closes) + TotalChange(Flatten(batches))
    decreases |batches|
  {
    var rows := Last(batches).rows;
    TotalChangeConcat(Flatten(Init(batches)), rows);
    if |batches| == 1 {
      assert Flatten(Init(batches)) == [];
    } else {
      ChainTelescopes(Init(batches), opening, Init(closes));
      LinkedMoves(rows, Last(Init(closes)).balance, Last(closes).balance);
    }
  }

  lemma {:induction false} FirstLink(batches: seq<Batch>, opening: Option<real>, closes: seq<Close>)
    requires batches != [] && Chained(batches, opening, closes)
    ensures Linked(batches[0].rows, opening, closes[0].balance)
  {
    ChainPrefix(batches, opening, closes, 1);
    assert Init(closes[..1]) == [] && Last(batches[..1]) == batches[0] && Last(closes[..1]) == closes[0];
  }

  /** Only the first link depends on the opening. */
  lemma {:induction false} Reopened(batches: seq<Batch>, from0: Option<real>, opening: Option<real>, closes: seq<Close>)
    requires batches != [] && Chained(batches, from0, closes)
    requires Linked(batches[0].rows, opening, closes[0].balance)
    ensures Chained(batches, opening, closes)
    decreases |batches|
  {
    if |batches| > 1 {
      Reopened(Init(batches), from0, opening, Init(closes));
    } else {
      assert Init(batches) == [] && Init(closes) == [];
      assert Last(batches) == batches[0] && Last(closes) == closes[0];
    }
  }

  /** A cycle closes where it opened, so it moves nothing. */
  lemma {:induction false} CycleReturns(rows: seq<LedgerRow>, close: real)
    requires Linked(rows, None, close) && IsClosed(rows)
    ensures Linked(rows, Some(close), close) && TotalChange(rows) == 0.0
  {
    var p :| IsTrail(p, EdgesOf(rows), None) && Last(p) == close;
    ClosedTrail(p, rows);
    assert IsTrail(p, EdgesOf(rows), Some(close));
    LinkedMoves(rows, close, close);
  }

  lemma {:induction false} AnyOpening(rows: seq<LedgerRow>, opening: Option<real>, close: real)
    requires Linked(rows, opening, close)
    ensures Linked(rows, None, close)
  {
    var p :| IsTrail(p, EdgesOf(rows), opening) && Last(p) == close;
    assert IsTrail(p, EdgesOf(rows), None);
  }

  /** A chain from the opening the source takes is a chain; if it starts with a cycle, that opening is its origin. */
  lemma {:induction false} TakenOpeningIsOrigin(batches: seq<Batch>, closes: seq<Close>)
    requires WellGrouped(batches) && batches != [] && Chained(batches, FirstOpening(batches), closes)
    ensures Chained(batches, None, closes)
    ensures IsClosed(batches[0].rows) ==>
        EdgeOf(batches[0].rows[0]).0 == Last(closes).balance - TotalChange(Flatten(batches))
  {
    var opening := FirstOpening(batches);
    FirstLink(batches, opening, closes);
    AnyOpening(batches[0].rows, opening, closes[0].balance);
    Reopened(batches, opening, None, closes);
    if IsClosed(batches[0].rows) {
      LinkedMoves(batches[0].rows, opening.value, closes[0].balance);
      ChainTelescopes(batches, opening, closes);
    }
  }

  /** A chain that starts with a cycle also opens where that cycle closed: at the wallet less every change. */
  lemma {:induction false} CycleOrigin(batches: seq<Batch>, closes: seq<Close>)
    requires batches != [] && Chained(batches, None, closes) && IsClosed(batches[0].rows)
    ensures closes[0].balance == Last(closes).balance - TotalChange(Flatten(batches))
    ensures Chained(batches, Some(closes[0].balance), closes)
  {
    FirstLink(batches, None, closes);
    CycleReturns(batches[0].rows, closes[0].balance);
    ChainTelescopes(batches, None, closes);
    Reopened(batches, None, Some(closes[0].balance), closes);
  }

  /** A chain that starts with a cycle listed from its origin is the chain the source takes. */
  lemma {:induction false} OriginIsTakenOpening(batches: seq<Batch>, closes: seq<Close>)
    requires WellGrouped(batches) && batches != [] && Chained(batches, None, closes)
    requires IsClosed(batches[0].rows) ==>
        EdgeOf(batches[0].rows[0]).0 == Last(closes).balance - TotalChange(Flatten(batches))
    ensures Chained(batches, FirstOpening(batches), closes)
  {
    if IsClosed(batches[0].rows) {
      CycleOrigin(batches, closes);
    }
  }

  /**
   Batch by batch: a chain up to the wallet exists from the opening the source takes exactly when one exists
   at all and a cycle in the first millisecond is listed from the wallet less every change.
   */
  lemma {:induction false} TakenChainExists(ordered: seq<LedgerRow>, wallet: real)
    requires SortedBy(ordered, TimeOf)
    ensures (exists closes :: Reconciles(ordered, closes, wallet))
            <==> ChainsUp(ordered, wallet) && (StartsWithCycle(ordered) ==> ListedFromOrigin(ordered, wallet))
  {
    BatchesAreGroups(ordered);
    if ordered == [] {
      assert Reconciles(ordered, [], wallet) && Chained(Batches(ordered), None, []);
    } else {
      FirstRow(Batches(ordered));
      if exists closes :: Reconciles(ordered, closes, wallet) {
        TakenImpliesListed(ordered, wallet);
      }
      if ChainsUp(ordered, wallet) && (StartsWithCycle(ordered) ==> ListedFromOrigin(ordered, wallet)) {
        ListedImpliesTaken(ordered, wallet);
      }
    }
  }

  lemma {:induction false} TakenImpliesListed(ordered: seq<LedgerRow>, wallet: real)
    requires GroupsOf(Batches(ordered), ordered) && ordered != [] && ordered[0] == Batches(ordered)[0].rows[0]
    requires exists closes :: Reconciles(ordered, closes, wallet)
    ensures ChainsUp(ordered, wallet) && (StartsWithCycle(ordered) ==> ListedFromOrigin(ordered, wallet))
  {
    var closes :| Reconciles(ordered, closes, wallet);
    TakenOpeningIsOrigin(Batches(ordered), closes);
  }

  lemma {:induction false} ListedImpliesTaken(ordered: seq<LedgerRow>, wallet: real)
    requires GroupsOf(Batches(ordered), ordered) && ordered != [] && ordered[0] == Batches(ordered)[0].rows[0]
    requires ChainsUp(ordered, wallet) && (StartsWithCycle(ordered) ==> ListedFromOrigin(ordered, wallet))
    ensures exists closes :: Reconciles(ordered, closes, wallet)
  {
    var closes :| Chained(Batches(ordered), None, closes) && (closes != [] ==> Last(closes).balance == wallet);
    OriginIsTakenOpening(Batches(ordered), closes);
    assert Reconciles(ordered, closes, wallet);
  }

  /**
   The exact condition: a ledger is reconstructed if and only if its interval and rows are acceptable, it chains
   up to the wallet, and a cycle in its first millisecond is listed from the balance the ledger opened at, which
   a caller reads off as the wallet less every change in the window.
   */
  lemma {:induction false} AcceptedExactlyWhen(rows: seq<LedgerRow>, start: nat, asOf: nat, wallet: real)
    ensures Reconstructible(rows, start, asOf, wallet)
            <==> && ValidInterval(start, asOf)
                 && Acceptable(rows, start / 1000, asOf / 1000)
                 && ChainsUp(Ordered(rows), wallet)
                 && (StartsWithCycle(Ordered(rows)) ==> ListedFromOrigin(Ordered(rows), wallet))
  {
    if Acceptable(rows, start / 1000, asOf / 1000) {
      OrderedRows(rows, start / 1000, asOf / 1000);
      TakenChainExists(Ordered(rows), wallet);
    }
  }
}
