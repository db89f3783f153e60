/**
 What it takes for a ledger to be accepted, in terms of its rows alone: they can be listed by time so that each starts
 at the balance the one before it left, up to the wallet.
 */
module WalletListing {
  import opened Wrappers
  import opened Sequences
  import opened EulerTrails
  import opened Ledger
  import opened DemoBalance
  import opened DailyCloses
  import opened WalletHistory
  import opened WalletOrigin
  import opened WalletRowOrder

  /** The balance before a row. */
  function Before(row: LedgerRow): real {
    row.cashBalance - row.change
  }

  /** Each row starts at the balance the row before it left. */
  predicate RunsOn(listing: seq<LedgerRow>) {
    forall i :: 0 < i < |listing| ==> Before(listing[i]) == listing[i - 1].cashBalance
  }

  /** The rows in some order in which they run on, from the opening balance when there is one. */
  ghost predicate ListsFrom(listing: seq<LedgerRow>, rows: seq<LedgerRow>, opening: Option<real>) {
    && multiset(listing) == multiset(rows) && RunsOn(listing)
    && (opening.Some? && listing != [] ==> Before(listing[0]) == opening.value)
  }

  // ----- one millisecond

  /** `p` lists the balances between the rows. */
  predicate Between(listing: seq<LedgerRow>, p: seq<real>) {
    && |p| == |listing| + 1
    && forall i :: 0 <= i < |listing| ==> Before(listing[i]) == p[i] && listing[i].cashBalance == p[i + 1]
  }

  lemma {:induction false} PairsLieBetween(listing: seq<LedgerRow>, p: seq<real>)
    requires p != [] && EdgesOf(listing) == Pairs(p)
    ensures Between(listing, p)
  {
    PairsLength(p);
    assert |EdgesOf(listing)| == |listing|;
    forall i | 0 <= i < |listing|
      ensures Before(listing[i]) == p[i] && listing[i].cashBalance == p[i + 1]
    {
      PairIs(p, i);
      assert EdgesOf(listing)[i] == EdgeOf(listing[i]);
    }
  }

  lemma {:induction false} PairIs(p: seq<real>, i: nat)
    requires i + 1 < |p|
    ensures |Pairs(p)| == |p| - 1 && Pairs(p)[i] == (p[i], p[i + 1])
  {
    PairsLength(p);
    if i > 0 {
      PairIs(p[1..], i - 1);
    }
  }

  /** Rows can be put in the order of any listing of their transitions. */
  lemma {:induction false} Arranged(es: seq<Edge>, rows: seq<LedgerRow>) returns (listing: seq<LedgerRow>)
    requires multiset(es) == multiset(EdgesOf(rows))
    ensures multiset(listing) == multiset(rows) && EdgesOf(listing) == es
  {
    if es == [] {
      assert |multiset(es)| == |multiset(EdgesOf(rows))|;
      listing := rows;
    } else {
      var i := MatchHead(es, EdgesOf(rows));
      var before, after := rows[..i], rows[i + 1..];
      assert EdgesOf(rows)[..i] + EdgesOf(rows)[i + 1..] == EdgesOf(before + after);
      var rest := Arranged(es[1..], before + after);
      listing := [rows[i]] + rest;
      MultisetAfterRemoval(rows, i);
      assert EdgesOf(listing) == [EdgeOf(rows[i])] + EdgesOf(rest);
    }
  }

  /** A trail through the transitions of some rows is a way to list the rows. */
  lemma {:induction false} TrailLists(p: seq<real>, rows: seq<LedgerRow>, opening: Option<real>)
    returns (listing: seq<LedgerRow>)
    requires IsTrail(p, EdgesOf(rows), opening)
    ensures ListsFrom(listing, rows, opening)
    ensures listing != [] ==> Last(listing).cashBalance == Last(p) && Before(listing[0]) == p[0]
  {
    listing := Arranged(Pairs(p), rows);
    PairsLieBetween(listing, p);
  }

  lemma {:induction false} TrailGrows(p: seq<real>, es: seq<Edge>, opening: Option<real>, x: real)
    requires IsTrail(p, es, opening)
    ensures IsTrail(p + [x], es + [(Last(p), x)], opening) && Last(p + [x]) == x
  {
    PairsConcat(p, [x]);
    assert Pairs(p + [x]) == Pairs(p) + [(Last(p), x)];
  }

  /** A listing that runs on is a trail through its transitions. */
  lemma {:induction false} ListingIsTrail(listing: seq<LedgerRow>) returns (p: seq<real>)
    requires listing != [] && RunsOn(listing)
    ensures IsTrail(p, EdgesOf(listing), Some(Before(listing[0]))) && Last(p) == Last(listing).cashBalance
  {
    var row := Last(listing);
    if |listing| == 1 {
      p := [Before(row), row.cashBalance];
      assert Pairs(p) == EdgesOf(listing);
    } else {
      var q := ListingIsTrail(Init(listing));
      TrailGrows(q, EdgesOf(Init(listing)), Some(Before(listing[0])), row.cashBalance);
      p := q + [row.cashBalance];
      assert EdgesOf(listing) == EdgesOf(Init(listing)) + [(Last(q), row.cashBalance)];
    }
  }

  /** The rows of one millisecond have a trail exactly when they can be listed so that they run on. */
  lemma {:induction false} TrailsAreListings(rows: seq<LedgerRow>, opening: Option<real>)
    requires rows != []
    ensures HasTrail(EdgesOf(rows), opening) <==> exists listing :: ListsFrom(listing, rows, opening)
  {
    if HasTrail(EdgesOf(rows), opening) {
      var p :| IsTrail(p, EdgesOf(rows), opening);
      var listing := TrailLists(p, rows, opening);
    }
    if listing :| ListsFrom(listing, rows, opening) {
      assert |multiset(listing)| == |multiset(rows)|;
      var p := ListingIsTrail(listing);
      EdgesOfPermutation(listing, rows);
      assert IsTrail(p, EdgesOf(rows), opening);
    }
  }

  // ----- the whole ledger

  /** The rows once each, by time, running on up to the wallet. */
  ghost predicate Lists(listing: seq<LedgerRow>, rows: seq<LedgerRow>, wallet: real) {
    && multiset(listing) == multiset(rows) && SortedBy(listing, TimeOf) && RunsOn(listing)
    && (listing != [] ==> Last(listing).cashBalance == wallet)
  }

  lemma {:induction false} Joined(a: seq<LedgerRow>, b: seq<LedgerRow>)
    requires RunsOn(a) && RunsOn(b) && (a != [] && b != [] ==> Before(b[0]) == Last(a).cashBalance)
    ensures RunsOn(a + b)
  {
  }

  lemma {:induction false} SortedJoin(a: seq<LedgerRow>, b: seq<LedgerRow>, time: nat)
    requires SortedBy(a, TimeOf) && (forall row :: row in a ==> row.time <= time)
    requires forall row :: row in b ==> row.time == time
    ensures SortedBy(a + b, TimeOf)
  {
    forall i, j | 0 <= i < j < |a + b|
      ensures TimeOf((a + b)[i]) <= TimeOf((a + b)[j])
    {
      assert (a + b)[i] in a || (a + b)[i] in b;
      assert j >= |a| ==> (a + b)[j] in b;
    }
  }

  /** A chain of batches can be listed row by row. */
  lemma {:induction false} ChainLists(batches: seq<Batch>, closes: seq<Close>) returns (listing: seq<LedgerRow>)
    requires WellGrouped(batches) && Chained(batches, None, closes)
    ensures multiset(listing) == multiset(Flatten(batches)) && SortedBy(listing, TimeOf) && RunsOn(listing)
    ensures batches != [] ==> listing != [] && Last(listing).cashBalance == Last(closes).balance
    decreases |batches|
  {
    if batches == [] {
      listing := [];
    } else {
      var earlier := ChainLists(Init(batches), Init(closes));
      var rows, opening := Last(batches).rows, OpeningAfter(None, Init(closes));
      var p :| IsTrail(p, EdgesOf(rows), opening) && Last(p) == Last(closes).balance;
      var latest := TrailLists(p, rows, opening);
      listing := earlier + latest;
      assert |multiset(latest)| == |multiset(rows)|;
      Joined(earlier, latest);
      BatchTimes(batches, earlier, latest);
      SortedJoin(earlier, latest, Last(batches).time);
    }
  }

  lemma {:induction false} BatchTimes(batches: seq<Batch>, earlier: seq<LedgerRow>, latest: seq<LedgerRow>)
    requires WellGrouped(batches) && batches != []
    requires multiset(earlier) == multiset(Flatten(Init(batches))) && multiset(latest) == multiset(Last(batches).rows)
    ensures forall row :: row in earlier ==> row.time <= Last(batches).time
    ensures forall row :: row in latest ==> row.time == Last(batches).time
  {
    SameElements(earlier, Flatten(Init(batches)));
    SameElements(latest, Last(batches).rows);
    forall row | row in earlier ensures row.time <= Last(batches).time {
      EarlierRows(batches, row);
    }
  }

  /** A row that runs on from a batch stays in its chain. */
  lemma {:induction false} LinkGrows(rows: seq<LedgerRow>, opening: Option<real>, close: real, row: LedgerRow)
    requires Linked(rows, opening, close) && Before(row) == close
    ensures Linked(rows + [row], opening, row.cashBalance)
  {
    var p :| IsTrail(p, EdgesOf(rows), opening) && Last(p) == close;
    TrailGrows(p, EdgesOf(rows), opening, row.cashBalance);
    assert EdgesOf(rows + [row]) == EdgesOf(rows) + [(Last(p), row.cashBalance)];
  }

  lemma {:induction false} LinkOfOne(row: LedgerRow, opening: Option<real>)
    requires opening.Some? ==> opening.value == Before(row)
    ensures Linked([row], opening, row.cashBalance)
  {
    var p := [Before(row), row.cashBalance];
    assert Pairs(p) == EdgesOf([row]);
    assert IsTrail(p, EdgesOf([row]), opening) && Last(p) == row.cashBalance;
  }

  /** One more row keeps the chain. */
  lemma {:induction false} ChainGrows(batches: seq<Batch>, closes: seq<Close>, row: LedgerRow)
    returns (closes': seq<Close>)
    requires Chained(batches, None, closes) && (batches != [] ==> Last(closes).balance == Before(row))
    ensures Chained(Grown(batches, row), None, closes')
    ensures closes' != [] && Last(closes').balance == row.cashBalance
  {
    if batches != [] && Last(batches).time == row.time {
      var rows, opening := Last(batches).rows, OpeningAfter(None, Init(closes));
      LinkGrows(rows, opening, Last(closes).balance, row);
      closes' := Init(closes) + [Close(row.time, row.cashBalance)];
      ChainSnoc(Init(batches), None, Init(closes), Batch(row.time, rows + [row]), row.cashBalance);
    } else {
      LinkOfOne(row, OpeningAfter(None, closes));
      closes' := closes + [Close(row.time, row.cashBalance)];
      ChainSnoc(batches, None, closes, Batch(row.time, [row]), row.cashBalance);
    }
  }

  /** The groups of a listing chain up. */
  lemma {:induction false} ListingChains(listing: seq<LedgerRow>) returns (closes: seq<Close>)
    requires RunsOn(listing)
    ensures Chained(Batches(listing), None, closes)
    ensures listing != [] ==> Batches(listing) != [] && Last(closes).balance == Last(listing).cashBalance
    ensures listing == [] ==> closes == []
  {
    if listing == [] {
      closes := [];
    } else {
      var earlier := ListingChains(Init(listing));
      closes := ChainGrows(Batches(Init(listing)), earlier, Last(listing));
    }
  }

  /** A ledger chains up to its wallet exactly when its rows can be listed up to it. */
  lemma {:induction false} ChainsUpWhenListed(ordered: seq<LedgerRow>, wallet: real)
    requires SortedBy(ordered, TimeOf)
    ensures ChainsUp(ordered, wallet) <==> exists listing :: Lists(listing, ordered, wallet)
  {
    BatchesAreGroups(ordered);
    if ChainsUp(ordered, wallet) {
      var closes :| Chained(Batches(ordered), None, closes) && (closes != [] ==> Last(closes).balance == wallet);
      var listing := ChainLists(Batches(ordered), closes);
      assert listing != [] ==> |multiset(listing)| == |multiset(ordered)|;
      assert Lists(listing, ordered, wallet);
    }
    if listing :| Lists(listing, ordered, wallet) {
      var closes := ListingChains(listing);
      SameBatchesOf(listing, ordered);
      SameChains(Batches(listing), Batches(ordered), None, closes);
    }
  }

  // ----- a first millisecond that closes a cycle

  /** What the rows of some stretch of time moved. */
  function Moved(rows: seq<LedgerRow>, since: int, until: int): real {
    if rows == [] then 0.0
    else Moved(Init(rows), since, until) + (if since <= Last(rows).time < until then Last(rows).change else 0.0)
  }

  lemma {:induction false} MovedBetween(rows: seq<LedgerRow>, since: int, until: int)
    requires since <= until
    ensures Moved(rows, since, until) == TotalBefore(rows, until) - TotalBefore(rows, since)
  {
    if rows != [] {
      MovedBetween(Init(rows), since, until);
    }
  }

  lemma {:induction false} FirstBatchTotal(batches: seq<Batch>)
    requires WellGrouped(batches) && batches != []
    ensures TotalBefore(Flatten(batches), batches[0].time + 1) == TotalChange(batches[0].rows)
    ensures TotalBefore(Flatten(batches), batches[0].time) == 0.0
  {
    var last := Last(batches);
    assert forall row :: row in last.rows ==> row.time == last.time;
    TotalBeforeConcat(Flatten(Init(batches)), last.rows, batches[0].time + 1);
    TotalBeforeConcat(Flatten(Init(batches)), last.rows, batches[0].time);
    TotalBeforeUniform(last.rows, last.time, batches[0].time + 1);
    TotalBeforeUniform(last.rows, last.time, batches[0].time);
    if |batches| > 1 {
      FirstBatchTotal(Init(batches));
    } else {
      assert Flatten(Init(batches)) == [];
    }
  }

  lemma {:induction false} CycleTotal(rows: seq<LedgerRow>, close: real)
    requires Linked(rows, None, close)
    ensures IsClosed(rows) <==> TotalChange(rows) == 0.0
  {
    var p :| IsTrail(p, EdgesOf(rows), None) && Last(p) == close;
    ClosedTrail(p, rows);
    assert IsTrail(p, EdgesOf(rows), Some(p[0]));
    LinkedMoves(rows, p[0], close);
  }

  lemma {:induction false} FirstCycle(batches: seq<Batch>, closes: seq<Close>)
    requires batches != [] && Chained(batches, None, closes)
    ensures IsClosed(batches[0].rows) <==> TotalChange(batches[0].rows) == 0.0
  {
    FirstLink(batches, None, closes);
    CycleTotal(batches[0].rows, closes[0].balance);
  }

  lemma {:induction false} FirstMoves(batches: seq<Batch>, listing: seq<LedgerRow>)
    requires GroupsOf(batches, listing) && listing != []
    ensures Moved(listing, listing[0].time, listing[0].time + 1) == TotalChange(batches[0].rows)
  {
    FirstRow(batches);
    FirstBatchTotal(batches);
    MovedBetween(listing, listing[0].time, listing[0].time + 1);
  }

  /** The rows of the first millisecond return to where they start exactly when they move nothing in all. */
  lemma {:induction false} CycleMovesNothing(listing: seq<LedgerRow>)
    requires listing != [] && SortedBy(listing, TimeOf) && RunsOn(listing)
    ensures StartsWithCycle(listing) <==> Moved(listing, listing[0].time, listing[0].time + 1) == 0.0
  {
    BatchesAreGroups(listing);
    FirstMoves(Batches(listing), listing);
    var closes := ListingChains(listing);
    FirstCycle(Batches(listing), closes);
  }

  /** A listing opens at what it ends at less everything it moved. */
  lemma {:induction false} ListingOpens(listing: seq<LedgerRow>)
    requires listing != [] && RunsOn(listing)
    ensures Before(listing[0]) == Last(listing).cashBalance - TotalChange(listing)
  {
    var init, last := Init(listing), Last(listing);
    TotalChangeConcat(init, [last]);
    assert listing == init + [last] && TotalChange([last]) == last.change;
    if init != [] {
      ListingOpens(init);
    }
  }

  // ----- the first row as it is listed

  /** Row `k` is the first one listed among the earliest. */
  predicate FirstEarliest(rows: seq<LedgerRow>, k: nat) {
    && k < |rows|
    && (forall j :: 0 <= j < |rows| ==> rows[k].time <= rows[j].time)
    && (forall j :: 0 <= j < k ==> rows[k].time < rows[j].time)
  }

  lemma {:induction false} SortedHead(rows: seq<LedgerRow>) returns (k: nat)
    requires rows != []
    ensures FirstEarliest(rows, k) && StableSort(rows, TimeOf) != [] && StableSort(rows, TimeOf)[0] == rows[k]
  {
    k := 0;
    if |rows| > 1 {
      var j := SortedHead(rows[1..]);
      if rows[1..][j].time < rows[0].time { k := j + 1; }
      forall i | 0 <= i < |rows|
        ensures rows[k].time <= rows[i].time && (i < k ==> rows[k].time < rows[i].time)
      {
        if i > 0 { assert rows[i] == rows[1..][i - 1]; }
      }
    }
  }

  /** One more row leaves the first of the earliest where it was, if it is no earlier. */
  lemma {:induction false} StillEarliest(rows: seq<LedgerRow>, row: LedgerRow, k: nat)
    requires FirstEarliest(rows, k) && rows[k].time <= row.time
    ensures FirstEarliest(rows + [row], k)
  {
  }

  lemma {:induction false} LastEarliest(rows: seq<LedgerRow>, row: LedgerRow)
    requires forall x :: x in rows ==> row.time < x.time
    ensures FirstEarliest(rows + [row], |rows|)
  {
  }

  lemma {:induction false} KeptInit(rows: seq<LedgerRow>, i: nat)
    requires FirstEarliest(rows, i) && i < |rows| - 1
    ensures FirstEarliest(Init(rows), i) && rows[i].time <= Last(rows).time
  {
  }

  lemma {:induction false} KeptLater(rows: seq<LedgerRow>, row: LedgerRow)
    requires forall a, b :: a in rows && b in rows && a.id == b.id ==> a == b
    requires FirstEarliest(FirstOccurrences(rows) + [row], |FirstOccurrences(rows)|)
    ensures forall x :: x in rows ==> row.time < x.time
  {
    var kept := FirstOccurrences(rows);
    forall x | x in rows ensures row.time < x.time {
      EveryRowIsKept(rows, x);
      var n :| 0 <= n < |kept| && kept[n] == x;
      assert (kept + [row])[n] == x;
    }
  }

  /** Dropping repetitions does not change which row is the first of the earliest. */
  lemma {:induction false} KeptHead(rows: seq<LedgerRow>, i: nat) returns (k: nat)
    requires forall a, b :: a in rows && b in rows && a.id == b.id ==> a == b
    requires FirstEarliest(FirstOccurrences(rows), i)
    ensures FirstEarliest(rows, k) && rows[k] == FirstOccurrences(rows)[i]
  {
    var before, last, kept := Init(rows), Last(rows), FirstOccurrences(Init(rows));
    assert rows == before + [last];
    assert forall x :: x in before ==> x in rows;
    if HasId(kept, last.id) {
      k := KeptHead(before, i);
      var twin :| twin in kept && twin.id == last.id;
      FirstOccurrencesElements(before);
      assert twin in rows && last in rows;
      StillEarliest(before, last, k);
    } else {
      assert FirstOccurrences(rows) == kept + [last];
      if i < |kept| {
        KeptInit(FirstOccurrences(rows), i);
        k := KeptHead(before, i);
        StillEarliest(before, last, k);
      } else {
        k := |before|;
        KeptLater(before, last);
        LastEarliest(before, last);
      }
    }
  }

  // ----- acceptance

  /** A row as the exchange has to report it. */
  predicate Reported(row: LedgerRow, start: nat, asOf: nat) {
    && row.id != "" && row.currency == "USDT" && start / 1000 <= row.time <= asOf / 1000
    && row.change == row.cashFlow + row.funding - row.fee
    && |row.kind| <= 80 && |row.category| <= 80 && |row.symbol| <= 80
    && (row.side == "Buy" || row.side == "Sell" || row.side == "None" || row.side == "")
  }

  /** The rows once each, by time, running on up to the wallet. */
  ghost predicate ListsUp(listing: seq<LedgerRow>, rows: seq<LedgerRow>, wallet: real) {
    && (forall row :: row in listing <==> row in rows)
    && (forall i, j :: 0 <= i < j < |listing| ==> listing[i] != listing[j] && listing[i].time <= listing[j].time)
    && RunsOn(listing)
    && (listing != [] ==> Last(listing).cashBalance == wallet)
  }

  /** Where the first millisecond moves nothing in all, the first of its rows as given starts where the listing does. */
  ghost predicate OpensAsGiven(listing: seq<LedgerRow>, rows: seq<LedgerRow>) {
    listing != [] && Moved(listing, listing[0].time, listing[0].time + 1) == 0.0 ==>
      exists k: nat :: FirstEarliest(rows, k) && Before(rows[k]) == Before(listing[0])
  }

  lemma {:induction false} NoneTwice(listing: seq<LedgerRow>, row: LedgerRow)
    requires forall i, j :: 0 <= i < j < |listing| ==> listing[i] != listing[j]
    ensures multiset(listing)[row] == if row in listing then 1 else 0
  {
    if listing != [] {
      NoneTwice(Init(listing), row);
      assert listing == Init(listing) + [Last(listing)];
    }
  }

  lemma {:induction false} TwiceCounts(listing: seq<LedgerRow>, i: nat, j: nat)
    requires i < j < |listing| && listing[i] == listing[j]
    ensures multiset(listing)[listing[i]] >= 2
  {
    assert listing == listing[..j] + [listing[j]] + listing[j + 1..];
    assert listing[..j][i] == listing[i];
  }

  /** Listing the kept rows is listing the given rows once each. */
  lemma {:induction false} ListsOnce(
    listing: seq<LedgerRow>, rows: seq<LedgerRow>, start: nat, asOf: nat, wallet: real)
    requires Acceptable(rows, start / 1000, asOf / 1000)
    ensures Lists(listing, Ordered(rows), wallet) <==> ListsUp(listing, rows, wallet)
  {
    KeptOnce(rows, start, asOf);
    if multiset(listing) == multiset(Ordered(rows)) {
      SameElements(listing, Ordered(rows));
      forall i, j | 0 <= i < j < |listing| ensures listing[i] != listing[j] {
        if listing[i] == listing[j] { TwiceCounts(listing, i, j); }
      }
    }
    if ListsUp(listing, rows, wallet) {
      forall row ensures multiset(listing)[row] == multiset(Ordered(rows))[row] {
        NoneTwice(listing, row);
      }
    }
  }

  lemma {:induction false} KeptOnce(rows: seq<LedgerRow>, start: nat, asOf: nat)
    requires Acceptable(rows, start / 1000, asOf / 1000)
    ensures forall row :: row in Ordered(rows) <==> row in rows
    ensures forall row :: multiset(Ordered(rows))[row] == if row in rows then 1 else 0
  {
    var kept := FirstOccurrences(rows);
    SortPermutes(kept, TimeOf);
    FirstOccurrencesElements(rows);
    forall row
      ensures row in Ordered(rows) <==> row in rows
      ensures multiset(Ordered(rows))[row] == if row in rows then 1 else 0
    {
      EveryRowIsKept(rows, row);
      OnceEach(kept, row);
    }
  }

  lemma {:induction false} GivenFirst(rows: seq<LedgerRow>, start: nat, asOf: nat) returns (k: nat)
    requires Acceptable(rows, start / 1000, asOf / 1000) && Ordered(rows) != []
    ensures FirstEarliest(rows, k) && rows[k] == Ordered(rows)[0]
  {
    SortPermutes(FirstOccurrences(rows), TimeOf);
    var i := SortedHead(FirstOccurrences(rows));
    k := KeptHead(rows, i);
  }

  lemma {:induction false} OneFirst(rows: seq<LedgerRow>, k: nat, j: nat)
    requires FirstEarliest(rows, k) && FirstEarliest(rows, j)
    ensures k == j
  {
    assert rows[k].time <= rows[j].time <= rows[k].time;
  }

  lemma {:induction false} OpensWhere(listing: seq<LedgerRow>, rows: seq<LedgerRow>, k: nat)
    requires listing != [] && FirstEarliest(rows, k)
    ensures OpensAsGiven(listing, rows)
            <==> (Moved(listing, listing[0].time, listing[0].time + 1) == 0.0 ==> Before(rows[k]) == Before(listing[0]))
  {
    if j: nat :| FirstEarliest(rows, j) && Before(rows[j]) == Before(listing[0]) {
      OneFirst(rows, k, j);
    }
  }

  lemma {:induction false} ListedFromOpening(listing: seq<LedgerRow>, ordered: seq<LedgerRow>, wallet: real)
    requires SortedBy(ordered, TimeOf) && Lists(listing, ordered, wallet) && listing != []
    ensures ordered != [] && Before(listing[0]) == wallet - TotalChange(ordered)
    ensures StartsWithCycle(ordered) <==> Moved(listing, listing[0].time, listing[0].time + 1) == 0.0
  {
    assert |multiset(listing)| == |multiset(ordered)|;
    CycleMovesNothing(listing);
    SameLedger(listing, ordered, wallet);
    ListingOpens(listing);
  }

  /** The condition on a first cycle, read off a listing. */
  lemma {:induction false} CycleOpensAsGiven(
    listing: seq<LedgerRow>, rows: seq<LedgerRow>, start: nat, asOf: nat, wallet: real)
    requires Acceptable(rows, start / 1000, asOf / 1000) && Lists(listing, Ordered(rows), wallet)
    ensures OpensAsGiven(listing, rows)
            <==> (StartsWithCycle(Ordered(rows)) ==> ListedFromOrigin(Ordered(rows), wallet))
  {
    if listing == [] {
      assert |multiset(listing)| == |multiset(Ordered(rows))|;
    } else {
      OrderedRows(rows, start / 1000, asOf / 1000);
      ListedFromOpening(listing, Ordered(rows), wallet);
      var k := GivenFirst(rows, start, asOf);
      OpensWhere(listing, rows, k);
    }
  }

  lemma {:induction false} SidesAreShort(side: string)
    ensures side == "Buy" || side == "Sell" || side == "None" || side == "" ==> |side| <= 80
  {
  }

  lemma {:induction false} AcceptableAsReported(rows: seq<LedgerRow>, start: nat, asOf: nat)
    ensures Acceptable(rows, start / 1000, asOf / 1000)
            <==> && (forall row :: row in rows ==> Reported(row, start, asOf))
                 && (forall a, b :: a in rows && b in rows && a.id == b.id ==> a == b)
  {
    forall row ensures AcceptableRow(row, start / 1000, asOf / 1000) <==> Reported(row, start, asOf) {
      SidesAreShort(row.side);
    }
  }

  /**
   The exact condition in terms of the rows alone: a ledger is accepted if and only if its window and rows are as
   reported, rows of one identity are equal, and the rows, once each and by time, can be listed so that each starts at
   the balance the one before it left, the last one leaves the wallet, and a first millisecond that moves nothing in all
   is given from the balance the listing opens at.
   */
  lemma {:induction false} AcceptedWhenListed(rows: seq<LedgerRow>, start: nat, asOf: nat, wallet: real)
    ensures Reconstructible(rows, start, asOf, wallet)
            <==> && start < asOf && asOf - start <= 32 * 86_400_000_000
                 && (forall row :: row in rows ==> Reported(row, start, asOf))
                 && (forall a, b :: a in rows && b in rows && a.id == b.id ==> a == b)
                 && (exists listing :: ListsUp(listing, rows, wallet) && OpensAsGiven(listing, rows))
  {
    AcceptedExactlyWhen(rows, start, asOf, wallet);
    AcceptableAsReported(rows, start, asOf);
    if Acceptable(rows, start / 1000, asOf / 1000) {
      OrderedRows(rows, start / 1000, asOf / 1000);
      ChainsUpWhenListed(Ordered(rows), wallet);
      forall listing
        ensures Lists(listing, Ordered(rows), wallet) <==> ListsUp(listing, rows, wallet)
        ensures Lists(listing, Ordered(rows), wallet) ==>
                  (OpensAsGiven(listing, rows)
                   <==> (StartsWithCycle(Ordered(rows)) ==> ListedFromOrigin(Ordered(rows), wallet)))
      {
        ListsOnce(listing, rows, start, asOf, wallet);
        if Lists(listing, Ordered(rows), wallet) {
          CycleOpensAsGiven(listing, rows, start, asOf, wallet);
        }
      }
    }
  }
}
