/** What the reader of a validated series may rely on. */
module BalanceReading {
  import opened Wrappers
  import opened BalanceHistory
  import opened BalanceCache

  /** A record that lies on its day and in the covered interval, adds up, and carries only plain labels. */
  predicate Reads(a: Activity, date: int, start: nat, asOf: nat) {
    && date * 86_400_000_000 <= a.at < (date + 1) * 86_400_000_000 && start <= a.at <= asOf
    && a.walletChange == a.cashFlow + a.funding - a.fee && a.price >= 0.0
    && (a.side == "Buy" || a.side == "Sell" || a.side == "None" || a.side == "")
    && Plain(a.kind) && Plain(a.category) && Plain(a.symbol)
  }

  predicate Plain(text: string) {
    |text| <= 80 && forall c :: c in text ==>
      'A' <= c <= 'Z' || 'a' <= c <= 'z' || '0' <= c <= '9' || c == '_' || c == '-'
  }

  /** A settled day lies whole in the covered past; a known change is that of the records. */
  ghost predicate ReadsDay(d: Day, start: nat, asOf: nat) {
    && (d.complete ==>
          d.balance.Some? && start <= d.date * 86_400_000_000 && (d.date + 1) * 86_400_000_000 <= asOf)
    && (d.change.Some? ==> d.balance.Some? && d.change.value == Movement(d.activity))
    && |d.activity| <= 10_000 && forall a :: a in d.activity ==> Reads(a, d.date, start, asOf)
  }

  lemma {:induction false} LabelIsPlain(text: string)
    ensures ValidLabel(text) ==> Plain(text)
  {
  }

  lemma {:induction false} ActivityReads(a: Activity, date: int, start: nat, asOf: nat)
    requires ValidActivity(a, date, start, asOf)
    ensures Reads(a, date, start, asOf)
  {
    LabelIsPlain(a.kind);
    LabelIsPlain(a.category);
    LabelIsPlain(a.symbol);
  }

  lemma {:induction false} DayReads(d: Day, start: nat, asOf: nat)
    requires ValidDay(d, start, asOf)
    ensures ReadsDay(d, start, asOf)
  {
    forall a | a in d.activity ensures Reads(a, d.date, start, asOf) {
      ActivityReads(a, d.date, start, asOf);
    }
    assert d.date < DateOf(asOf) ==> (d.date + 1) * 86_400_000_000 <= asOf;
  }

  /** A valid series covers at most ninety days, one record a day in order, each of which reads well. */
  lemma {:induction false} ValidSeriesReads(h: History)
    requires ValidHistory(h)
    ensures h.start < h.asOf <= h.start + 90 * 86_400_000_000
    ensures |h.days| == h.asOf / 86_400_000_000 - h.start / 86_400_000_000 + 1
    ensures
      forall i :: 0 <= i < |h.days| ==>
        h.days[i].date == h.start / 86_400_000_000 + i && ReadsDay(h.days[i], h.start, h.asOf)
  {
    forall i | 0 <= i < |h.days|
      ensures h.days[i].date == h.start / 86_400_000_000 + i && ReadsDay(h.days[i], h.start, h.asOf)
    {
      DayReads(h.days[i], h.start, h.asOf);
    }
  }

  /**
   A valid series adds up over any stretch: where the changes are known, a later balance is the earlier one plus every
   wallet change recorded between them.
   */
  lemma {:induction false} ValidSeriesAddsUp(h: History, i: nat, j: nat)
    requires ValidHistory(h) && i <= j < |h.days| && h.days[i].balance.Some?
    requires forall k :: i < k <= j ==> h.days[k].change.Some?
    ensures h.days[j].balance.Some?
    ensures h.days[j].balance.value == h.days[i].balance.value + MovementBetween(h.days, i, j)
    decreases j
  {
    if i < j {
      ValidSeriesAddsUp(h, i, j - 1);
      assert ValidDay(h.days[j], h.start, h.asOf) && Consistent(h.days[j - 1], h.days[j]);
    }
  }
}
