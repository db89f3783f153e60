/** The concurrent stop-risk cap: a sweep over positions by start that scales each one into the room left. */
module RiskCap {
  import opened Wrappers
  import opened Sequences
  import opened Arithmetic
  import opened Trading
  import opened Forensics

  datatype Capped = Capped(position: Position, factor: real, basis: string)

  datatype CapError = CapNotPositive | UnknownBasis | InvalidRisk

  /** A position still counted, with its scaled risk. */
  datatype Open = Open(closedAt: int, risk: real)

  function RiskOf(p: Position, basis: string): Option<real> {
    if basis == "actual" then Some(p.risk) else p.planned
  }

  predicate ValidRisk(p: Position, basis: string) {
    RiskOf(p, basis).Some? && RiskOf(p, basis).value >= 0.0
  }

  function Factor(cap: real, used: real, risk: real): real {
    if risk > 0.0 then Min(1.0, Max(0.0, cap - used) / risk) else 0.0
  }

  function Scaled(p: Position, factor: real, basis: string): Capped {
    Capped(p.(netPnl := Value(p.netPnl, factor),
              risk := Value(p.risk, factor),
              planned := if p.planned.Some? then Some(Value(p.planned.value, factor)) else None,
              netR := if factor > 0.0 then p.netR else 0.0),
           factor, basis)
  }

  /** The risk a capped position reports on the basis it was capped on. */
  function ReportedRisk(c: Capped, basis: string): real {
    var risk := RiskOf(c.position, basis);
    if risk.Some? then risk.value else 0.0
  }

  /** The reported risk of the positions that close after `t`, started or not. */
  function OpenAfter(capped: seq<Capped>, basis: string, t: int): real {
    if capped == [] then 0.0
    else OpenAfter(Init(capped), basis, t)
         + (if Last(capped).position.closedAt > t then ReportedRisk(Last(capped), basis) else 0.0)
  }

  /** The sweep without discarding anything: every earlier position is asked again. */
  function Sweep(ordered: seq<Position>, cap: real, basis: string): Result<seq<Capped>, CapError> {
    if ordered == [] then Ok([])
    else
      var before := Sweep(Init(ordered), cap, basis);
      var p := Last(ordered);
      if before.Err? then before
      else if !ValidRisk(p, basis) then Err(InvalidRisk)
      else
        var factor := Factor(cap, OpenAfter(before.value, basis, p.start), RiskOf(p, basis).value);
        Ok(before.value + [Scaled(p, factor, basis)])
  }

  function CappedPositions(positions: seq<Position>, cap: real, basis: string): Result<seq<Capped>, CapError> {
    if cap <= 0.0 then Err(CapNotPositive)
    else if basis != "actual" && basis != "planned" then Err(UnknownBasis)
    else Sweep(Ordered(positions), cap, basis)
  }

  // ----- the sweep as written, with a shrinking list of open positions

  function StillOpen(active: seq<Open>, t: int): seq<Open> {
    Filter(active, (o: Open) => o.closedAt > t)
  }

  function Total(active: seq<Open>): real {
    Sum(active, (o: Open) => o.risk)
  }

  lemma {:induction false} TotalSnoc(active: seq<Open>, o: Open)
    ensures Total(active + [o]) == Total(active) + o.risk
  {
    SumConcat(active, [o], (x: Open) => x.risk);
    assert Sum([o], (x: Open) => x.risk) == o.risk + Sum([], (x: Open) => x.risk);
  }

  /** The list stands for the sweep's positions at every later time. */
  ghost predicate Stands(active: seq<Open>, capped: seq<Capped>, basis: string, since: int) {
    forall t :: t >= since ==> Total(StillOpen(active, t)) == OpenAfter(capped, basis, t)
  }

  lemma {:induction false} DiscardingIsSafe(active: seq<Open>, capped: seq<Capped>, basis: string, since: int, now: int)
    requires Stands(active, capped, basis, since) && since <= now
    ensures Stands(StillOpen(active, now), capped, basis, now)
    ensures Total(StillOpen(active, now)) == OpenAfter(capped, basis, now)
  {
    forall t | t >= now ensures Total(StillOpen(StillOpen(active, now), t)) == OpenAfter(capped, basis, t) {
      FilterTwice(active, (o: Open) => o.closedAt > t, (o: Open) => o.closedAt > now);
      assert StillOpen(StillOpen(active, now), t) == StillOpen(active, t);
    }
  }

  lemma {:induction false} AddingStands(active: seq<Open>, capped: seq<Capped>, basis: string, since: int, c: Capped)
    requires Stands(active, capped, basis, since)
    ensures Stands(active + [Open(c.position.closedAt, ReportedRisk(c, basis))], capped + [c], basis, since)
  {
    var o := Open(c.position.closedAt, ReportedRisk(c, basis));
    forall t | t >= since ensures Total(StillOpen(active + [o], t)) == OpenAfter(capped + [c], basis, t) {
      InitSnoc(capped, c);
      FilterConcat(active, [o], (x: Open) => x.closedAt > t);
      assert Filter([o], (x: Open) => x.closedAt > t) == if o.closedAt > t then [o] else [];
      assert StillOpen(active + [o], t) == StillOpen(active, t) + (if o.closedAt > t then [o] else []);
      if o.closedAt > t {
        TotalSnoc(StillOpen(active, t), o);
      } else {
        assert StillOpen(active + [o], t) == StillOpen(active, t);
      }
    }
  }

  lemma {:induction false} SweepSnoc(ordered: seq<Position>, k: nat, cap: real, basis: string, capped: seq<Capped>)
    requires k < |ordered| && Sweep(ordered[..k], cap, basis) == Ok(capped)
    ensures !ValidRisk(ordered[k], basis) ==> Sweep(ordered[..k + 1], cap, basis) == Err(InvalidRisk)
    ensures ValidRisk(ordered[k], basis) ==>
      Sweep(ordered[..k + 1], cap, basis) ==
        Ok(capped + [Scaled(ordered[k],
            Factor(cap, OpenAfter(capped, basis, ordered[k].start), RiskOf(ordered[k], basis).value), basis)])
  {
    assert ordered[..k + 1] == ordered[..k] + [ordered[k]];
    InitSnoc(ordered[..k], ordered[k]);
  }

  /** A failed prefix fails the whole sweep. */
  lemma {:induction false} SweepFails(ordered: seq<Position>, k: nat, cap: real, basis: string)
    requires k <= |ordered| && Sweep(ordered[..k], cap, basis).Err?
    ensures Sweep(ordered, cap, basis) == Err(InvalidRisk)
    ensures Sweep(ordered[..k], cap, basis) == Err(InvalidRisk)
    decreases |ordered| - k
  {
    SweepErrs(ordered[..k], cap, basis);
    if k == |ordered| {
      assert ordered[..k] == ordered;
    } else {
      assert ordered[..k + 1] == ordered[..k] + [ordered[k]];
      InitSnoc(ordered[..k], ordered[k]);
      SweepFails(ordered, k + 1, cap, basis);
    }
  }

  lemma {:induction false} SweepErrs(ordered: seq<Position>, cap: real, basis: string)
    ensures Sweep(ordered, cap, basis).Err? ==> Sweep(ordered, cap, basis) == Err(InvalidRisk)
  {
    if ordered != [] {
      SweepErrs(Init(ordered), cap, basis);
    }
  }

  lemma {:induction false} ScaledReports(p: Position, factor: real, basis: string)
    requires ValidRisk(p, basis)
    ensures ReportedRisk(Scaled(p, factor, basis), basis) == Value(RiskOf(p, basis).value, factor)
    ensures Scaled(p, factor, basis).position.start == p.start
    ensures Scaled(p, factor, basis).position.closedAt == p.closedAt
  {
  }

  /** One position of the sweep, for the list that keeps only what is still open at its start. */
  lemma {:induction false} CapStep(
    ordered: seq<Position>, k: nat, cap: real, basis: string, active: seq<Open>, capped: seq<Capped>, since: int)
    requires k < |ordered| && Sweep(ordered[..k], cap, basis) == Ok(capped)
    requires Stands(active, capped, basis, since) && since <= ordered[k].start && ValidRisk(ordered[k], basis)
    ensures
      var p := ordered[k];
      var left := StillOpen(active, p.start);
      var factor := Factor(cap, Total(left), RiskOf(p, basis).value);
      && Sweep(ordered[..k + 1], cap, basis) == Ok(capped + [Scaled(p, factor, basis)])
      && Stands(left + [Open(p.closedAt, Value(RiskOf(p, basis).value, factor))],
                capped + [Scaled(p, factor, basis)], basis, p.start)
  {
    var p := ordered[k];
    var left := StillOpen(active, p.start);
    DiscardingIsSafe(active, capped, basis, since, p.start);
    SweepSnoc(ordered, k, cap, basis, capped);
    var factor := Factor(cap, Total(left), RiskOf(p, basis).value);
    AddingStands(left, capped, basis, p.start, Scaled(p, factor, basis));
    ScaledReports(p, factor, basis);
  }

  /** The sweep keeping only what is still open, discarding the rest for good. */
  method ApplyCap(positions: seq<Position>, cap: real, basis: string) returns (r: Result<seq<Capped>, CapError>)
    ensures r == CappedPositions(positions, cap, basis)
  {
    if cap <= 0.0 {
      return Err(CapNotPositive);
    }
    if basis != "actual" && basis != "planned" {
      return Err(UnknownBasis);
    }
    OrderedIsInOrder(positions);
    r := SweepOpen(Ordered(positions), cap, basis);
  }

  method SweepOpen(ordered: seq<Position>, cap: real, basis: string) returns (r: Result<seq<Capped>, CapError>)
    requires InOrder(ordered)
    ensures r == Sweep(ordered, cap, basis)
  {
    var active: seq<Open> := [];
    var capped: seq<Capped> := [];
    ghost var since := if ordered == [] then 0 else ordered[0].start;
    for k := 0 to |ordered|
      invariant Sweep(ordered[..k], cap, basis) == Ok(capped)
      invariant Stands(active, capped, basis, since)
      invariant k < |ordered| ==> since <= ordered[k].start
    {
      var p := ordered[k];
      var risk := RiskOf(p, basis);
      if risk.None? || risk.value < 0.0 {
        SweepSnoc(ordered, k, cap, basis, capped);
        SweepFails(ordered, k + 1, cap, basis);
        return Err(InvalidRisk);
      }
      CapStep(ordered, k, cap, basis, active, capped, since);
      active := StillOpen(active, p.start);
      var factor := Factor(cap, Total(active), risk.value);
      capped := capped + [Scaled(p, factor, basis)];
      active := active + [Open(p.closedAt, Value(risk.value, factor))];
      since := p.start;
    }
    assert ordered[..|ordered|] == ordered;
    r := Ok(capped);
  }

  // ----- the cap at every instant

  /** The reported risk of the positions open at `t`. */
  function Exposure(capped: seq<Capped>, basis: string, t: int): real {
    if capped == [] then 0.0
    else Exposure(Init(capped), basis, t)
         + (if Last(capped).position.start <= t < Last(capped).position.closedAt
            then ReportedRisk(Last(capped), basis) else 0.0)
  }

  /** Filling the room left never overfills it, and a reduced position fills it exactly. */
  lemma {:induction false} FactorFits(cap: real, used: real, risk: real)
    requires risk >= 0.0 && used <= cap
    ensures 0.0 <= Factor(cap, used, risk) <= 1.0
    ensures 0.0 <= Value(risk, Factor(cap, used, risk)) <= cap - used
    ensures risk > 0.0 && Factor(cap, used, risk) < 1.0 ==> used + Value(risk, Factor(cap, used, risk)) == cap
    ensures risk > 0.0 ==> (Factor(cap, used, risk) == 1.0 <==> used + risk <= cap)
  {
    if risk > 0.0 {
      var room := cap - used;
      var share := room / risk;
      DivTimes(room, risk);
      DivNonNegative(room, risk);
      DivAtMost(room, risk, 1.0);
      var factor := Factor(cap, used, risk);
      assert factor == Min(1.0, share);
      MulMono(factor, share, risk);
      MulNonNegative(factor, risk);
    }
  }

  /** What the sweep keeps: as many entries as positions, at the same times, none negative, never over the cap. */
  ghost predicate Kept(ordered: seq<Position>, cap: real, basis: string, capped: seq<Capped>) {
    && |capped| == |ordered|
    && forall k :: 0 <= k < |capped| ==>
         && capped[k].position.start == ordered[k].start && capped[k].position.closedAt == ordered[k].closedAt
         && ReportedRisk(capped[k], basis) >= 0.0 && 0.0 <= capped[k].factor <= 1.0
  }

  ghost predicate WithinCap(capped: seq<Capped>, cap: real, basis: string) {
    forall t :: Exposure(capped, basis, t) <= cap
  }

  /** Positions that already started and close after `t` are exactly those open at `t`. */
  lemma {:induction false} StartedAreExposed(capped: seq<Capped>, basis: string, t: int)
    requires forall c :: c in capped ==> c.position.start <= t
    ensures Exposure(capped, basis, t) == OpenAfter(capped, basis, t)
  {
    if capped != [] {
      assert forall c :: c in Init(capped) ==> c in capped;
      StartedAreExposed(Init(capped), basis, t);
      assert Last(capped) in capped;
    }
  }

  lemma {:induction false} LaterIsLess(capped: seq<Capped>, basis: string, t: int, u: int)
    requires t <= u && forall k :: 0 <= k < |capped| ==> ReportedRisk(capped[k], basis) >= 0.0
    ensures OpenAfter(capped, basis, u) <= OpenAfter(capped, basis, t)
  {
    if capped != [] {
      LaterIsLess(Init(capped), basis, t, u);
    }
  }

  lemma {:induction false} ExposureSnoc(capped: seq<Capped>, c: Capped, basis: string, t: int)
    ensures Exposure(capped + [c], basis, t)
         == Exposure(capped, basis, t)
            + (if c.position.start <= t < c.position.closedAt then ReportedRisk(c, basis) else 0.0)
  {
    InitSnoc(capped, c);
  }

  /** One more position at the latest start keeps the cap at every instant. */
  lemma {:induction false} AddingStaysWithinCap(capped: seq<Capped>, p: Position, cap: real, basis: string)
    requires WithinCap(capped, cap, basis) && ValidRisk(p, basis)
    requires forall k :: 0 <= k < |capped| ==>
        ReportedRisk(capped[k], basis) >= 0.0 && capped[k].position.start <= p.start
    ensures
      var c := Scaled(p, Factor(cap, OpenAfter(capped, basis, p.start), RiskOf(p, basis).value), basis);
      && WithinCap(capped + [c], cap, basis) && ReportedRisk(c, basis) >= 0.0 && 0.0 <= c.factor <= 1.0
      && (RiskOf(p, basis).value > 0.0 && c.factor < 1.0 ==>
            OpenAfter(capped, basis, p.start) + ReportedRisk(c, basis) == cap)
  {
    var used, risk := OpenAfter(capped, basis, p.start), RiskOf(p, basis).value;
    StartedAreExposed(capped, basis, p.start);
    FactorFits(cap, used, risk);
    var c := Scaled(p, Factor(cap, used, risk), basis);
    ScaledReports(p, Factor(cap, used, risk), basis);
    forall t ensures Exposure(capped + [c], basis, t) <= cap {
      ExposureSnoc(capped, c, basis, t);
      if p.start <= t {
        StartedAreExposed(capped, basis, t);
        LaterIsLess(capped, basis, p.start, t);
      }
    }
  }

  lemma {:induction false} KeptStarts(ordered: seq<Position>, cap: real, basis: string, capped: seq<Capped>, start: int)
    requires Kept(ordered, cap, basis, capped) && forall k :: 0 <= k < |ordered| ==> ordered[k].start <= start
    ensures forall k :: 0 <= k < |capped| ==> ReportedRisk(capped[k], basis) >= 0.0 && capped[k].position.start <= start
  {
  }

  lemma {:induction false} KeptSnoc(ordered: seq<Position>, cap: real, basis: string, capped: seq<Capped>, c: Capped)
    requires ordered != [] && Kept(Init(ordered), cap, basis, capped)
    requires c.position.start == Last(ordered).start && c.position.closedAt == Last(ordered).closedAt
    requires ReportedRisk(c, basis) >= 0.0 && 0.0 <= c.factor <= 1.0
    ensures Kept(ordered, cap, basis, capped + [c])
  {
  }

  lemma {:induction false} SweepStaysWithinCap(ordered: seq<Position>, cap: real, basis: string)
    requires cap > 0.0 && InOrder(ordered) && Sweep(ordered, cap, basis).Ok?
    ensures Kept(ordered, cap, basis, Sweep(ordered, cap, basis).value)
    ensures WithinCap(Sweep(ordered, cap, basis).value, cap, basis)
  {
    if ordered != [] {
      var before, p := Sweep(Init(ordered), cap, basis).value, Last(ordered);
      SweepStaysWithinCap(Init(ordered), cap, basis);
      KeptStarts(Init(ordered), cap, basis, before, p.start);
      AddingStaysWithinCap(before, p, cap, basis);
      var factor := Factor(cap, OpenAfter(before, basis, p.start), RiskOf(p, basis).value);
      ScaledReports(p, factor, basis);
      assert Sweep(ordered, cap, basis).value == before + [Scaled(p, factor, basis)];
      KeptSnoc(ordered, cap, basis, before, Scaled(p, factor, basis));
    }
  }

  /** The cap holds at every instant, although it is only checked when a position starts. */
  lemma {:induction false} CapHoldsAlways(positions: seq<Position>, cap: real, basis: string, t: int)
    requires CappedPositions(positions, cap, basis).Ok?
    ensures Exposure(CappedPositions(positions, cap, basis).value, basis, t) <= cap
  {
    OrderedIsInOrder(positions);
    SweepStaysWithinCap(Ordered(positions), cap, basis);
  }

  lemma {:induction false} SweepPrefix(ordered: seq<Position>, k: nat, cap: real, basis: string)
    requires k <= |ordered| && Sweep(ordered, cap, basis).Ok?
    ensures |Sweep(ordered, cap, basis).value| == |ordered|
    ensures Sweep(ordered[..k], cap, basis) == Ok(Sweep(ordered, cap, basis).value[..k])
    decreases |ordered|
  {
    if k == |ordered| {
      assert ordered[..k] == ordered;
      SweepLength(ordered, cap, basis);
      var all := Sweep(ordered, cap, basis).value;
      assert all[..k] == all;
    } else {
      SweepPrefix(Init(ordered), k, cap, basis);
      assert Init(ordered)[..k] == ordered[..k];
      var all := Sweep(ordered, cap, basis).value;
      assert Init(all)[..k] == all[..k];
      InitSnoc(Sweep(Init(ordered), cap, basis).value, Last(all));
    }
  }

  lemma {:induction false} SweepLength(ordered: seq<Position>, cap: real, basis: string)
    requires Sweep(ordered, cap, basis).Ok?
    ensures |Sweep(ordered, cap, basis).value| == |ordered|
  {
    if ordered != [] {
      SweepLength(Init(ordered), cap, basis);
    }
  }

  lemma {:induction false} ExposureGrows(capped: seq<Capped>, k: nat, basis: string, t: int)
    requires k <= |capped| && forall j :: 0 <= j < |capped| ==> ReportedRisk(capped[j], basis) >= 0.0
    ensures Exposure(capped[..k], basis, t) <= Exposure(capped, basis, t)
    decreases |capped|
  {
    if k == |capped| {
      assert capped[..k] == capped;
    } else {
      ExposureGrows(Init(capped), k, basis, t);
      assert Init(capped)[..k] == capped[..k];
    }
  }

  lemma {:induction false} SweepStep(ordered: seq<Position>, k: nat, cap: real, basis: string, capped: seq<Capped>)
    requires k < |ordered| && Sweep(ordered[..k], cap, basis) == Ok(capped) && Sweep(ordered[..k + 1], cap, basis).Ok?
    ensures ValidRisk(ordered[k], basis)
    ensures Sweep(ordered[..k + 1], cap, basis).value ==
      capped + [Scaled(ordered[k],
          Factor(cap, OpenAfter(capped, basis, ordered[k].start), RiskOf(ordered[k], basis).value), basis)]
  {
    SweepSnoc(ordered, k, cap, basis, capped);
  }

  /** A reduced position that lasts fills the cap at its start. */
  ghost predicate Full(p: Position, factor: real, exposure: real, cap: real, basis: string) {
    RiskOf(p, basis).Some? &&
    (RiskOf(p, basis).value > 0.0 && p.closedAt > p.start && factor < 1.0 ==> exposure == cap)
  }

  lemma {:induction false} ReducedFills(capped: seq<Capped>, p: Position, cap: real, basis: string)
    requires WithinCap(capped, cap, basis) && ValidRisk(p, basis)
    requires forall k :: 0 <= k < |capped| ==>
        ReportedRisk(capped[k], basis) >= 0.0 && capped[k].position.start <= p.start
    ensures
      var c := Scaled(p, Factor(cap, OpenAfter(capped, basis, p.start), RiskOf(p, basis).value), basis);
      Full(p, c.factor, Exposure(capped + [c], basis, p.start), cap, basis)
  {
    AddingStaysWithinCap(capped, p, cap, basis);
    StartedAreExposed(capped, basis, p.start);
    var c := Scaled(p, Factor(cap, OpenAfter(capped, basis, p.start), RiskOf(p, basis).value), basis);
    ExposureSnoc(capped, c, basis, p.start);
  }

  lemma {:induction false} ReducedFillsAt(ordered: seq<Position>, cap: real, basis: string, k: nat)
    requires cap > 0.0 && InOrder(ordered) && k < |ordered| && Sweep(ordered, cap, basis).Ok?
    ensures |Sweep(ordered, cap, basis).value| == |ordered|
    ensures
      var all := Sweep(ordered, cap, basis).value;
      Full(ordered[k], all[k].factor, Exposure(all[..k + 1], basis, ordered[k].start), cap, basis)
  {
    SweepPrefix(ordered, k, cap, basis);
    SweepPrefix(ordered, k + 1, cap, basis);
    var all := Sweep(ordered, cap, basis).value;
    SweepStaysWithinCap(ordered[..k], cap, basis);
    SweepStep(ordered, k, cap, basis, all[..k]);
    ReducedFills(all[..k], ordered[k], cap, basis);
    assert all[..k + 1] == all[..k] + [all[k]];
  }

  /**
   Nothing is scaled needlessly: a position with risk that lasts is reduced only when, at its start,
   the capped positions open then use the cap exactly.
   */
  lemma {:induction false} ReducedOnlyWhenFull(positions: seq<Position>, cap: real, basis: string, k: nat)
    requires CappedPositions(positions, cap, basis).Ok?
    requires k < |Ordered(positions)|
    ensures |CappedPositions(positions, cap, basis).value| == |Ordered(positions)|
    ensures
      var p := Ordered(positions)[k];
      var capped := CappedPositions(positions, cap, basis).value;
      Full(p, capped[k].factor, Exposure(capped, basis, p.start), cap, basis)
  {
    var ordered := Ordered(positions);
    OrderedIsInOrder(positions);
    SweepStaysWithinCap(ordered, cap, basis);
    ReducedFillsAt(ordered, cap, basis, k);
    var all := Sweep(ordered, cap, basis).value;
    ExposureGrows(all, k + 1, basis, ordered[k].start);
    assert Exposure(all, basis, ordered[k].start) <= cap;
  }

  // ----- what a capped position reports

  /** The risk of a position on a basis, zero where it is not known. */
  function RiskOn(p: Position, basis: string): real {
    if basis == "actual" then p.risk else if p.planned.Some? then p.planned.value else 0.0
  }

  /** What the first `k` capped positions that close after `t` take of the cap. */
  function Taken(capped: seq<Capped>, k: nat, basis: string, t: int): real
    requires k <= |capped|
  {
    if k == 0 then 0.0
    else Taken(capped, k - 1, basis, t)
         + (if capped[k - 1].position.closedAt > t then RiskOn(capped[k - 1].position, basis) else 0.0)
  }

  lemma {:induction false} TakenIsOpen(capped: seq<Capped>, k: nat, basis: string, t: int)
    requires k <= |capped|
    ensures Taken(capped, k, basis, t) == OpenAfter(capped[..k], basis, t)
  {
    if k > 0 {
      TakenIsOpen(capped, k - 1, basis, t);
      assert Init(capped[..k]) == capped[..k - 1];
    }
  }

  /** The same trade with its amounts multiplied by the factor, its R kept unless nothing of it is left. */
  ghost predicate Reports(c: Capped, p: Position, basis: string) {
    && c.basis == basis
    && c.position.id == p.id && c.position.start == p.start && c.position.closedAt == p.closedAt
    && c.position.complete == p.complete && c.position.source == p.source && c.position.side == p.side
    && c.position.netPnl == p.netPnl * c.factor
    && c.position.risk == p.risk * c.factor
    && (p.planned.None? ==> c.position.planned.None?)
    && (p.planned.Some? ==> c.position.planned.Some? && c.position.planned.value == p.planned.value * c.factor)
    && c.position.netR == (if c.factor > 0.0 then p.netR else 0.0)
  }

  /** The part of `risk` that fits into `room`. */
  ghost predicate Fits(factor: real, risk: real, room: real) {
    && 0.0 <= factor <= 1.0
    && Value(risk, factor) == Min(risk, Max(0.0, room))
    && (risk == 0.0 ==> factor == 0.0)
  }

  lemma {:induction false} FactorIsFit(cap: real, used: real, risk: real)
    requires risk >= 0.0
    ensures Fits(Factor(cap, used, risk), risk, cap - used)
  {
    if risk > 0.0 {
      var room := Max(0.0, cap - used);
      DivTimes(room, risk);
      DivNonNegative(room, risk);
      DivAtMost(room, risk, 1.0);
      assert Factor(cap, used, risk) == Min(1.0, room / risk);
    }
  }

  lemma {:induction false} ScaledReportsAll(p: Position, factor: real, basis: string)
    ensures Reports(Scaled(p, factor, basis), p, basis)
  {
  }

  lemma {:induction false} ScaledExactly(p: Position, cap: real, used: real, basis: string)
    requires ValidRisk(p, basis) && (basis == "actual" || basis == "planned")
    ensures
      var c := Scaled(p, Factor(cap, used, RiskOf(p, basis).value), basis);
      && Reports(c, p, basis) && RiskOn(p, basis) == RiskOf(p, basis).value >= 0.0
      && Fits(c.factor, RiskOn(p, basis), cap - used)
  {
    var risk := RiskOf(p, basis).value;
    FactorIsFit(cap, used, risk);
    ScaledReportsAll(p, Factor(cap, used, risk), basis);
  }

  lemma {:induction false} SweepAt(ordered: seq<Position>, cap: real, basis: string, k: nat)
    requires Sweep(ordered, cap, basis).Ok? && k < |ordered|
    ensures |Sweep(ordered, cap, basis).value| == |ordered| && ValidRisk(ordered[k], basis)
    ensures
      var capped := Sweep(ordered, cap, basis).value;
      capped[k] == Scaled(ordered[k],
                          Factor(cap, Taken(capped, k, basis, ordered[k].start), RiskOf(ordered[k], basis).value),
                          basis)
  {
    var capped := Sweep(ordered, cap, basis).value;
    SweepPrefix(ordered, k, cap, basis);
    SweepPrefix(ordered, k + 1, cap, basis);
    SweepStep(ordered, k, cap, basis, capped[..k]);
    assert capped[..k + 1][k] == capped[k];
    TakenIsOpen(capped, k, basis, ordered[k].start);
  }

  /**
   Every complete position, in order of start, is scaled to the part of its risk that still fits under the cap next to
   the scaled positions before it that are still open, and reports its amounts at just that scale.
   */
  lemma {:induction false} CappedExactly(positions: seq<Position>, cap: real, basis: string, k: nat)
    requires CappedPositions(positions, cap, basis).Ok? && k < |Ordered(positions)|
    ensures |CappedPositions(positions, cap, basis).value| == |Ordered(positions)|
    ensures
      var capped := CappedPositions(positions, cap, basis).value;
      var p := Ordered(positions)[k];
      && Reports(capped[k], p, basis)
      && RiskOn(p, basis) >= 0.0 && (basis == "planned" ==> p.planned.Some?)
      && Fits(capped[k].factor, RiskOn(p, basis), cap - Taken(capped, k, basis, p.start))
  {
    var ordered := Ordered(positions);
    var capped := CappedPositions(positions, cap, basis).value;
    SweepAt(ordered, cap, basis, k);
    ScaledExactly(ordered[k], cap, Taken(capped, k, basis, ordered[k].start), basis);
  }

  lemma {:induction false} SweepAccepts(ordered: seq<Position>, cap: real, basis: string)
    requires basis == "actual" || basis == "planned"
    ensures Sweep(ordered, cap, basis).Ok?
            <==> forall p :: p in ordered ==> RiskOn(p, basis) >= 0.0 && (basis == "planned" ==> p.planned.Some?)
  {
    if ordered != [] {
      SweepAccepts(Init(ordered), cap, basis);
      assert ordered == Init(ordered) + [Last(ordered)];
      assert ValidRisk(Last(ordered), basis)
          <==> RiskOn(Last(ordered), basis) >= 0.0 && (basis == "planned" ==> Last(ordered).planned.Some?);
    }
  }

  /** The cap is applied if and only if it is positive, its basis known, and no complete position lacks its risk. */
  lemma {:induction false} CapAcceptedExactlyWhen(positions: seq<Position>, cap: real, basis: string)
    ensures CappedPositions(positions, cap, basis).Ok?
            <==> && cap > 0.0 && (basis == "actual" || basis == "planned")
                 && forall p :: p in positions && p.complete ==>
                      RiskOn(p, basis) >= 0.0 && (basis == "planned" ==> p.planned.Some?)
  {
    OrderedIsInOrder(positions);
    if basis == "actual" || basis == "planned" {
      SweepAccepts(Ordered(positions), cap, basis);
    }
  }
}
