/** Physical entry slices: how they are validated, named and projected onto the logical legs. */
module EntrySlices {
  import opened Wrappers
  import opened Sequences
  import opened Arithmetic
  import opened Trading
  import opened PlanDomain
  import opened Planner

  datatype SliceError = SlicesNeedVersion2 | NotContiguous | IncompleteEvidence | QuantityLost | OutOfLegOrder

  // ----- validation as written

  function ChildrenFault(order: Order, children: seq<Slice>): Option<SliceError> {
    if !Contiguous(children) then Some(NotContiguous)
    else if !EvidenceComplete(order, children) then Some(IncompleteEvidence)
    else if Contributed(children) != order.quantity then Some(QuantityLost)
    else None
  }

  lemma {:induction false} FaultlessChildren(order: Order, children: seq<Slice>)
    ensures ChildrenFault(order, children).None? <==> ValidChildren(order, children)
  {
  }

  /** The loop over the legs, collecting their slices in leg order. */
  method ValidateEntrySlices(p: Plan) returns (fault: Option<SliceError>)
    ensures fault.None? <==> ValidSlices(p)
  {
    if p.slices == [] {
      return None;
    }
    if p.version != 2 {
      return Some(SlicesNeedVersion2);
    }
    var ordered: seq<Slice> := [];
    for k := 0 to |p.orders|
      invariant ordered == InLegOrder(p.orders[..k], p.slices)
      invariant forall i :: 0 <= i < k ==> ValidChildren(p.orders[i], Children(p.slices, p.orders[i].name))
    {
      var order := p.orders[k];
      var children := Children(p.slices, order.name);
      var found := ChildrenFault(order, children);
      FaultlessChildren(order, children);
      if found.Some? {
        assert order in p.orders;
        return found;
      }
      assert p.orders[..k + 1] == p.orders[..k] + [order];
      InitSnoc(p.orders[..k], order);
      ordered := ordered + children;
    }
    assert p.orders[..|p.orders|] == p.orders;
    if ordered != p.slices {
      return Some(OutOfLegOrder);
    }
    return None;
  }

  // ----- names

  function DigitChar(d: nat): (c: char)
    requires d < 10
    ensures '0' <= c <= '9'
  {
    '0' + d as char
  }

  function Digits(n: nat): (s: string)
    ensures |s| >= 1 && (|s| == 1 <==> n < 10)
  {
    if n < 10 then [DigitChar(n)] else Digits(n / 10) + [DigitChar(n % 10)]
  }

  function SliceName(s: Slice): string {
    if s.index == 0 then s.leg else s.leg + "c" + Digits(s.index)
  }

  lemma {:induction false} DigitsAreInjective(m: nat, n: nat)
    requires Digits(m) == Digits(n)
    ensures m == n
  {
    var s, t := Digits(m), Digits(n);
    assert s[|s| - 1] == DigitChar(m % 10) && t[|t| - 1] == DigitChar(n % 10);
    assert m % 10 == n % 10;
    if m >= 10 && n >= 10 {
      assert s[..|s| - 1] == Digits(m / 10) && t[..|t| - 1] == Digits(n / 10);
      DigitsAreInjective(m / 10, n / 10);
    }
  }

  /** Two slices of the three legs share a name only if they are the same leg and index. */
  lemma {:induction false} SliceNamesAreInjective(a: Slice, b: Slice)
    requires |a.leg| == 2 && |b.leg| == 2 && SliceName(a) == SliceName(b)
    ensures a.leg == b.leg && a.index == b.index
  {
    var s, t := SliceName(a), SliceName(b);
    assert s[..2] == a.leg && t[..2] == b.leg;
    if a.index != 0 && b.index != 0 {
      assert s[3..] == Digits(a.index) && t[3..] == Digits(b.index);
      DigitsAreInjective(a.index, b.index);
    }
  }

  // ----- the projection

  /** The leg of that name: the last one, as in a dictionary built from the legs. */
  function LegNamed(orders: seq<Order>, name: string): Option<Order> {
    if orders == [] then None
    else if Last(orders).name == name then Some(Last(orders))
    else LegNamed(Init(orders), name)
  }

  /** A slice as an order of its own: its leg with its name and quantity. */
  function Projected(orders: seq<Order>, s: Slice): Result<Order, SliceError> {
    var leg := LegNamed(orders, s.leg);
    if leg.None? then Err(OutOfLegOrder)
    else Ok(leg.value.(name := SliceName(s), quantity := s.quantity, riskPct := None))
  }

  function AllProjected(orders: seq<Order>, slices: seq<Slice>): Result<seq<Order>, SliceError> {
    if slices == [] then Ok([])
    else
      var first :- Projected(orders, slices[0]);
      var rest :- AllProjected(orders, slices[1..]);
      Ok([first] + rest)
  }

  function EntryOrders(p: Plan): Result<seq<Order>, SliceError> {
    if p.slices == [] then Ok(p.orders) else AllProjected(p.orders, p.slices)
  }

  // ----- the shape of validated slices

  /** The slices of the three legs, one leg after the other. */
  lemma {:induction false} ThreeBlocks(p: Plan)
    requires ValidLadder(p) && ValidSlices(p) && p.slices != []
    ensures p.slices == Children(p.slices, "E1") + Children(p.slices, "E2") + Children(p.slices, "E3")
    ensures ValidChildren(p.orders[0], Children(p.slices, "E1"))
    ensures ValidChildren(p.orders[1], Children(p.slices, "E2"))
    ensures ValidChildren(p.orders[2], Children(p.slices, "E3"))
  {
    var o := p.orders;
    assert o == [o[0]] + [o[1]] + [o[2]];
    InitSnoc([o[0]] + [o[1]], o[2]);
    InitSnoc([o[0]], o[1]);
    assert Init([o[0]]) == [];
    var a, b, c := Children(p.slices, "E1"), Children(p.slices, "E2"), Children(p.slices, "E3");
    assert InLegOrder([], p.slices) == [];
    assert InLegOrder([o[0]], p.slices) == [] + a;
    assert InLegOrder([o[0]] + [o[1]], p.slices) == ([] + a) + b;
    assert InLegOrder(o, p.slices) == ([] + a) + b + c;
    assert [] + a == a;
    assert o[0] in o && o[1] in o && o[2] in o;
  }

  lemma {:induction false} ChildrenAreOfTheLeg(slices: seq<Slice>, leg: string)
    ensures forall k :: 0 <= k < |Children(slices, leg)| ==>
        Children(slices, leg)[k].leg == leg && Children(slices, leg)[k] in slices
  {
    FilterElements(slices, (s: Slice) => s.leg == leg);
    forall k | 0 <= k < |Children(slices, leg)|
      ensures Children(slices, leg)[k].leg == leg && Children(slices, leg)[k] in slices
    {
      assert Children(slices, leg)[k] in Children(slices, leg);
    }
  }

  /** Positions within one leg carry different indexes. */
  lemma {:induction false} IndexesDiffer(children: seq<Slice>, i: nat, j: nat)
    requires Contiguous(children) && i < j < |children|
    ensures children[i].index != children[j].index
  {
  }

  ghost predicate Blocks(slices: seq<Slice>, a: seq<Slice>, b: seq<Slice>, c: seq<Slice>) {
    && slices == a + b + c
    && Contiguous(a) && Contiguous(b) && Contiguous(c)
    && (forall k :: 0 <= k < |a| ==> a[k].leg == "E1")
    && (forall k :: 0 <= k < |b| ==> b[k].leg == "E2")
    && (forall k :: 0 <= k < |c| ==> c[k].leg == "E3")
  }

  lemma {:induction false} SlicesAreBlocks(p: Plan)
    requires ValidLadder(p) && ValidSlices(p) && p.slices != []
    ensures Blocks(p.slices, Children(p.slices, "E1"), Children(p.slices, "E2"), Children(p.slices, "E3"))
  {
    ThreeBlocks(p);
    ChildrenAreOfTheLeg(p.slices, "E1");
    ChildrenAreOfTheLeg(p.slices, "E2");
    ChildrenAreOfTheLeg(p.slices, "E3");
  }

  lemma {:induction false} LegNamesDiffer()
    ensures "E1" != "E2" && "E1" != "E3" && "E2" != "E3"
  {
    assert "E1"[1] == '1' && "E2"[1] == '2' && "E3"[1] == '3';
  }

  function Rank(leg: string): nat {
    if leg == "E1" then 0 else if leg == "E2" then 1 else 2
  }

  /** Legs never step back, and two slices of one leg carry different indexes. */
  lemma {:induction false} BlocksInOrder(
    slices: seq<Slice>, a: seq<Slice>, b: seq<Slice>, c: seq<Slice>, i: nat, j: nat)
    requires Blocks(slices, a, b, c) && i < j < |slices|
    ensures Rank(slices[i].leg) <= Rank(slices[j].leg)
    ensures slices[i].leg == slices[j].leg ==> slices[i].index != slices[j].index
    ensures |slices[i].leg| == 2 && |slices[j].leg| == 2
  {
    LegNamesDiffer();
    var m, n := |a|, |a| + |b|;
    assert slices[i] == if i < m then a[i] else if i < n then b[i - m] else c[i - n];
    assert slices[j] == if j < m then a[j] else if j < n then b[j - m] else c[j - n];
    if j < m {
      IndexesDiffer(a, i, j);
    } else if m <= i && j < n {
      IndexesDiffer(b, i - m, j - m);
    } else if n <= i {
      IndexesDiffer(c, i - n, j - n);
    }
  }

  // ----- the projection of a validated plan

  lemma {:induction false} LegsAreNamed(p: Plan)
    requires ValidLadder(p)
    ensures LegNamed(p.orders, "E1") == Some(p.orders[0])
    ensures LegNamed(p.orders, "E2") == Some(p.orders[1])
    ensures LegNamed(p.orders, "E3") == Some(p.orders[2])
  {
    LegNamesDiffer();
    var o := p.orders;
    assert Init(o) == [o[0], o[1]] && Init(Init(o)) == [o[0]];
    assert LegNamed([o[0]], "E1") == Some(o[0]);
    assert LegNamed([o[0], o[1]], "E1") == LegNamed([o[0]], "E1");
    assert LegNamed([o[0], o[1]], "E2") == Some(o[1]);
  }

  lemma {:induction false} ProjectsAll(orders: seq<Order>, slices: seq<Slice>)
    requires forall k :: 0 <= k < |slices| ==> LegNamed(orders, slices[k].leg).Some?
    ensures AllProjected(orders, slices).Ok? && |AllProjected(orders, slices).value| == |slices|
    ensures forall k :: 0 <= k < |slices| ==> Projected(orders, slices[k]) == Ok(AllProjected(orders, slices).value[k])
  {
    if slices != [] {
      ProjectsAll(orders, slices[1..]);
      var rest := AllProjected(orders, slices[1..]).value;
      forall k | 0 <= k < |slices| ensures Projected(orders, slices[k]) == Ok(AllProjected(orders, slices).value[k]) {
        if k > 0 {
          assert slices[k] == slices[1..][k - 1];
        }
      }
    }
  }

  lemma {:induction false} EveryLegIsNamed(p: Plan)
    requires ValidLadder(p) && ValidSlices(p) && p.slices != []
    ensures forall k :: 0 <= k < |p.slices| ==> LegNamed(p.orders, p.slices[k].leg).Some?
  {
    SlicesAreBlocks(p);
    LegsAreNamed(p);
    var a, b, c := Children(p.slices, "E1"), Children(p.slices, "E2"), Children(p.slices, "E3");
    forall k | 0 <= k < |p.slices| ensures LegNamed(p.orders, p.slices[k].leg).Some? {
      assert p.slices[k] == if k < |a| then a[k] else if k < |a| + |b| then b[k - |a|] else c[k - |a| - |b|];
    }
  }

  /**
   The projection of an accepted plan never fails, keeps the slices' order, follows the legs, and gives
   every physical order a name of its own.
   */
  lemma {:induction false} EntryOrdersFollowLegs(p: Plan, i: nat, j: nat)
    requires ValidLadder(p) && ValidSlices(p) && p.slices != [] && i < j < |p.slices|
    ensures EntryOrders(p).Ok? && |EntryOrders(p).value| == |p.slices|
    ensures EntryOrders(p).value[i].name == SliceName(p.slices[i])
    ensures EntryOrders(p).value[i].quantity == p.slices[i].quantity
    ensures EntryOrders(p).value[i].name != EntryOrders(p).value[j].name
    ensures Rank(p.slices[i].leg) <= Rank(p.slices[j].leg)
  {
    EveryLegIsNamed(p);
    ProjectsAll(p.orders, p.slices);
    SlicesAreBlocks(p);
    BlocksInOrder(p.slices, Children(p.slices, "E1"), Children(p.slices, "E2"), Children(p.slices, "E3"), i, j);
    assert Projected(p.orders, p.slices[i]) == Ok(EntryOrders(p).value[i]);
    assert Projected(p.orders, p.slices[j]) == Ok(EntryOrders(p).value[j]);
    if SliceName(p.slices[i]) == SliceName(p.slices[j]) {
      SliceNamesAreInjective(p.slices[i], p.slices[j]);
    }
  }

  // ----- quantities and losses

  function Physical(children: seq<Slice>): real {
    Sum(children, (s: Slice) => s.quantity)
  }

  /** No slice was cut short: there is no fill evidence, or it is for the whole slice. */
  predicate Whole(s: Slice) {
    s.filled.None? || s.filled.value == s.quantity
  }

  /** What was requested is never less than what counts, and equal exactly when no slice was cut short. */
  lemma {:induction false} PhysicalCoversContributed(children: seq<Slice>)
    requires forall s :: s in children ==> ValidSlice(s)
    ensures Physical(children) >= Contributed(children)
    ensures Physical(children) == Contributed(children) <==> forall s :: s in children ==> Whole(s)
  {
    if children != [] {
      var first, rest := children[0], children[1..];
      assert children == [first] + rest;
      assert forall s :: s in rest ==> s in children;
      PhysicalCoversContributed(rest);
      assert first in children && ValidSlice(first);
      assert Contribution(first) <= first.quantity && (Contribution(first) == first.quantity <==> Whole(first));
      assert (forall s :: s in children ==> Whole(s)) <==> Whole(first) && forall s :: s in rest ==> Whole(s);
    }
  }

  function TotalLoss(orders: seq<Order>, stop: real): real {
    if orders == [] then 0.0 else LegLoss(orders[0], stop) + TotalLoss(orders[1..], stop)
  }

  predicate Named(orders: seq<Order>, slices: seq<Slice>) {
    forall k :: 0 <= k < |slices| ==> LegNamed(orders, slices[k].leg).Some?
  }

  lemma {:induction false} ProjectedConcat(orders: seq<Order>, a: seq<Slice>, b: seq<Slice>)
    requires Named(orders, a) && Named(orders, b)
    ensures AllProjected(orders, a).Ok? && AllProjected(orders, b).Ok? && AllProjected(orders, a + b).Ok?
    ensures AllProjected(orders, a + b).value == AllProjected(orders, a).value + AllProjected(orders, b).value
    ensures Named(orders, a + b)
  {
    ProjectsAll(orders, a);
    ProjectsAll(orders, b);
    ProjectsAll(orders, a + b);
    var x, y, z := AllProjected(orders, a).value, AllProjected(orders, b).value, AllProjected(orders, a + b).value;
    forall k | 0 <= k < |z| ensures z[k] == (x + y)[k] {
      assert Projected(orders, (a + b)[k]) == Ok(z[k]);
    }
  }

  /** The slices of one leg together lose what their physical quantity loses at the leg's price. */
  lemma {:induction false} LegSlicesLose(orders: seq<Order>, children: seq<Slice>, leg: Order, stop: real)
    requires forall k :: 0 <= k < |children| ==> LegNamed(orders, children[k].leg) == Some(leg)
    ensures AllProjected(orders, children).Ok?
    ensures ProjectedLoss(orders, children, stop) == Value(Physical(children), Abs(leg.reference - stop))
  {
    if children == [] {
      assert Value(0.0, Abs(leg.reference - stop)) == 0.0;
    } else {
      LegSlicesLose(orders, children[1..], leg, stop);
      var first := Projected(orders, children[0]).value;
      var rest := AllProjected(orders, children[1..]).value;
      assert AllProjected(orders, children).value == [first] + rest;
      assert ([first] + rest)[1..] == rest;
      assert LegLoss(first, stop) == Value(children[0].quantity, Abs(leg.reference - stop));
      assert Physical(children) == children[0].quantity + Physical(children[1..]);
      ValuesAdd(children[0].quantity, Physical(children[1..]), Abs(leg.reference - stop));
    }
  }

  lemma {:induction false} ValuesAdd(a: real, b: real, price: real)
    ensures Value(a + b, price) == Value(a, price) + Value(b, price)
  {
  }

  /** The projection's loss, leg by leg. */
  lemma {:induction false} ProjectionLoss(p: Plan)
    requires ValidLadder(p) && ValidSlices(p) && p.slices != []
    ensures EntryOrders(p).Ok?
    ensures TotalLoss(EntryOrders(p).value, p.stop)
         == Value(Physical(Children(p.slices, "E1")), Abs(p.orders[0].reference - p.stop))
          + Value(Physical(Children(p.slices, "E2")), Abs(p.orders[1].reference - p.stop))
          + Value(Physical(Children(p.slices, "E3")), Abs(p.orders[2].reference - p.stop))
  {
    SlicesAreBlocks(p);
    LegsAreNamed(p);
    BlocksLoss(p, Children(p.slices, "E1"), Children(p.slices, "E2"), Children(p.slices, "E3"));
  }

  /** What the projections of some slices lose. */
  function ProjectedLoss(orders: seq<Order>, slices: seq<Slice>, stop: real): real {
    if AllProjected(orders, slices).Ok? then TotalLoss(AllProjected(orders, slices).value, stop) else 0.0
  }

  lemma {:induction false} ProjectedLossConcat(orders: seq<Order>, a: seq<Slice>, b: seq<Slice>, stop: real)
    requires Named(orders, a) && Named(orders, b)
    ensures AllProjected(orders, a + b).Ok? && Named(orders, a + b)
    ensures ProjectedLoss(orders, a + b, stop) == ProjectedLoss(orders, a, stop) + ProjectedLoss(orders, b, stop)
  {
    ProjectedConcat(orders, a, b);
    LossConcat(AllProjected(orders, a).value, AllProjected(orders, b).value, stop);
  }

  lemma {:induction false} BlocksLoss(p: Plan, a: seq<Slice>, b: seq<Slice>, c: seq<Slice>)
    requires |p.orders| == 3
    requires forall k :: 0 <= k < |a| ==> LegNamed(p.orders, a[k].leg) == Some(p.orders[0])
    requires forall k :: 0 <= k < |b| ==> LegNamed(p.orders, b[k].leg) == Some(p.orders[1])
    requires forall k :: 0 <= k < |c| ==> LegNamed(p.orders, c[k].leg) == Some(p.orders[2])
    ensures AllProjected(p.orders, a + b + c).Ok?
    ensures ProjectedLoss(p.orders, a + b + c, p.stop)
         == Value(Physical(a), Abs(p.orders[0].reference - p.stop))
          + Value(Physical(b), Abs(p.orders[1].reference - p.stop))
          + Value(Physical(c), Abs(p.orders[2].reference - p.stop))
  {
    LegSlicesLose(p.orders, a, p.orders[0], p.stop);
    LegSlicesLose(p.orders, b, p.orders[1], p.stop);
    LegSlicesLose(p.orders, c, p.orders[2], p.stop);
    ProjectedLossConcat(p.orders, a, b, p.stop);
    ProjectedLossConcat(p.orders, a + b, c, p.stop);
  }

  lemma {:induction false} LossConcat(a: seq<Order>, b: seq<Order>, stop: real)
    ensures TotalLoss(a + b, stop) == TotalLoss(a, stop) + TotalLoss(b, stop)
  {
    if a == [] {
      assert a + b == b;
    } else {
      TailOfConcat(a, b);
      LossConcat(a[1..], b, stop);
    }
  }

  ghost predicate NeverCutShort(slices: seq<Slice>) {
    forall s :: s in slices ==> Whole(s)
  }

  lemma {:induction false} LegIsPreserved(p: Plan, order: Order)
    requires ValidFields(p) && ValidChildren(order, Children(p.slices, order.name))
    ensures Physical(Children(p.slices, order.name)) >= order.quantity
    ensures NeverCutShort(p.slices) ==> Physical(Children(p.slices, order.name)) == order.quantity
  {
    var children := Children(p.slices, order.name);
    FilterElements(p.slices, (s: Slice) => s.leg == order.name);
    PhysicalCoversContributed(children);
  }

  /**
   Without fill evidence, or with every slice filled whole, the projection preserves each leg's quantity
   and the total loss at the stop; with partial fills it never shows less than the logical legs do.
   */
  lemma {:induction false} ProjectionPreservesRisk(p: Plan)
    requires ValidPlan(p) && p.version == 2 && p.slices != []
    ensures EntryOrders(p).Ok?
    ensures forall k :: 0 <= k < 3 ==> Physical(Children(p.slices, p.orders[k].name)) >= p.orders[k].quantity
    ensures NeverCutShort(p.slices) ==>
      forall k :: 0 <= k < 3 ==> Physical(Children(p.slices, p.orders[k].name)) == p.orders[k].quantity
    ensures TotalLoss(EntryOrders(p).value, p.stop) >= LadderLoss(p.orders, p.stop)
    ensures NeverCutShort(p.slices) ==> TotalLoss(EntryOrders(p).value, p.stop) == LadderLoss(p.orders, p.stop)
  {
    ThreeBlocks(p);
    ProjectionLoss(p);
    LegIsPreserved(p, p.orders[0]);
    LegIsPreserved(p, p.orders[1]);
    LegIsPreserved(p, p.orders[2]);
    MoreLoses(p.orders[0].quantity, Physical(Children(p.slices, "E1")), Abs(p.orders[0].reference - p.stop));
    MoreLoses(p.orders[1].quantity, Physical(Children(p.slices, "E2")), Abs(p.orders[1].reference - p.stop));
    MoreLoses(p.orders[2].quantity, Physical(Children(p.slices, "E3")), Abs(p.orders[2].reference - p.stop));
  }

  lemma {:induction false} MoreLoses(qty: real, more: real, distance: real)
    requires qty <= more && distance >= 0.0
    ensures Value(qty, distance) <= Value(more, distance)
  {
    MulMono(qty, more, distance);
  }
}
