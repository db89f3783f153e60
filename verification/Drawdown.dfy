/** The one-pass drawdown of a list of replay reports. */
module Drawdown {
  import opened Sequences
  import opened ReplayEngine

  /** The equity after the first `k` results, starting from nothing. */
  function Equity(results: seq<Report>, k: nat): real
    requires k <= |results|
  {
    if k == 0 then 0.0 else Equity(results, k - 1) + results[k - 1].netR
  }

  function Fall(results: seq<Report>, i: nat, j: nat): real
    requires i <= |results| && j <= |results|
  {
    Equity(results, i) - Equity(results, j)
  }

  /** `worst` is the deepest fall between an earlier and a later point of the curve. */
  ghost predicate DeepestFall(results: seq<Report>, worst: real) {
    && (forall i, j :: 0 <= i <= j <= |results| ==> Fall(results, i, j) <= worst)
    && (exists i, j :: 0 <= i <= j <= |results| && Fall(results, i, j) == worst)
  }

  /** The number is determined: two deepest falls of the same curve are equal. */
  lemma {:induction false} DeepestFallIsUnique(results: seq<Report>, a: real, b: real)
    requires DeepestFall(results, a) && DeepestFall(results, b)
    ensures a == b
  {
    var i, j :| 0 <= i <= j <= |results| && Fall(results, i, j) == a;
    var k, l :| 0 <= k <= l <= |results| && Fall(results, k, l) == b;
    assert Fall(results, i, j) <= b && Fall(results, k, l) <= a;
  }

  /**
   One pass over the results in order of their start finds the deepest fall over all pairs of
   points, the empty beginning included.
   */
  method MaxDrawdown(results: seq<Report>) returns (worst: real)
    ensures DeepestFall(StableSort(results, (r: Report) => r.start), worst)
    ensures worst >= 0.0
  {
    var ordered := StableSort(results, (r: Report) => r.start);
    var equity, peak := 0.0, 0.0;
    worst := 0.0;
    ghost var top := 0;
    ghost var low := (0, 0);
    assert Fall(ordered, 0, 0) == 0.0;
    for k := 0 to |ordered|
      invariant equity == Equity(ordered, k)
      invariant 0 <= top <= k && peak == Equity(ordered, top)
      invariant forall i :: 0 <= i <= k ==> Equity(ordered, i) <= peak
      invariant forall i, j :: 0 <= i <= j <= k ==> Fall(ordered, i, j) <= worst
      invariant 0 <= low.0 <= low.1 <= k && Fall(ordered, low.0, low.1) == worst
    {
      equity := equity + ordered[k].netR;
      if equity > peak {
        peak := equity;
        top := k + 1;
      }
      if peak - equity > worst {
        worst := peak - equity;
        low := (top, k + 1);
      }
      forall i, j | 0 <= i <= j <= k + 1 ensures Fall(ordered, i, j) <= worst {
        assert Equity(ordered, i) <= peak;
      }
    }
    assert Fall(ordered, 0, 0) <= worst;
  }
}
