/** Rounding to ticks and steps: half away from zero for prices, towards zero for quantities. */
module Rounding {
  import opened Arithmetic

  /** Decimal's ROUND_HALF_UP to an integer: ties go away from zero. */
  function HalfUp(x: real): int {
    if x >= 0.0 then (x + 0.5).Floor else -(0.5 - x).Floor
  }

  /** Decimal's ROUND_DOWN to an integer: towards zero. */
  function Truncated(x: real): int {
    if x >= 0.0 then x.Floor else -(-x).Floor
  }

  /** Decimal's ROUND_CEILING to an integer. */
  function Ceiling(x: real): int {
    -(-x).Floor
  }

  function Times(x: real, size: real): real {
    x * size
  }

  function Ticks(n: int, size: real): real {
    Times(n as real, size)
  }

  function RoundPrice(value: real, tick: real): real
    requires tick > 0.0
  {
    Ticks(HalfUp(value / tick), tick)
  }

  function RoundDown(value: real, step: real): real
    requires step > 0.0
  {
    Ticks(Truncated(value / step), step)
  }

  lemma {:induction false} HalfUpIsMonotone(x: real, y: real)
    requires x <= y
    ensures HalfUp(x) <= HalfUp(y)
  {
  }

  /** The rounded value is a nearest integer, and a tie goes to the one further from zero. */
  lemma {:induction false} HalfUpIsNearest(x: real)
    ensures -0.5 <= HalfUp(x) as real - x <= 0.5
    ensures HalfUp(x) as real - x == -0.5 ==> x < 0.0
    ensures HalfUp(x) as real - x == 0.5 ==> x >= 0.0
  {
  }

  lemma {:induction false} QuotientIsMonotone(x: real, y: real, size: real)
    requires x <= y && size > 0.0
    ensures x / size <= y / size
  {
    DivTimes(y, size);
    DivAtMost(x, size, y / size);
  }

  lemma {:induction false} TicksAreMonotone(m: int, n: int, size: real)
    requires m <= n && size > 0.0
    ensures Ticks(m, size) <= Ticks(n, size)
  {
    MulMono(m as real, n as real, size);
  }

  lemma {:induction false} TicksDivide(n: int, size: real)
    requires size > 0.0
    ensures Ticks(n, size) / size == n as real
  {
    DivAtMost(Ticks(n, size), size, n as real);
  }

  lemma {:induction false} RoundPriceIsMonotone(x: real, y: real, tick: real)
    requires x <= y && tick > 0.0
    ensures RoundPrice(x, tick) <= RoundPrice(y, tick)
  {
    QuotientIsMonotone(x, y, tick);
    HalfUpIsMonotone(x / tick, y / tick);
    TicksAreMonotone(HalfUp(x / tick), HalfUp(y / tick), tick);
  }

  lemma {:induction false} HalfUpOfInteger(n: int)
    ensures HalfUp(n as real) == n && Truncated(n as real) == n
  {
  }

  lemma {:induction false} RoundPriceIsIdempotent(x: real, tick: real)
    requires tick > 0.0
    ensures RoundPrice(RoundPrice(x, tick), tick) == RoundPrice(x, tick)
  {
    var n := HalfUp(x / tick);
    TicksDivide(n, tick);
    HalfUpOfInteger(n);
  }

  lemma {:induction false} NearTicks(n: int, x: real, tick: real)
    requires tick > 0.0 && -0.5 <= n as real - x / tick <= 0.5
    ensures x - tick / 2.0 <= Ticks(n, tick) <= x + tick / 2.0
  {
    DivTimes(x, tick);
    NearProduct(n as real, x / tick, tick);
  }

  lemma {:induction false} NearProduct(n: real, q: real, size: real)
    requires size > 0.0 && -0.5 <= n - q <= 0.5
    ensures q * size - size / 2.0 <= Times(n, size) <= q * size + size / 2.0
  {
    Between(n, q - 0.5, q + 0.5, size);
    assert (q - 0.5) * size == q * size - size / 2.0;
    assert (q + 0.5) * size == q * size + size / 2.0;
  }

  lemma {:induction false} Between(n: real, lo: real, hi: real, size: real)
    requires size > 0.0 && lo <= n <= hi
    ensures lo * size <= Times(n, size) <= hi * size
  {
    MulMono(lo, n, size);
    MulMono(n, hi, size);
  }

  /** A rounded price is within half a tick of the value. */
  lemma {:induction false} RoundPriceIsNear(x: real, tick: real)
    requires tick > 0.0
    ensures x - tick / 2.0 <= RoundPrice(x, tick) <= x + tick / 2.0
  {
    HalfUpIsNearest(x / tick);
    NearTicks(HalfUp(x / tick), x, tick);
  }

  /** A nonnegative quantity never rounds up, and loses less than one step. */
  lemma {:induction false} RoundDownBounds(x: real, step: real)
    requires x >= 0.0 && step > 0.0
    ensures 0.0 <= RoundDown(x, step) <= x < RoundDown(x, step) + step
  {
    DivNonNegative(x, step);
    BelowTicks(Truncated(x / step), x, step);
  }

  lemma {:induction false} BelowTicks(n: int, x: real, step: real)
    requires step > 0.0 && 0 <= n && n as real <= x / step < n as real + 1.0
    ensures 0.0 <= Ticks(n, step) <= x < Ticks(n, step) + step
  {
    DivTimes(x, step);
    BelowProduct(n as real, x / step, step);
  }

  lemma {:induction false} BelowProduct(n: real, q: real, size: real)
    requires size > 0.0 && 0.0 <= n <= q < n + 1.0
    ensures 0.0 <= Times(n, size) <= q * size < Times(n, size) + size
  {
    Between(n, 0.0, q, size);
    OneMore(n, q, size);
  }

  lemma {:induction false} OneMore(n: real, q: real, size: real)
    requires size > 0.0 && q < n + 1.0
    ensures q * size < Times(n, size) + size
  {
    var rest := n + 1.0 - q;
    assert rest * size > 0.0;
    assert rest * size == n * size + size - q * size;
  }

  /** The largest multiple of the step that fits: any other one is no larger. */
  lemma {:induction false} RoundDownIsLargest(x: real, step: real, n: int)
    requires x >= 0.0 && step > 0.0 && Ticks(n, step) <= x
    ensures Ticks(n, step) <= RoundDown(x, step)
  {
    var q := x / step;
    DivAtMost(x, step, n as real);
    assert n as real <= q;
    DivNonNegative(x, step);
    assert n <= Truncated(q);
    TicksAreMonotone(n, Truncated(q), step);
  }

  lemma {:induction false} RoundDownIsMonotone(x: real, y: real, step: real)
    requires 0.0 <= x <= y && step > 0.0
    ensures RoundDown(x, step) <= RoundDown(y, step)
  {
    RoundDownBounds(x, step);
    RoundDownIsLargest(y, step, Truncated(x / step));
  }

  lemma {:induction false} RoundDownIsIdempotent(x: real, step: real)
    requires step > 0.0
    ensures RoundDown(RoundDown(x, step), step) == RoundDown(x, step)
  {
    TicksDivide(Truncated(x / step), step);
    HalfUpOfInteger(Truncated(x / step));
  }
}
