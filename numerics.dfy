/** Python's `min`/`max`/`abs`, numpy's `clip`, and the arithmetic facts the loops of the model share. */
module Numerics {

  function Min(a: real, b: real): (r: real)
    ensures r <= a && r <= b
    ensures r == a || r == b
  {
    if b < a then b else a
  }

  function Max(a: real, b: real): (r: real)
    ensures r >= a && r >= b
    ensures r == a || r == b
  {
    if b > a then b else a
  }

  function Abs(x: real): (r: real)
    ensures r >= 0.0
    ensures r == x || r == -x
  {
    if x < 0.0 then -x else x
  }

  /** numpy.clip(x, lo, hi) == minimum(maximum(x, lo), hi): the upper bound wins when lo > hi. */
  function Clip(x: real, lo: real, hi: real): (r: real)
    ensures r <= hi
    ensures lo <= hi ==> lo <= r
    ensures lo <= x <= hi ==> r == x
    ensures lo <= hi && x < lo ==> r == lo
    ensures x > hi ==> r == hi
  {
    Min(Max(x, lo), hi)
  }

  /** A loop measure `r/s` drops by exactly one when `r` drops by one step `s`. */
  lemma DivLessOne(r: real, s: real)
    requires s > 0.0
    ensures (r - s) / s == r / s - 1.0
  {
    assert s / s == 1.0;
    assert (r - s) / s == r / s - s / s;
  }

  /** Multiplying by a non-negative integer keeps the order. */
  lemma MulMonotone(a: int, b: int, c: int)
    requires a <= b && c >= 0
    ensures a * c <= b * c
  {
  }

  /** The look-ahead loops of the turbine units run while more than this many minutes remain. */
  const LoopTolerance: real := 0.000000000001

  /** One more than the number of sub-steps left, 0 once nothing remains. */
  function StepsLeft(remaining: real, stepMinutes: real): real
    requires stepMinutes > 0.0
  {
    if remaining > 0.0 then remaining / stepMinutes + 1.0 else 0.0
  }

  /** A sub-step of `min(step, remaining)` lowers the measure by at least one and keeps it non-negative. */
  lemma StepsLeftDrops(remaining: real, stepMinutes: real)
    requires stepMinutes > 0.0 && remaining > 0.0
    ensures 0.0 <= StepsLeft(remaining - Min(stepMinutes, remaining), stepMinutes)
    ensures StepsLeft(remaining - Min(stepMinutes, remaining), stepMinutes) <= StepsLeft(remaining, stepMinutes) - 1.0
  {
    if stepMinutes < remaining {
      DivLessOne(remaining, stepMinutes);
    } else {
      assert remaining / stepMinutes >= 0.0;
    }
  }

  /** The energy (MWh) of a constant power `mw` (MW) held for `minutes`. */
  function MwhOver(mw: real, minutes: real): real
  {
    mw * (minutes / 60.0)
  }

  /** The energy (MWh) of one trapezoid between the powers `p` and `q` (MW) over `dt` minutes. */
  function Trapezium(p: real, q: real, dt: real): real
  {
    (p + q) * 0.5 * (dt / 60.0)
  }

  /** A trapezoid under a constant power is a rectangle. */
  lemma TrapeziumConstant(p: real, dt: real)
    ensures Trapezium(p, p, dt) == MwhOver(p, dt)
  {
  }

  /** A non-negative power over a non-negative (non-positive) time gives a non-negative (non-positive) energy. */
  lemma MwhOverSign(mw: real, minutes: real)
    requires mw >= 0.0
    ensures minutes >= 0.0 ==> MwhOver(mw, minutes) >= 0.0
    ensures minutes <= 0.0 ==> MwhOver(mw, minutes) <= 0.0
  {
  }

  /** A trapezoid between two powers in `[lo, hi]` over `dt` minutes lies between `lo*dt/60` and `hi*dt/60`. */
  lemma TrapezoidBetween(p: real, q: real, lo: real, hi: real, dt: real)
    requires lo <= p <= hi && lo <= q <= hi && dt >= 0.0
    ensures MwhOver(lo, dt) <= Trapezium(p, q, dt) <= MwhOver(hi, dt)
  {
    var h := dt / 60.0;
    var m := (p + q) * 0.5;
    assert lo <= m <= hi;
    assert (m - lo) * h >= 0.0 && (hi - m) * h >= 0.0;
  }

  /** Energy at a constant power adds up over consecutive intervals. */
  lemma EnergySplit(c: real, dt: real, rest: real)
    ensures MwhOver(c, dt) + MwhOver(c, rest) == MwhOver(c, dt + rest)
  {
  }
}
