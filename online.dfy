/**
 * The online driver's time arithmetic: aligning a wall-clock time to the next `dt_min` boundary, and the
 * tick loop that walks the day from its start to its end one real-time step at a time.
 */
module Online {
  import opened Numerics
  import opened Wrappers
  import opened Clock
  import DataLoader

  /** Python's `a // b`: the quotient rounded toward minus infinity (undefined for `b == 0`). */
  function FloorDiv(a: int, b: int): (q: int)
    requires b != 0
    ensures b > 0 ==> q * b <= a < q * b + b
    ensures b < 0 ==> q * b >= a > q * b + b
  {
    if b > 0 then a / b else (-a) / (-b)
  }

  /** The minute `align_to_next_5min` computes before its branch: one step past the step `minute` is in. */
  function NextStepMinute(minute: int, dtMin: int): int
    requires dtMin != 0
  {
    (FloorDiv(minute, dtMin) + 1) * dtMin
  }

  /** With a positive step, the step minute is the least multiple of the step strictly above `minute`. */
  lemma NextStepMinuteLeast(minute: int, dtMin: int)
    requires dtMin > 0
    ensures minute < NextStepMinute(minute, dtMin) <= minute + dtMin
    ensures NextStepMinute(minute, dtMin) % dtMin == 0
    ensures forall g :: minute < g && g % dtMin == 0 ==> NextStepMinute(minute, dtMin) <= g
  {
    var q := FloorDiv(minute, dtMin);
    forall g | minute < g && g % dtMin == 0
      ensures NextStepMinute(minute, dtMin) <= g
    {
      var qg := g / dtMin;
      assert g == qg * dtMin;
      assert q < qg by {
        if qg <= q {
          MulMonotone(qg, q, dtMin);
        }
      }
      MulMonotone(q + 1, qg, dtMin);
    }
    MultipleMod(q + 1, dtMin);
  }

  lemma MultipleMod(k: int, d: int)
    requires d > 0
    ensures (k * d) % d == 0
  {
    var a := k * d;
    var e := k - a / d;
    assert e * d == a % d by {
      assert a == (a / d) * d + a % d;
      assert e * d == k * d - (a / d) * d;
    }
    if e >= 1 {
      MulMonotone(1, e, d);
    } else if e <= -1 {
      MulMonotone(e, -1, d);
    }
  }

  /** Whether the alignment rolls over to the next hour. */
  predicate RollsOver(now: DateTime, dtMin: int)
    requires dtMin != 0
  {
    NextStepMinute(now.minute, dtMin) >= 60
  }

  /** The first instant of `now`'s hour, in microseconds. */
  function HourStart(now: DateTime): int
  {
    now.day * MicrosPerDay + now.hour * MicrosPerHour
  }

  /** `align_to_next_5min`: the step minute when it is below 60, else one hour after the top of the hour
      (the next hour at :00, on the next day after 23:00), with seconds and microseconds zeroed. A zero step divides by zero and a negative minute is rejected by `replace`; both are
      errors. */
  function AlignToNext(now: DateTime, dtMin: int): (r: Result<DateTime, string>)
    requires now.Valid()
    ensures dtMin > 0 ==> r.Ok?
    ensures r.Ok? ==> dtMin != 0 && r.value.Valid() && r.value.second == 0 && r.value.micro == 0
    ensures r.Ok? && dtMin != 0 && RollsOver(now, dtMin) ==>
      r.value.minute == 0 && r.value.Micros() == HourStart(now) + MicrosPerHour
    ensures r.Ok? && dtMin != 0 && !RollsOver(now, dtMin) ==>
      r.value.day == now.day && r.value.hour == now.hour && r.value.minute == NextStepMinute(now.minute, dtMin)
  {
    if dtMin == 0 then Err("integer division or modulo by zero")
    else
      var minute := NextStepMinute(now.minute, dtMin);
      assert minute == FloorDiv(now.minute, dtMin) * dtMin + dtMin;
      if minute >= 60 then
        Ok(if now.hour == 23 then DateTime(now.day + 1, 0, 0, 0, 0) else DateTime(now.day, now.hour + 1, 0, 0, 0))
      else if minute < 0 then Err("minute must be in 0..59")
      else Ok(DateTime(now.day, now.hour, minute, 0, 0))
  }

  /** A valid timestamp lies in its hour: its minute, second and microsecond stay below one hour. */
  lemma WithinHour(d: DateTime)
    requires d.Valid()
    ensures d.Micros() == HourStart(d) + d.minute * MicrosPerMinute + (d.second * MicrosPerSecond + d.micro)
    ensures 0 <= d.second * MicrosPerSecond + d.micro < MicrosPerMinute
    ensures HourStart(d) <= d.Micros() < HourStart(d) + MicrosPerHour
  {
  }

  /** With a positive step the result is strictly later than `now`, at most `dt_min` minutes later, and on the
      step grid of its hour. */
  lemma AlignIsNextStep(now: DateTime, dtMin: int)
    requires now.Valid() && dtMin > 0
    ensures var r := AlignToNext(now, dtMin).value;
      && now.Micros() < r.Micros() <= now.Micros() + dtMin * MicrosPerMinute
      && r.minute % dtMin == 0
  {
    var m := NextStepMinute(now.minute, dtMin);
    NextStepMinuteLeast(now.minute, dtMin);
    WithinHour(now);
    var d := dtMin * MicrosPerMinute;
    assert d == dtMin * MicrosPerMinute;
    var r := AlignToNext(now, dtMin).value;
    if m >= 60 {
      assert HourStart(now) + MicrosPerHour <= HourStart(now) + (now.minute + dtMin) * MicrosPerMinute;
      assert r.minute == 0;
    } else {
      assert r.minute == m;
      assert r.Micros() == HourStart(now) + m * MicrosPerMinute;
      assert (now.minute + 1) * MicrosPerMinute <= m * MicrosPerMinute <= (now.minute + dtMin) * MicrosPerMinute;
    }
  }

  /** The result is the earliest timestamp after `now` on the step grid: every later timestamp at a whole
      minute that is a multiple of `dt_min` is at or after it. */
  lemma AlignIsEarliest(now: DateTime, dtMin: int, g: DateTime)
    requires now.Valid() && dtMin > 0
    requires g.Valid() && g.second == 0 && g.micro == 0 && g.minute % dtMin == 0
    requires now.Micros() < g.Micros()
    ensures AlignToNext(now, dtMin).value.Micros() <= g.Micros()
  {
    WithinHour(now);
    WithinHour(g);
    NextStepMinuteLeast(now.minute, dtMin);
    var m := NextStepMinute(now.minute, dtMin);
    if HourStart(g) == HourStart(now) {
      assert now.minute < g.minute;
      assert m <= g.minute;
    } else if HourStart(g) < HourStart(now) {
      SameHourOrApart(g, now);
      assert false;
    } else {
      SameHourOrApart(now, g);
    }
  }

  /** Hour starts of two timestamps are equal or a whole hour apart. */
  lemma SameHourOrApart(a: DateTime, b: DateTime)
    requires HourStart(a) < HourStart(b)
    ensures HourStart(a) + MicrosPerHour <= HourStart(b)
  {
    assert HourStart(a) == (a.day * 24 + a.hour) * MicrosPerHour;
    assert HourStart(b) == (b.day * 24 + b.hour) * MicrosPerHour;
    MulMonotone(a.day * 24 + a.hour + 1, b.day * 24 + b.hour, MicrosPerHour);
  }

  /** With a negative step the step minute falls below the current one: negative exactly at the top of the
      hour, and otherwise in `[0, minute)`. */
  lemma NegativeStepMinute(minute: int, dtMin: int)
    requires 0 <= minute && dtMin < 0
    ensures minute == 0 ==> NextStepMinute(minute, dtMin) < 0
    ensures minute > 0 ==> 0 <= NextStepMinute(minute, dtMin) < minute
  {
    var q := FloorDiv(minute, dtMin);
    if minute == 0 {
      assert q == 0;
    } else {
      assert q <= -1;
      MulMonotone(q + 1, 0, -dtMin);
      assert (q + 1) * dtMin == -((q + 1) * -dtMin);
    }
  }

  /** A zero step fails; a negative step aligns backward and fails at the top of the hour. */
  lemma AlignErrors(now: DateTime, dtMin: int)
    requires now.Valid()
    ensures AlignToNext(now, dtMin).Err? <==> dtMin == 0 || (dtMin < 0 && now.minute == 0)
  {
    if dtMin < 0 {
      NegativeStepMinute(now.minute, dtMin);
    }
  }

  // ---------------------------------------------------------------- the tick loop

  /** One call of the runner: the tick's timestamp and its online index. */
  datatype Tick = Tick(at: DateTime, onlineIndex: int)

  /** The tick loop of `main`: from `day_start`, one tick per `dt_minutes_rtu` while the time is not past
      `day_end`, the online index counting up from 0. The ticks are exactly the points of the
      `date_range(day_start, day_end, dt)` grid. */
  method RunTicks(dayStart: DateTime, dayEnd: DateTime, dtMinutesRtu: int) returns (ticks: seq<Tick>)
    requires dayStart.Valid() && dtMinutesRtu > 0
    ensures var grid := DataLoader.DateRange(dayStart.Micros(), dayEnd.Micros(), dtMinutesRtu * MicrosPerMinute);
      && |ticks| == |grid|
      && forall i :: 0 <= i < |ticks| ==> ticks[i] == Tick(grid[i], i)
  {
    var step := dtMinutesRtu * MicrosPerMinute;
    ghost var grid := DataLoader.DateRange(dayStart.Micros(), dayEnd.Micros(), step);
    var tNow := dayStart;
    var onlineIndex := 0;
    ticks := [];
    while tNow.Micros() <= dayEnd.Micros()
      invariant 0 <= onlineIndex <= |grid| && |ticks| == onlineIndex
      invariant tNow.Valid() && tNow.Micros() == dayStart.Micros() + onlineIndex * step
      invariant forall i :: 0 <= i < |ticks| ==> ticks[i] == Tick(grid[i], i)
      decreases dayEnd.Micros() - tNow.Micros()
    {
      if onlineIndex == |grid| {
        assert false;
      }
      MicrosInjective(tNow, grid[onlineIndex]);
      ticks := ticks + [Tick(tNow, onlineIndex)];
      assert (onlineIndex + 1) * step == onlineIndex * step + step;
      tNow := AddMicros(tNow, step);
      onlineIndex := onlineIndex + 1;
    }
    if onlineIndex < |grid| {
      assert false;
    }
  }
}
