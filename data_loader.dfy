/**
 * The time grid of the tracking controller: 15-minute day-ahead power becomes a block energy target, and
 * every sample of the 5-minute grid is mapped to its 15-minute block, its substep within the block, the
 * block's target, the (non-negative) solar forecast and, when present, the solar actual.
 */
module DataLoader {
  import opened Numerics
  import opened Wrappers
  import opened Clock

  /** Fifteen minutes in microseconds. */
  const BlockMicros: int := 15 * MicrosPerMinute

  // ---------------------------------------------------------------- flooring to a block

  /** `floor_to_15min`: keep date and hour, minute down to a multiple of 15, zero seconds and microseconds. */
  function FloorTo15(ts: DateTime): (r: DateTime)
    requires ts.Valid()
    ensures r.Valid() && r.day == ts.day && r.hour == ts.hour
    ensures r.minute % 15 == 0 && r.second == 0 && r.micro == 0
    ensures r.Micros() <= ts.Micros() < r.Micros() + BlockMicros
  {
    ts.(minute := (ts.minute / 15) * 15, second := 0, micro := 0)
  }

  /** Flooring a block start changes nothing. */
  lemma FloorTo15Idempotent(ts: DateTime)
    requires ts.Valid()
    ensures FloorTo15(FloorTo15(ts)) == FloorTo15(ts)
  {
    var m := (ts.minute / 15) * 15;
    assert m / 15 == ts.minute / 15;
  }

  /** Two timestamps in the same block floor alike: the block start is the only block boundary at or
      before the timestamp less than 15 minutes away. */
  lemma FloorTo15Unique(ts: DateTime, b: DateTime)
    requires ts.Valid() && b.Valid() && b.minute % 15 == 0 && b.second == 0 && b.micro == 0
    requires b.Micros() <= ts.Micros() < b.Micros() + BlockMicros
    ensures FloorTo15(ts) == b
  {
    var f := FloorTo15(ts);
    var kf := f.day * 96 + f.hour * 4 + f.minute / 15;
    var kb := b.day * 96 + b.hour * 4 + b.minute / 15;
    assert f.Micros() == kf * BlockMicros;
    assert b.Micros() == kb * BlockMicros;
    SameSlot(kf, kb, ts.Micros());
    MicrosInjective(f, b);
  }

  /** Two block boundaries within one block of the same instant, both at or before it, are the same. */
  lemma SameSlot(kf: int, kb: int, t: int)
    requires kf * BlockMicros <= t < kf * BlockMicros + BlockMicros
    requires kb * BlockMicros <= t < kb * BlockMicros + BlockMicros
    ensures kf == kb
  {
  }

  // ---------------------------------------------------------------- target energy

  datatype PowerRow = PowerRow(timestamp: DateTime, expectedPowerKw: real)
  datatype EnergyRow = EnergyRow(timestamp: DateTime, eTargetKwh: real)

  /** `to_target_energy_15min`: each block's energy is a quarter of an hour at its expected power. */
  function ToTargetEnergy(rows: seq<PowerRow>): (r: seq<EnergyRow>)
    ensures |r| == |rows|
    ensures forall i :: 0 <= i < |rows| ==>
      r[i].timestamp == rows[i].timestamp && r[i].eTargetKwh * 4.0 == rows[i].expectedPowerKw
  {
    seq(|rows|, i requires 0 <= i < |rows| => EnergyRow(rows[i].timestamp, rows[i].expectedPowerKw * 0.25))
  }

  /** Timestamps that strictly increase (what the readers' sort yields on distinct stamps). */
  predicate StrictlySorted(rows: seq<EnergyRow>)
  {
    forall i, j :: 0 <= i < j < |rows| ==> rows[i].timestamp.Micros() < rows[j].timestamp.Micros()
  }

  /** The energy of the last block at or before `t` (microseconds). */
  function LastAtOrBefore(rows: seq<EnergyRow>, t: int): (r: Option<real>)
    ensures r.None? <==> forall i :: 0 <= i < |rows| ==> rows[i].timestamp.Micros() > t
    ensures r.Some? ==> exists i :: 0 <= i < |rows| && rows[i].timestamp.Micros() <= t && rows[i].eTargetKwh == r.value
                                 && forall j :: i < j < |rows| ==> rows[j].timestamp.Micros() > t
  {
    if rows == [] then None
    else
      var n := |rows| - 1;
      if rows[n].timestamp.Micros() <= t then Some(rows[n].eTargetKwh)
      else
        var r := LastAtOrBefore(rows[..n], t);
        assert forall i :: 0 <= i < n ==> rows[..n][i] == rows[i];
        if r.Some? then
          var i :| 0 <= i < n && rows[..n][i].timestamp.Micros() <= t && rows[..n][i].eTargetKwh == r.value
                   && forall j :: i < j < n ==> rows[..n][j].timestamp.Micros() > t;
          assert rows[i].timestamp.Micros() <= t && rows[i].eTargetKwh == r.value;
          r
        else r
  }

  /** The block target after `asfreq("15min", method="pad")` and the left merge on block start: blocks off
      the regular 15-minute grid from the first to the last target row get none; the others take the last
      target at or before them. */
  function PaddedTarget(energy: seq<EnergyRow>, blockStart: DateTime): Option<real>
  {
    if energy == [] then None
    else
      var first := energy[0].timestamp.Micros();
      var last := energy[|energy| - 1].timestamp.Micros();
      var b := blockStart.Micros();
      if b < first || b > last || (b - first) % BlockMicros != 0 then None
      else LastAtOrBefore(energy, b)
  }

  /** A block that has its own target row takes that row's energy. */
  lemma PaddedTargetExact(energy: seq<EnergyRow>, k: int, blockStart: DateTime)
    requires StrictlySorted(energy) && 0 <= k < |energy|
    requires energy[k].timestamp.Micros() == blockStart.Micros()
    requires (blockStart.Micros() - energy[0].timestamp.Micros()) % BlockMicros == 0
    ensures PaddedTarget(energy, blockStart) == Some(energy[k].eTargetKwh)
  {
    var b := blockStart.Micros();
    var r := LastAtOrBefore(energy, b);
    var i :| 0 <= i < |energy| && energy[i].timestamp.Micros() <= b && energy[i].eTargetKwh == r.value
             && forall j :: i < j < |energy| ==> energy[j].timestamp.Micros() > b;
    assert i == k;
  }

  // ---------------------------------------------------------------- the 5-minute frame

  /** A row of a 5-minute series; `None` is a missing (NaN) value. */
  datatype SeriesRow = SeriesRow(timestamp: DateTime, value: Option<real>)

  /** Row `i` is the first row of the series at the instant of `ts`. */
  predicate FirstAt(rows: seq<SeriesRow>, ts: DateTime, i: int)
  {
    && 0 <= i < |rows| && rows[i].timestamp.Micros() == ts.Micros()
    && forall j :: 0 <= j < i ==> rows[j].timestamp.Micros() != ts.Micros()
  }

  /** No two rows of the series share an instant. */
  predicate DistinctStamps(rows: seq<SeriesRow>)
  {
    forall i, j :: 0 <= i < j < |rows| ==> rows[i].timestamp.Micros() != rows[j].timestamp.Micros()
  }

  /** The value the left merge on timestamp attaches: the first row at that instant, or none. */
  function Lookup(rows: seq<SeriesRow>, ts: DateTime): (r: Option<real>)
    ensures (forall i :: 0 <= i < |rows| ==> rows[i].timestamp.Micros() != ts.Micros()) ==> r.None?
    ensures r.Some? ==> exists i :: 0 <= i < |rows| && rows[i].timestamp.Micros() == ts.Micros() && rows[i].value == r
    ensures forall i :: FirstAt(rows, ts, i) ==> r == rows[i].value
  {
    if rows == [] then None
    else if rows[0].timestamp.Micros() == ts.Micros() then rows[0].value
    else
      var r := Lookup(rows[1..], ts);
      assert forall i :: FirstAt(rows, ts, i) ==> i > 0 && FirstAt(rows[1..], ts, i - 1) && rows[i] == rows[1..][i - 1] by {
        forall i | FirstAt(rows, ts, i) ensures i > 0 && FirstAt(rows[1..], ts, i - 1) && rows[i] == rows[1..][i - 1] {
          forall j | 0 <= j < i - 1 ensures rows[1..][j].timestamp.Micros() != ts.Micros() {
            assert rows[1..][j] == rows[j + 1];
          }
        }
      }
      if r.Some? then
        var i :| 0 <= i < |rows[1..]| && rows[1..][i].timestamp.Micros() == ts.Micros() && rows[1..][i].value == r;
        assert rows[i + 1] == rows[1..][i];
        r
      else r
  }

  /** A series with a row at an instant has a first row there. */
  lemma {:induction false} FirstAtExists(rows: seq<SeriesRow>, ts: DateTime, k: int)
    requires 0 <= k < |rows| && rows[k].timestamp.Micros() == ts.Micros()
    ensures exists i :: FirstAt(rows, ts, i) && i <= k
  {
    if rows[0].timestamp.Micros() == ts.Micros() {
      assert FirstAt(rows, ts, 0);
    } else {
      assert rows[1..][k - 1] == rows[k];
      FirstAtExists(rows[1..], ts, k - 1);
      var i :| FirstAt(rows[1..], ts, i) && i <= k - 1;
      forall j | 0 <= j < i + 1 ensures rows[j].timestamp.Micros() != ts.Micros() {
        if j > 0 { assert rows[j] == rows[1..][j - 1]; }
      }
      assert FirstAt(rows, ts, i + 1);
    }
  }

  /** In a series without repeated instants, the row at an instant is the first one there. */
  lemma DistinctStampsFirst(rows: seq<SeriesRow>, ts: DateTime, i: int)
    requires DistinctStamps(rows) && 0 <= i < |rows| && rows[i].timestamp.Micros() == ts.Micros()
    ensures FirstAt(rows, ts, i)
  {
  }

  /** One row of the tracking frame. */
  datatype TrackingRow = TrackingRow(
    timestamp: DateTime, blockStart: DateTime, blockEnd: DateTime, substepInBlock: int,
    eTargetKwh: Option<real>, solarForecastKw: real, solarActualKw: Option<real>, actualAvailable: bool)

  /** `offset.total_seconds() // (dt5_min * 60)`: the number of whole steps in a non-negative offset into
      the block (microseconds). */
  function SubstepIndex(offsetMicros: int, dt5Min: int): (k: int)
    requires offsetMicros >= 0 && dt5Min > 0
    ensures var step := dt5Min * MicrosPerMinute;
      0 <= k && k * step <= offsetMicros < (k + 1) * step
    ensures dt5Min == 5 && offsetMicros < BlockMicros ==> k in {0, 1, 2}
  {
    var step := dt5Min * MicrosPerMinute;
    FloorQuotient(offsetMicros, step);
    FiveMinuteSubsteps(offsetMicros, dt5Min);
    offsetMicros / step
  }

  /** On the 5-minute grid an offset inside a block is 0, 1 or 2 whole steps. */
  lemma FiveMinuteSubsteps(offsetMicros: int, dt5Min: int)
    requires offsetMicros >= 0 && dt5Min > 0
    ensures dt5Min == 5 && offsetMicros < BlockMicros ==> offsetMicros / (dt5Min * MicrosPerMinute) in {0, 1, 2}
  {
    if dt5Min == 5 && offsetMicros < BlockMicros {
      assert dt5Min * MicrosPerMinute == 300_000_000;
    }
  }

  /** The row for one grid timestamp. */
  function TrackingRowAt(ts: DateTime, energy: seq<EnergyRow>, forecast: seq<SeriesRow>,
                         actual: Option<seq<SeriesRow>>, dt5Min: int): TrackingRow
    requires ts.Valid() && dt5Min > 0
  {
    var blockStart := FloorTo15(ts);
    var actualKw := if actual.Some? then Lookup(actual.value, ts) else None;
    TrackingRow(ts, blockStart, AddMicros(blockStart, BlockMicros),
                SubstepIndex(ts.Micros() - blockStart.Micros(), dt5Min),
                PaddedTarget(energy, blockStart),
                Max(0.0, Lookup(forecast, ts).GetOr(0.0)),
                actualKw, actualKw.Some?)
  }

  /** The earliest timestamp of a series, in microseconds. */
  function MinMicros(rows: seq<SeriesRow>): (r: int)
    requires rows != []
    ensures forall i :: 0 <= i < |rows| ==> r <= rows[i].timestamp.Micros()
    ensures exists i :: 0 <= i < |rows| && r == rows[i].timestamp.Micros()
  {
    if |rows| == 1 then rows[0].timestamp.Micros()
    else
      var m := MinMicros(rows[1..]);
      assert forall i :: 1 <= i < |rows| ==> rows[i] == rows[1..][i - 1];
      if rows[0].timestamp.Micros() <= m then rows[0].timestamp.Micros() else m
  }

  /** The latest timestamp of a series, in microseconds. */
  function MaxMicros(rows: seq<SeriesRow>): (r: int)
    requires rows != []
    ensures forall i :: 0 <= i < |rows| ==> r >= rows[i].timestamp.Micros()
    ensures exists i :: 0 <= i < |rows| && r == rows[i].timestamp.Micros()
  {
    if |rows| == 1 then rows[0].timestamp.Micros()
    else
      var m := MaxMicros(rows[1..]);
      assert forall i :: 1 <= i < |rows| ==> rows[i] == rows[1..][i - 1];
      if rows[0].timestamp.Micros() >= m then rows[0].timestamp.Micros() else m
  }

  /** The number of points of `date_range(start, end, step)`. */
  function GridCount(start: int, end: int, step: int): (n: nat)
    requires step > 0
    ensures n > 0 ==> start + (n - 1) * step <= end < start + n * step
    ensures n == 0 <==> end < start
  {
    if end < start then 0 else (end - start) / step + 1
  }

  /** `build_tracking_frame`: the `dt5_min` grid from the first to the last forecast timestamp, each point
      mapped to its block, substep, target, forecast and actual. An empty forecast has no range and fails. */
  function BuildTrackingFrame(power: seq<PowerRow>, forecast: seq<SeriesRow>, actual: Option<seq<SeriesRow>>,
                              dt5Min: int): Result<seq<TrackingRow>, string>
    requires dt5Min > 0
  {
    if forecast == [] then Err("empty forecast has no time range")
    else
      var stamps := DateRange(MinMicros(forecast), MaxMicros(forecast), dt5Min * MicrosPerMinute);
      var energy := ToTargetEnergy(power);
      Ok(seq(|stamps|, k requires 0 <= k < |stamps| => TrackingRowAt(stamps[k], energy, forecast, actual, dt5Min)))
  }

  /** `pd.date_range(start, end, freq=step)` (microseconds): every step from the start up to the end. */
  function DateRange(start: int, end: int, step: int): (r: seq<DateTime>)
    requires step > 0
    ensures |r| == GridCount(start, end, step)
    ensures forall k :: 0 <= k < |r| ==> r[k].Valid() && r[k].Micros() == start + k * step <= end
  {
    var n := GridCount(start, end, step);
    var r := seq(n, k requires 0 <= k < n => FromMicros(start + k * step));
    assert forall k :: 0 <= k < n ==> start + k * step <= end by {
      forall k | 0 <= k < n
        ensures start + k * step <= end
      {
        MulMonotone(k, n - 1, step);
      }
    }
    r
  }

  /** `q * step <= d < (q + 1) * step` for the floor quotient `q` of a non-negative `d`. */
  lemma FloorQuotient(d: int, step: int)
    requires d >= 0 && step > 0
    ensures (d / step) * step <= d < (d / step + 1) * step
  {
  }

  /** The grid: one row per `dt5_min` from the first forecast timestamp, none after the last. */
  lemma FrameGrid(power: seq<PowerRow>, forecast: seq<SeriesRow>, actual: Option<seq<SeriesRow>>, dt5Min: int)
    requires dt5Min > 0 && forecast != []
    ensures var r := BuildTrackingFrame(power, forecast, actual, dt5Min);
      var step := dt5Min * MicrosPerMinute;
      && r.Ok? && |r.value| >= 1
      && (forall k :: 0 <= k < |r.value| ==>
            r.value[k].timestamp.Micros() == MinMicros(forecast) + k * step <= MaxMicros(forecast))
      && MaxMicros(forecast) < MinMicros(forecast) + |r.value| * step
  {
  }

  /** Each row's block: its start is the timestamp floored to 15 minutes, its end 15 minutes later, and the
      substep counts whole `dt5_min` steps into the block: 0, 1 or 2 on the 5-minute grid. */
  lemma RowBlock(ts: DateTime, energy: seq<EnergyRow>, forecast: seq<SeriesRow>,
                 actual: Option<seq<SeriesRow>>, dt5Min: int)
    requires ts.Valid() && dt5Min > 0
    ensures var row := TrackingRowAt(ts, energy, forecast, actual, dt5Min);
      var step := dt5Min * MicrosPerMinute;
      && row.blockStart == FloorTo15(ts)
      && row.blockEnd.Micros() == row.blockStart.Micros() + BlockMicros
      && 0 <= row.substepInBlock
      && row.substepInBlock * step <= ts.Micros() - row.blockStart.Micros() < (row.substepInBlock + 1) * step
      && (dt5Min == 5 ==> row.substepInBlock in {0, 1, 2})
  {
  }

  /** The forecast column: a missing or negative forecast becomes 0, any other is kept. */
  lemma RowForecast(ts: DateTime, energy: seq<EnergyRow>, forecast: seq<SeriesRow>,
                    actual: Option<seq<SeriesRow>>, dt5Min: int)
    requires ts.Valid() && dt5Min > 0
    ensures var row := TrackingRowAt(ts, energy, forecast, actual, dt5Min);
      var v := Lookup(forecast, ts);
      && row.solarForecastKw >= 0.0
      && (v.None? || v.value < 0.0 ==> row.solarForecastKw == 0.0)
      && (v.Some? && v.value >= 0.0 ==> row.solarForecastKw == v.value)
      && (forall i :: FirstAt(forecast, ts, i) && forecast[i].value.Some? && forecast[i].value.value >= 0.0 ==>
            row.solarForecastKw == forecast[i].value.value)
  {
  }

  /** The availability flag is set exactly where an actual value was merged in, and never without an actual
      series. */
  lemma RowActual(ts: DateTime, energy: seq<EnergyRow>, forecast: seq<SeriesRow>,
                  actual: Option<seq<SeriesRow>>, dt5Min: int)
    requires ts.Valid() && dt5Min > 0
    ensures var row := TrackingRowAt(ts, energy, forecast, actual, dt5Min);
      && (actual.None? ==> !row.actualAvailable && row.solarActualKw.None?)
      && (actual.Some? ==> row.solarActualKw == Lookup(actual.value, ts))
      && (row.actualAvailable <==> row.solarActualKw.Some?)
      && (actual.Some? ==> forall i :: FirstAt(actual.value, ts, i) ==> row.solarActualKw == actual.value[i].value)
      && (actual.Some? ==>
            (row.actualAvailable <==> exists i :: FirstAt(actual.value, ts, i) && actual.value[i].value.Some?))
  {
    if actual.Some? {
      var r := Lookup(actual.value, ts);
      if r.Some? {
        var k :| 0 <= k < |actual.value| && actual.value[k].timestamp.Micros() == ts.Micros()
          && actual.value[k].value == r;
        FirstAtExists(actual.value, ts, k);
      }
    }
  }

  /** With no repeated instants in the actual series, the flag is set exactly where the series holds a value
      at that instant. */
  lemma RowActualDistinct(ts: DateTime, energy: seq<EnergyRow>, forecast: seq<SeriesRow>,
                          actual: seq<SeriesRow>, dt5Min: int)
    requires ts.Valid() && dt5Min > 0 && DistinctStamps(actual)
    ensures TrackingRowAt(ts, energy, forecast, Some(actual), dt5Min).actualAvailable <==>
      exists i :: 0 <= i < |actual| && actual[i].timestamp.Micros() == ts.Micros() && actual[i].value.Some?
  {
    RowActual(ts, energy, forecast, Some(actual), dt5Min);
    if i :| 0 <= i < |actual| && actual[i].timestamp.Micros() == ts.Micros() && actual[i].value.Some? {
      DistinctStampsFirst(actual, ts, i);
    }
  }
}
