/**
 * Naive timestamps as `datetime`/`pandas.Timestamp` hold them: a day number and the wall-clock
 * fields down to microseconds. No time zone and no daylight saving: every day has 24 hours.
 */
module Clock {

  const MicrosPerSecond: int := 1_000_000
  const MicrosPerMinute: int := 60_000_000
  const MicrosPerHour: int := 3_600_000_000
  const MicrosPerDay: int := 86_400_000_000

  datatype DateTime = DateTime(day: int, hour: int, minute: int, second: int, micro: int) {

    /** The ranges `datetime` enforces on its fields. */
    predicate Valid()
    {
      0 <= hour < 24 && 0 <= minute < 60 && 0 <= second < 60 && 0 <= micro < 1_000_000
    }

    /** `ts.time()` as microseconds since midnight. */
    function TimeOfDay(): int
    {
      hour * MicrosPerHour + minute * MicrosPerMinute + second * MicrosPerSecond + micro
    }

    /** Microseconds since the start of day 0. */
    function Micros(): int
    {
      day * MicrosPerDay + TimeOfDay()
    }
  }

  /** `time(h, m, s)` as microseconds since midnight. */
  function TimeOf(h: int, m: int, s: int): int
  {
    h * MicrosPerHour + m * MicrosPerMinute + s * MicrosPerSecond
  }

  lemma TimeOfDayRange(d: DateTime)
    requires d.Valid()
    ensures 0 <= d.TimeOfDay() < MicrosPerDay
  {
  }

  /** The timestamp `t` microseconds after the start of day 0. */
  function FromMicros(t: int): (d: DateTime)
    ensures d.Valid()
    ensures d.Micros() == t
  {
    var inDay := t % MicrosPerDay;
    var inHour := inDay % MicrosPerHour;
    var inMinute := inHour % MicrosPerMinute;
    DateTime(t / MicrosPerDay, inDay / MicrosPerHour, inHour / MicrosPerMinute,
             inMinute / MicrosPerSecond, inMinute % MicrosPerSecond)
  }

  /** Two valid timestamps with the same instant are the same timestamp. */
  lemma MicrosInjective(a: DateTime, b: DateTime)
    requires a.Valid() && b.Valid() && a.Micros() == b.Micros()
    ensures a == b
  {
    TimeOfDayRange(a);
    TimeOfDayRange(b);
    assert a.day == b.day;
    assert a.hour == b.hour;
    assert a.minute == b.minute;
    assert a.second == b.second;
  }

  /** `ts + pd.Timedelta(...)`, the delta given in microseconds. */
  function AddMicros(d: DateTime, delta: int): (r: DateTime)
    ensures r.Valid()
    ensures r.Micros() == d.Micros() + delta
  {
    FromMicros(d.Micros() + delta)
  }
}
