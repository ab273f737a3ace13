/**
 * Feed-in-tariff revenue per metered interval under the three-period contract (clause 9.2): an interval is
 * placed in a period, a plan (periods 1 and 2) or a cap (period 3) energy is derived from the contract power,
 * and the revenue pays the delivered energy up to the plan or cap, less a penalty on any shortfall against
 * the plan.
 */
module ProfitCal {
  import opened Numerics
  import opened Wrappers
  import opened Clock

  const P1Start: int := TimeOf(9, 0, 0)
  const P1End: int := TimeOf(16, 0, 0)
  const P2aStart: int := TimeOf(18, 1, 0)
  const P2aEnd: int := TimeOf(23, 59, 59)
  const P2bStart: int := TimeOf(0, 0, 0)
  const P2bEnd: int := TimeOf(6, 0, 0)
  const P3aStart: int := TimeOf(6, 1, 0)
  const P3aEnd: int := TimeOf(9, 0, 0)
  const P3bStart: int := TimeOf(16, 1, 0)
  const P3bEnd: int := TimeOf(18, 0, 0)

  /** The interval starts at or after `a` and ends at or before `b` (times of day). */
  predicate Within(s: int, e: int, a: int, b: int) { s >= a && e <= b }

  /** `infer_period`: an interval over two dates is refused; otherwise period 1, 2 or 3 is the first whose
      window holds the interval, and an interval in none of them is refused. */
  function InferPeriod(start: DateTime, end: DateTime): Result<int, string>
  {
    if start.day != end.day then Err("Interval crosses midnight")
    else
      var s := start.TimeOfDay();
      var e := end.TimeOfDay();
      if Within(s, e, P1Start, P1End) then Ok(1)
      else if Within(s, e, P2aStart, P2aEnd) || Within(s, e, P2bStart, P2bEnd) then Ok(2)
      else if Within(s, e, P3aStart, P3aEnd) || Within(s, e, P3bStart, P3bEnd) then Ok(3)
      else Err("Interval does not fully lie within a defined Period window")
  }

  /** Which period an interval gets, and why: period 1 whenever it fits 09:00–16:00; period 2 when it fits
      18:01–23:59:59 or 00:00–06:00 but not period 1; period 3 when it fits 06:01–09:00 or 16:01–18:00 but
      neither earlier period; an error when the dates differ or it fits none. */
  lemma InferPeriodCases(start: DateTime, end: DateTime)
    ensures var r := InferPeriod(start, end);
      var s := start.TimeOfDay();
      var e := end.TimeOfDay();
      && (start.day != end.day ==> r.Err?)
      && (start.day == end.day ==>
          && (r == Ok(1) <==> Within(s, e, P1Start, P1End))
          && (r == Ok(2) <==> !Within(s, e, P1Start, P1End) &&
                                (Within(s, e, P2aStart, P2aEnd) || Within(s, e, P2bStart, P2bEnd)))
          && (r == Ok(3) <==> !Within(s, e, P1Start, P1End) &&
                                !(Within(s, e, P2aStart, P2aEnd) || Within(s, e, P2bStart, P2bEnd)) &&
                                (Within(s, e, P3aStart, P3aEnd) || Within(s, e, P3bStart, P3bEnd)))
          && (r.Err? <==> !Within(s, e, P1Start, P1End) &&
                          !(Within(s, e, P2aStart, P2aEnd) || Within(s, e, P2bStart, P2bEnd)) &&
                          !(Within(s, e, P3aStart, P3aEnd) || Within(s, e, P3bStart, P3bEnd))))
  {
  }

  /** For an interval that does not run backwards, both ends lie inside the closed window of the inferred
      period. */
  lemma InferPeriodBothEndsInside(start: DateTime, end: DateTime)
    requires start.TimeOfDay() <= end.TimeOfDay() && InferPeriod(start, end).Ok?
    ensures var s := start.TimeOfDay();
      var e := end.TimeOfDay();
      match InferPeriod(start, end).value
      case 1 => P1Start <= s <= e <= P1End
      case 2 => P2aStart <= s <= e <= P2aEnd || P2bStart <= s <= e <= P2bEnd
      case _ => P3aStart <= s <= e <= P3aEnd || P3bStart <= s <= e <= P3bEnd
  {
  }

  // ---------------------------------------------------------------- one interval

  /** The arguments of `calculate_interval_revenue`. */
  datatype RevenueRequest = RevenueRequest(
    start: DateTime, end: DateTime, actualEnergyKwh: Option<real>, fitRatePerKwh: real, contractPowerKw: real,
    egatPlanEnergyKwh: Option<real>, egatOrderFactorP2: Option<real>, period3CapFactor: real,
    penaltyRate: real, allowNegativePenalty: bool, is1801To1815: bool, meterKwh15m: Option<real>,
    periodHint: Option<int>)

  datatype RevenueResult = RevenueResult(
    revenue: real, payableEnergyKwh: real, penaltyEnergyKwh: real, penaltyValue: real,
    planEnergyKwh: real, capEnergyKwh: real, period: int)

  /** `(end - start).total_seconds() / 3600`. */
  function DurationHours(start: DateTime, end: DateTime): real
  {
    (end.Micros() - start.Micros()) as real / MicrosPerHour as real
  }

  /** The period-2 order factor: 0.6 when none is given, else the given factor clipped to `[0, 0.6]`. */
  function OrderFactor(factor: Option<real>): (r: real)
    ensures 0.0 <= r <= 0.6
    ensures factor.Some? && 0.0 <= factor.value <= 0.6 ==> r == factor.value
  {
    if factor.None? then 0.6 else Min(Max(factor.value, 0.0), 0.6)
  }

  /** The delivered energy: the given one, or in the 18:01–18:15 case the 15-minute meter read at 14/15; a
      missing energy is an error. */
  function ActualEnergy(q: RevenueRequest): Result<real, string>
  {
    if q.is1801To1815 && q.meterKwh15m.None? && q.actualEnergyKwh.None? then
      Err("For 18:01-18:15, provide meter_kwh_15m or actual_energy_kwh")
    else if q.is1801To1815 && q.meterKwh15m.Some? && q.actualEnergyKwh.None? then
      Ok(q.meterKwh15m.value * (14.0 / 15.0))
    else if q.actualEnergyKwh.None? then Err("actual_energy_kwh is required")
    else Ok(q.actualEnergyKwh.value)
  }

  /** The plan energy before flooring: in periods 1 and 2 the given plan, else the whole contract (period 1)
      or the ordered share of it (period 2); in any other period the cap share of the contract. */
  function PlanEnergy(q: RevenueRequest, period: int, hours: real): real
  {
    var contractCap := q.contractPowerKw * hours;
    if period == 1 || period == 2 then
      if q.egatPlanEnergyKwh.Some? then q.egatPlanEnergyKwh.value
      else if period == 1 then contractCap
      else q.contractPowerKw * OrderFactor(q.egatOrderFactorP2) * hours
    else q.period3CapFactor * contractCap
  }

  /** The period used: the hint when one is given (any integer), else the inferred one. */
  function PeriodOf(q: RevenueRequest): Result<int, string>
  {
    if q.periodHint.Some? then Ok(q.periodHint.value) else InferPeriod(q.start, q.end)
  }

  /** `calculate_interval_revenue`. */
  function CalculateIntervalRevenue(q: RevenueRequest): Result<RevenueResult, string>
  {
    var period :- PeriodOf(q);
    var hours := DurationHours(q.start, q.end);
    if hours <= 0.0 then Err("Interval duration must be positive.")
    else
      var actualEnergy :- ActualEnergy(q);
      var planEnergy := PlanEnergy(q, period, hours);
      var actual := Max(0.0, actualEnergy);
      var plan := Max(0.0, planEnergy);
      var cap := Max(0.0, planEnergy);
      var fit := q.fitRatePerKwh;
      if period == 1 || period == 2 then
        if actual >= plan then
          Ok(RevenueResult(fit * plan, plan, 0.0, 0.0, plan, cap, period))
        else
          var penaltyEnergy := plan - actual;
          var penaltyValue := q.penaltyRate * fit * penaltyEnergy;
          var revenue := fit * actual - penaltyValue;
          Ok(RevenueResult(if q.allowNegativePenalty then revenue else Max(revenue, 0.0),
                           actual, penaltyEnergy, penaltyValue, plan, cap, period))
      else
        var payable := Min(actual, cap);
        Ok(RevenueResult(fit * payable, payable, 0.0, 0.0, plan, cap, period))
  }

  /** The failures, in the order they are raised: period inference (only without a hint), a non-positive
      duration, then a missing delivered energy. */
  lemma RevenueErrors(q: RevenueRequest)
    ensures var r := CalculateIntervalRevenue(q);
      var inferred := InferPeriod(q.start, q.end);
      && (q.periodHint.None? && inferred.Err? ==> r == Err(inferred.error))
      && (r.Err? <==>
            || (q.periodHint.None? && inferred.Err?)
            || DurationHours(q.start, q.end) <= 0.0
            || (q.actualEnergyKwh.None? && !(q.is1801To1815 && q.meterKwh15m.Some?)))
  {
  }

  /** In the 18:01–18:15 case a lone meter read counts as 14/15 of it delivered. */
  lemma MeterReadAdjusted(q: RevenueRequest)
    requires q.is1801To1815 && q.actualEnergyKwh.None? && q.meterKwh15m.Some?
    ensures CalculateIntervalRevenue(q)
      == CalculateIntervalRevenue(q.(actualEnergyKwh := Some(q.meterKwh15m.value * 14.0 / 15.0)))
  {
    var q' := q.(actualEnergyKwh := Some(q.meterKwh15m.value * 14.0 / 15.0));
    assert ActualEnergy(q) == ActualEnergy(q');
    assert PeriodOf(q) == PeriodOf(q');
    if PeriodOf(q).Ok? {
      var period := PeriodOf(q).value;
      var hours := DurationHours(q.start, q.end);
      assert PlanEnergy(q, period, hours) == PlanEnergy(q', period, hours);
      assert CalculateIntervalRevenue(q).Ok? == CalculateIntervalRevenue(q').Ok?;
      if CalculateIntervalRevenue(q).Ok? {
        assert CalculateIntervalRevenue(q).value == CalculateIntervalRevenue(q').value;
      }
    }
  }

  /** The plan and cap reported: floored at 0; in periods 1 and 2 the explicit plan when given, else the
      contract energy (period 1) or the contract energy times the order factor clipped to `[0, 0.6]`
      (period 2); in period 3 the cap factor times the contract energy. Plan and cap are always equal. */
  lemma PlanAndCap(q: RevenueRequest)
    requires CalculateIntervalRevenue(q).Ok?
    ensures var r := CalculateIntervalRevenue(q).value;
      var hours := DurationHours(q.start, q.end);
      && r.planEnergyKwh == r.capEnergyKwh >= 0.0
      && (r.period in {1, 2} && q.egatPlanEnergyKwh.Some? ==> r.planEnergyKwh == Max(0.0, q.egatPlanEnergyKwh.value))
      && (r.period == 1 && q.egatPlanEnergyKwh.None? ==> r.planEnergyKwh == Max(0.0, q.contractPowerKw * hours))
      && (r.period == 2 && q.egatPlanEnergyKwh.None? ==>
            r.planEnergyKwh == Max(0.0, q.contractPowerKw * Clip(q.egatOrderFactorP2.GetOr(0.6), 0.0, 0.6) * hours))
      && (r.period !in {1, 2} ==> r.planEnergyKwh == Max(0.0, q.period3CapFactor * (q.contractPowerKw * hours)))
  {
  }

  /** Periods 1 and 2: meeting the plan pays the plan at the tariff with no penalty; falling short pays the
      delivered energy less `rate * fit` on the shortfall, floored at 0 unless negative revenue is allowed.
      Period 3: the delivered energy up to the cap, no penalty. */
  lemma RevenueRules(q: RevenueRequest)
    requires CalculateIntervalRevenue(q).Ok?
    ensures var r := CalculateIntervalRevenue(q).value;
      var actual := Max(0.0, ActualEnergy(q).value);
      var plan := r.planEnergyKwh;
      var fit := q.fitRatePerKwh;
      && (r.period in {1, 2} && actual >= plan ==>
            r.payableEnergyKwh == plan && r.penaltyValue == 0.0 && r.revenue == fit * plan)
      && (r.period in {1, 2} && actual < plan ==>
            && r.payableEnergyKwh == actual
            && r.penaltyEnergyKwh == plan - actual
            && r.penaltyValue == q.penaltyRate * fit * (plan - actual)
            && (q.allowNegativePenalty ==> r.revenue == fit * actual - r.penaltyValue)
            && (!q.allowNegativePenalty ==> r.revenue == Max(fit * actual - r.penaltyValue, 0.0)))
      && (r.period !in {1, 2} ==>
            r.payableEnergyKwh == Min(actual, r.capEnergyKwh) && r.penaltyValue == 0.0 && r.revenue == fit * r.payableEnergyKwh)
  {
  }

  /** Nothing above the plan or cap is paid, and with a non-negative tariff and no negative revenue allowed
      the revenue is never negative. */
  lemma RevenueBounds(q: RevenueRequest)
    requires CalculateIntervalRevenue(q).Ok?
    ensures var r := CalculateIntervalRevenue(q).value;
      && 0.0 <= r.payableEnergyKwh <= r.capEnergyKwh
      && (q.fitRatePerKwh >= 0.0 && !q.allowNegativePenalty ==> r.revenue >= 0.0)
  {
    var r := CalculateIntervalRevenue(q).value;
    if q.fitRatePerKwh >= 0.0 && !q.allowNegativePenalty && !(r.period in {1, 2}) {
      assert r.revenue == q.fitRatePerKwh * r.payableEnergyKwh;
    }
  }

  /** With negative revenue allowed, a shortfall can cost more than it earns: nothing delivered against a
      one-hour 100 kW period-1 plan at tariff 1 earns -12. */
  lemma NegativeRevenueAllowed(day: int)
    ensures var q := RevenueRequest(DateTime(day, 10, 0, 0, 0), DateTime(day, 11, 0, 0, 0), Some(0.0), 1.0, 100.0,
                                   None, None, 1.0, 0.12, true, false, None, None);
      var r := CalculateIntervalRevenue(q);
      r.Ok? && r.value.period == 1 && r.value.planEnergyKwh == 100.0 && r.value.revenue == -12.0
  {
    var q := RevenueRequest(DateTime(day, 10, 0, 0, 0), DateTime(day, 11, 0, 0, 0), Some(0.0), 1.0, 100.0,
                            None, None, 1.0, 0.12, true, false, None, None);
    assert InferPeriod(q.start, q.end) == Ok(1);
    assert DurationHours(q.start, q.end) == 1.0;
  }

  // ---------------------------------------------------------------- the table

  /** One table row: the per-row columns of `calculate_revenue_dataframe` (a missing cell is `None`). */
  datatype RevenueRow = RevenueRow(
    start: DateTime, end: DateTime, actualKwh: Option<real>, period: Option<int>, egatPlanKwh: Option<real>,
    egatOrderFactorP2: Option<real>, is1801To1815: bool, meterKwh15m: Option<real>)

  /** The settings shared by every row. */
  datatype TableSettings = TableSettings(
    fitRatePerKwh: real, contractPowerKw: real, period3CapFactor: real, penaltyRate: real,
    allowNegativePenalty: bool)

  /** The request a row makes. */
  function RowRequest(row: RevenueRow, st: TableSettings): RevenueRequest
  {
    RevenueRequest(row.start, row.end, row.actualKwh, st.fitRatePerKwh, st.contractPowerKw, row.egatPlanKwh,
                   row.egatOrderFactorP2, st.period3CapFactor, st.penaltyRate, st.allowNegativePenalty,
                   row.is1801To1815, row.meterKwh15m, row.period)
  }

  /** The sum of the revenue column. */
  function TotalRevenue(results: seq<RevenueResult>): real
  {
    if results == [] then 0.0 else TotalRevenue(results[..|results| - 1]) + results[|results| - 1].revenue
  }

  /** The first row (if any) whose interval fails the period check. */
  predicate FirstBadInterval(rows: seq<RevenueRow>, k: int)
  {
    && 0 <= k < |rows| && InferPeriod(rows[k].start, rows[k].end).Err?
    && forall j :: 0 <= j < k ==> InferPeriod(rows[j].start, rows[j].end).Ok?
  }

  /** The first row (if any) whose revenue computation fails. */
  predicate FirstBadRevenue(rows: seq<RevenueRow>, st: TableSettings, k: int)
  {
    && 0 <= k < |rows| && CalculateIntervalRevenue(RowRequest(rows[k], st)).Err?
    && forall j :: 0 <= j < k ==> CalculateIntervalRevenue(RowRequest(rows[j], st)).Ok?
  }

  /** `calculate_revenue_dataframe`: every interval is first checked against the period windows (even rows
      with a given period), then each row's revenue is computed into the result column, and the column is
      summed. */
  method CalculateRevenueDataframe(rows: seq<RevenueRow>, st: TableSettings)
    returns (r: Result<seq<RevenueResult>, string>, total: real)
    ensures (exists k :: FirstBadInterval(rows, k)) ==> r.Err?
    ensures forall k :: FirstBadInterval(rows, k) ==> r == Err(InferPeriod(rows[k].start, rows[k].end).error)
    ensures (forall i :: 0 <= i < |rows| ==> InferPeriod(rows[i].start, rows[i].end).Ok?) ==>
      forall k :: FirstBadRevenue(rows, st, k) ==> r == Err(CalculateIntervalRevenue(RowRequest(rows[k], st)).error)
    ensures r.Ok? <==>
      && (forall i :: 0 <= i < |rows| ==> InferPeriod(rows[i].start, rows[i].end).Ok?)
      && (forall i :: 0 <= i < |rows| ==> CalculateIntervalRevenue(RowRequest(rows[i], st)).Ok?)
    ensures r.Ok? ==>
      && |r.value| == |rows|
      && (forall i :: 0 <= i < |rows| ==> r.value[i] == CalculateIntervalRevenue(RowRequest(rows[i], st)).value)
      && total == TotalRevenue(r.value)
  {
    total := 0.0;
    var i := 0;
    while i < |rows|
      invariant 0 <= i <= |rows|
      invariant forall j :: 0 <= j < i ==> InferPeriod(rows[j].start, rows[j].end).Ok?
    {
      var checked := InferPeriod(rows[i].start, rows[i].end);
      if checked.Err? {
        assert FirstBadInterval(rows, i);
        forall k | FirstBadInterval(rows, k)
          ensures k == i
        {
          if k < i {
            assert false;
          } else if k > i {
            assert false;
          }
        }
        return Err(checked.error), total;
      }
      i := i + 1;
    }
    var results: seq<RevenueResult> := [];
    i := 0;
    while i < |rows|
      invariant 0 <= i <= |rows|
      invariant |results| == i
      invariant forall j :: 0 <= j < i ==> CalculateIntervalRevenue(RowRequest(rows[j], st)).Ok?
      invariant forall j :: 0 <= j < i ==> results[j] == CalculateIntervalRevenue(RowRequest(rows[j], st)).value
    {
      var res := CalculateIntervalRevenue(RowRequest(rows[i], st));
      if res.Err? {
        assert FirstBadRevenue(rows, st, i);
        forall k | FirstBadRevenue(rows, st, k)
          ensures k == i
        {
          if k < i {
            assert false;
          } else if k > i {
            assert false;
          }
        }
        return Err(res.error), total;
      }
      results := results + [res.value];
      i := i + 1;
    }
    i := 0;
    while i < |results|
      invariant 0 <= i <= |results|
      invariant total == TotalRevenue(results[..i])
    {
      assert results[..i + 1][..i] == results[..i];
      total := total + results[i].revenue;
      i := i + 1;
    }
    assert results[..|results|] == results;
    return Ok(results), total;
  }
}
