/**
 * Feed-in-tariff revenue per 15-minute block whose start is aligned to :00/:15/:30/:45: the block's start
 * time picks one of three tariff windows (and the 14/15 adjustment), the window picks the base energy, and the
 * base caps the payment and sets the 12% shortfall penalty.
 */
module Objective {
  import opened Numerics
  import opened Wrappers
  import opened Clock

  /** The energy factor of the adjusted boundary block. */
  const AdjustFactor: real := 14.0 / 15.0
  /** The shortfall penalty, a share of the tariff. */
  const PenaltyRate: real := 0.12

  /** The window a block belongs to and whether its energy is adjusted by 14/15. */
  datatype Window = Window(id: int, adjusted: bool)

  /** `detect_time_window_for_aligned_blocks`: window 1 is 09:00–16:00 (tested first, adjusted at 16:00),
      window 2 is 00:00–06:00 and 18:01–23:59:59, window 3 is 06:15–09:00 and 16:15–18:00; any other time of
      day is an error. The window-2 flag compares with 18:00, which window 2 does not contain, so it is never
      set. */
  function DetectTimeWindow(ts: DateTime): (r: Result<Window, string>)
    ensures r.Ok? ==> r.value.id in {1, 2, 3}
    ensures r.Ok? ==> (r.value.adjusted <==> ts.TimeOfDay() == TimeOf(16, 0, 0))
  {
    var t := ts.TimeOfDay();
    if TimeOf(9, 0, 0) <= t <= TimeOf(16, 0, 0) then Ok(Window(1, t == TimeOf(16, 0, 0)))
    else if (TimeOf(0, 0, 0) <= t <= TimeOf(6, 0, 0)) || (TimeOf(18, 1, 0) <= t <= TimeOf(23, 59, 59)) then
      Ok(Window(2, t == TimeOf(18, 0, 0)))
    else if (TimeOf(6, 15, 0) <= t <= TimeOf(9, 0, 0)) || (TimeOf(16, 15, 0) <= t <= TimeOf(18, 0, 0)) then
      Ok(Window(3, false))
    else Err("timestamp does not fall into any defined window")
  }

  /** Minutes since midnight of a block start. */
  function MinuteOfDay(ts: DateTime): int { ts.hour * 60 + ts.minute }

  /** Every block start on the quarter hour is classified without error: 00:00–06:00 and 18:15–23:45 are
      window 2, 06:15–08:45 and 16:15–18:00 window 3, 09:00–16:00 window 1. */
  lemma AlignedBlocksClassify(ts: DateTime)
    requires ts.Valid() && ts.minute % 15 == 0 && ts.second == 0 && ts.micro == 0
    ensures var r := DetectTimeWindow(ts);
      var m := MinuteOfDay(ts);
      && r.Ok?
      && (m <= 6 * 60 || 18 * 60 + 15 <= m ==> r.value.id == 2)
      && (6 * 60 + 15 <= m <= 8 * 60 + 45 ==> r.value.id == 3)
      && (9 * 60 <= m <= 16 * 60 ==> r.value.id == 1)
      && (16 * 60 + 15 <= m <= 18 * 60 ==> r.value.id == 3)
  {
    var m := MinuteOfDay(ts);
    assert ts.TimeOfDay() == m * MicrosPerMinute;
    assert m % 15 == 0 by {
      assert m == ts.hour * 4 * 15 + ts.minute;
    }
    assert !(6 * 60 < m < 6 * 60 + 15) && !(16 * 60 < m < 16 * 60 + 15);
  }

  /** Exactly the times strictly inside 06:00–06:15, 16:00–16:15, 18:00–18:01 and after 23:59:59 are
      errors. */
  lemma GapsRaise(ts: DateTime)
    requires ts.Valid()
    ensures var t := ts.TimeOfDay();
      DetectTimeWindow(ts).Err? <==>
        || TimeOf(6, 0, 0) < t < TimeOf(6, 15, 0)
        || TimeOf(16, 0, 0) < t < TimeOf(16, 15, 0)
        || TimeOf(18, 0, 0) < t < TimeOf(18, 1, 0)
        || TimeOf(23, 59, 59) < t
  {
    TimeOfDayRange(ts);
  }

  /** The boundary blocks: 06:00 is window 2 and 18:00 window 3, neither adjusted; 16:00 is window 1,
      adjusted. */
  lemma BoundaryBlocks(day: int)
    ensures DetectTimeWindow(DateTime(day, 6, 0, 0, 0)) == Ok(Window(2, false))
    ensures DetectTimeWindow(DateTime(day, 16, 0, 0, 0)) == Ok(Window(1, true))
    ensures DetectTimeWindow(DateTime(day, 18, 0, 0, 0)) == Ok(Window(3, false))
    ensures DetectTimeWindow(DateTime(day, 6, 5, 0, 0)).Err?
    ensures DetectTimeWindow(DateTime(day, 16, 7, 0, 0)).Err?
    ensures DetectTimeWindow(DateTime(day, 18, 0, 30, 0)).Err?
  {
  }

  // ---------------------------------------------------------------- one interval

  datatype IntervalInput = IntervalInput(
    tsStart: DateTime, eReadKwh: real, fitRate: real,
    contractKwh: Option<real>, egatPlanKwh: Option<real>, hasEgatPlanInWin3: Option<bool>)

  datatype IntervalResult = IntervalResult(
    windowId: int, adjustedSubinterval: bool, eUseKwh: real, baseKwh: real,
    payableKwh: real, shortfallKwh: real, penaltyCurrency: real, paymentCurrency: real)

  /** The base energy of a window: the contract in window 1, the plan in window 2, and in window 3 the plan
      or the contract as the flag says; a missing field is an error. */
  function BaseFor(windowId: int, p: IntervalInput): Result<real, string>
  {
    if windowId == 1 then
      if p.contractKwh.None? then Err("contract_kwh is required for Window 1") else Ok(p.contractKwh.value)
    else if windowId == 2 then
      if p.egatPlanKwh.None? then Err("egat_plan_kwh is required for Window 2") else Ok(p.egatPlanKwh.value)
    else if p.hasEgatPlanInWin3.None? then Err("has_egat_plan_in_win3 must be specified for Window 3")
    else if p.hasEgatPlanInWin3.value then
      if p.egatPlanKwh.None? then Err("egat_plan_kwh is required for Window 3") else Ok(p.egatPlanKwh.value)
    else
      if p.contractKwh.None? then Err("contract_kwh is required for Window 3") else Ok(p.contractKwh.value)
  }

  /** `compute_payment_for_interval`. */
  function ComputePayment(p: IntervalInput): Result<IntervalResult, string>
  {
    var w :- DetectTimeWindow(p.tsStart);
    var eUse := p.eReadKwh * (if w.adjusted then AdjustFactor else 1.0);
    var base :- BaseFor(w.id, p);
    if eUse > base then
      Ok(IntervalResult(w.id, w.adjusted, eUse, base, base, 0.0, 0.0, base * p.fitRate))
    else
      var shortfall := Max(base - eUse, 0.0);
      var penalty := shortfall * p.fitRate * PenaltyRate;
      Ok(IntervalResult(w.id, w.adjusted, eUse, base, eUse, shortfall, penalty, eUse * p.fitRate - penalty))
  }

  /** A payment fails exactly when the time is in a gap or the window's base field is missing. */
  lemma PaymentErrors(p: IntervalInput)
    ensures var w := DetectTimeWindow(p.tsStart);
      ComputePayment(p).Err? <==>
        || w.Err?
        || (w.value.id == 1 && p.contractKwh.None?)
        || (w.value.id == 2 && p.egatPlanKwh.None?)
        || (w.value.id == 3 && (|| p.hasEgatPlanInWin3.None?
                                || (p.hasEgatPlanInWin3.value && p.egatPlanKwh.None?)
                                || (!p.hasEgatPlanInWin3.value && p.contractKwh.None?)))
  {
  }

  /** A successful payment: the energy is read at 14/15 only in the adjusted block, the payable energy is the
      smaller of energy and base, the shortfall is what is missing to the base, the penalty is 12% of the
      tariff on the shortfall, and the payment is the payable energy at the tariff less the penalty. */
  lemma PaymentFormula(p: IntervalInput)
    requires ComputePayment(p).Ok?
    ensures var r := ComputePayment(p).value;
      && r.eUseKwh == (if r.adjustedSubinterval then p.eReadKwh * 14.0 / 15.0 else p.eReadKwh)
      && r.payableKwh == Min(r.eUseKwh, r.baseKwh)
      && r.shortfallKwh == Max(r.baseKwh - r.eUseKwh, 0.0)
      && r.penaltyCurrency == r.shortfallKwh * p.fitRate * PenaltyRate
      && r.paymentCurrency == r.payableKwh * p.fitRate - r.penaltyCurrency
  {
  }

  /** The base each window uses. */
  lemma PaymentBase(p: IntervalInput)
    requires ComputePayment(p).Ok?
    ensures var r := ComputePayment(p).value;
      && (r.windowId == 1 ==> r.baseKwh == p.contractKwh.value)
      && (r.windowId == 2 ==> r.baseKwh == p.egatPlanKwh.value)
      && (r.windowId == 3 && p.hasEgatPlanInWin3.value ==> r.baseKwh == p.egatPlanKwh.value)
      && (r.windowId == 3 && !p.hasEgatPlanInWin3.value ==> r.baseKwh == p.contractKwh.value)
  {
  }

  /** The payment is not floored: no energy against a 100 kWh contract at tariff 1 pays -12. */
  lemma PaymentCanBeNegative(day: int)
    ensures var r := ComputePayment(IntervalInput(DateTime(day, 10, 0, 0, 0), 0.0, 1.0, Some(100.0), None, None));
      r.Ok? && r.value.shortfallKwh == 100.0 && r.value.paymentCurrency == -12.0
  {
  }

  // ---------------------------------------------------------------- many intervals

  /** Row `k` is the first row whose payment fails. */
  predicate FirstFailing(rows: seq<IntervalInput>, k: int)
  {
    && 0 <= k < |rows| && ComputePayment(rows[k]).Err?
    && forall j :: 0 <= j < k ==> ComputePayment(rows[j]).Ok?
  }

  /** `compute_revenue_rows`: one result per row, in order; the first failing row's error otherwise. */
  function ComputeRevenueRows(rows: seq<IntervalInput>): (r: Result<seq<IntervalResult>, string>)
    ensures r.Ok? <==> forall i :: 0 <= i < |rows| ==> ComputePayment(rows[i]).Ok?
    ensures r.Ok? ==> |r.value| == |rows| && forall i :: 0 <= i < |rows| ==> r.value[i] == ComputePayment(rows[i]).value
    ensures r.Err? ==> exists k :: FirstFailing(rows, k) && ComputePayment(rows[k]) == Err(r.error)
  {
    if rows == [] then Ok([])
    else
      var head :- ComputePayment(rows[0]);
      var tail := ComputeRevenueRows(rows[1..]);
      if tail.Err? then
        var k :| FirstFailing(rows[1..], k) && ComputePayment(rows[1..][k]) == Err(tail.error);
        assert FirstFailing(rows, k + 1) by {
          forall j | 0 <= j < k + 1 ensures ComputePayment(rows[j]).Ok? {
            if j > 0 {
              assert rows[j] == rows[1..][j - 1];
            }
          }
        }
        assert ComputePayment(rows[k + 1]) == Err(tail.error);
        Err(tail.error)
      else
        assert forall i :: 1 <= i < |rows| ==> ComputePayment(rows[i]) == ComputePayment(rows[1..][i - 1]);
        Ok([head] + tail.value)
  }
}
