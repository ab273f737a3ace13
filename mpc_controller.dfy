/**
 * The patched block-energy controller: the same clamps and block sums as `MpcControllerOld`, no zero-steps
 * fallback, and an optional terminal-SOC bias that steers the battery toward a desired end-of-day SOC.
 */
module MpcController {
  import opened Numerics
  import opened Wrappers
  import Old = MpcControllerOld

  /** The patched controller: the old fields plus the terminal SOC and its weight. */
  datatype TerminalMpc = TerminalMpc(base: Old.BlockEnergyMpc, socTerminalKwh: Option<real>, terminalWeight: real)

  /** The constructor: the weight is clamped at 0 from below. */
  function MakeController(dtMinutes: int, pDisMaxKw: real, pChMaxKw: real, etaC: real, etaD: real,
                          ramp: Option<real>, socTerminalKwh: Option<real>, terminalWeight: real): (c: TerminalMpc)
    ensures c.base == Old.BlockEnergyMpc(dtMinutes, pDisMaxKw, pChMaxKw, etaC, etaD, ramp)
    ensures c.socTerminalKwh == socTerminalKwh
    ensures c.terminalWeight >= 0.0
    ensures terminalWeight >= 0.0 ==> c.terminalWeight == terminalWeight
    ensures terminalWeight < 0.0 ==> c.terminalWeight == 0.0
  {
    TerminalMpc(Old.BlockEnergyMpc(dtMinutes, pDisMaxKw, pChMaxKw, etaC, etaD, ramp), socTerminalKwh,
                Max(0.0, terminalWeight))
  }

  /** The bias applies only with a terminal SOC, a positive weight and a given, non-zero day step count. */
  predicate BiasApplies(c: TerminalMpc, remainingStepsDay: Option<int>)
  {
    c.socTerminalKwh.Some? && c.terminalWeight > 0.0 && remainingStepsDay.Some? && remainingStepsDay.value != 0
  }

  /** The terminal bias: the weighted SOC error spread over the day's remaining steps, 0 when it does not
      apply. Positive (discharge) when the battery is above its terminal SOC. */
  function TerminalBias(c: TerminalMpc, eKwh: real, remainingStepsDay: Option<int>): (r: real)
    requires c.base.Defined()
    ensures !BiasApplies(c, remainingStepsDay) ==> r == 0.0
    ensures BiasApplies(c, remainingStepsDay) && c.base.dtMinutes > 0 && remainingStepsDay.value > 0 ==>
      (eKwh > c.socTerminalKwh.value ==> r > 0.0) && (eKwh < c.socTerminalKwh.value ==> r < 0.0)
  {
    if BiasApplies(c, remainingStepsDay) then
      var k := remainingStepsDay.value as real * c.base.DtHours();
      var err := eKwh - c.socTerminalKwh.value;
      if k != 0.0 then
        var r := c.terminalWeight * (err / k);
        assert k > 0.0 ==> (err > 0.0 ==> err / k > 0.0) && (err < 0.0 ==> err / k < 0.0);
        r
      else 0.0
    else 0.0
  }

  /** The desired power: the old even split plus the bias. The remaining-step count is never 0 (the current
      row remains), so the unguarded division is well defined. */
  function DesiredPower(c: TerminalMpc, eKwh: real, rows: seq<Old.BlockRow>, cur: int,
                        remainingStepsDay: Option<int>): real
    requires 0 <= cur < |rows| && c.base.Defined()
  {
    Old.EvenPower(c.base, rows, cur) + TerminalBias(c, eKwh, remainingStepsDay)
  }

  /** `compute_current_setpoint`: ramp, power limits and SOC bounds applied to the biased even split. */
  function ComputeCurrentSetpoint(c: TerminalMpc, eKwh: real, socMinKwh: real, socMaxKwh: real,
                                  lastPKw: real, rows: seq<Old.BlockRow>, cur: int,
                                  remainingStepsDay: Option<int>): (r: real)
    requires 0 <= cur < |rows| && c.base.Defined()
    ensures c.base.pChMaxKw >= 0.0 && c.base.pDisMaxKw >= 0.0 ==> -c.base.pChMaxKw <= r <= c.base.pDisMaxKw
  {
    var p := Old.ApplyRamp(c.base, DesiredPower(c, eKwh, rows, cur, remainingStepsDay), lastPKw);
    Old.ApplySocBounds(c.base, eKwh, Old.ApplyPowerLimits(c.base, p), socMinKwh, socMaxKwh)
  }

  /** Without the bias the patched controller computes exactly what the old one does. */
  lemma AgreesWithOldWithoutBias(c: TerminalMpc, eKwh: real, socMinKwh: real, socMaxKwh: real,
                                 lastPKw: real, rows: seq<Old.BlockRow>, cur: int, remainingStepsDay: Option<int>)
    requires 0 <= cur < |rows| && c.base.Physical() && !BiasApplies(c, remainingStepsDay)
    ensures ComputeCurrentSetpoint(c, eKwh, socMinKwh, socMaxKwh, lastPKw, rows, cur, remainingStepsDay)
      == Old.ComputeCurrentSetpoint(c.base, eKwh, socMinKwh, socMaxKwh, lastPKw, rows, cur)
  {
    Old.EvenSplitDeliversNeed(c.base, rows, cur);
  }

  /** The setpoint lies within the power limits and, from a SOC inside `[soc_min, soc_max]`, keeps the next
      SOC inside, whatever the bias. */
  lemma SetpointSafe(c: TerminalMpc, eKwh: real, socMinKwh: real, socMaxKwh: real,
                     lastPKw: real, rows: seq<Old.BlockRow>, cur: int, remainingStepsDay: Option<int>)
    requires 0 <= cur < |rows| && c.base.Physical()
    ensures var r := ComputeCurrentSetpoint(c, eKwh, socMinKwh, socMaxKwh, lastPKw, rows, cur, remainingStepsDay);
      && -c.base.pChMaxKw <= r <= c.base.pDisMaxKw
      && (socMinKwh <= eKwh <= socMaxKwh ==> socMinKwh <= Old.NextSoc(c.base, eKwh, r) <= socMaxKwh)
  {
    var p := Old.ApplyPowerLimits(c.base,
      Old.ApplyRamp(c.base, DesiredPower(c, eKwh, rows, cur, remainingStepsDay), lastPKw));
    Old.SocBoundsShrink(c.base, eKwh, p, socMinKwh, socMaxKwh);
    if socMinKwh <= eKwh <= socMaxKwh {
      Old.SocBoundsKeepWindow(c.base, eKwh, p, socMinKwh, socMaxKwh);
    }
  }
}
