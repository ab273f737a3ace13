/**
 * The block-energy controller: over a 15-minute block split into substeps, it spreads the battery energy
 * still needed to meet the block's energy target evenly over the remaining substeps, then passes that power
 * through a ramp clamp, the power limits and a state-of-charge clamp. Powers are kW (+ discharge), energies
 * kWh.
 */
module MpcControllerOld {
  import opened Numerics
  import opened Wrappers

  /** The controller's fields, all set at construction. */
  datatype BlockEnergyMpc = BlockEnergyMpc(
    dtMinutes: int, pDisMaxKw: real, pChMaxKw: real, etaC: real, etaD: real, ramp: Option<real>)
  {
    function DtHours(): real { dtMinutes as real / 60.0 }

    /** What the divisions of the SOC clamp and the even split need. */
    predicate Defined() { dtMinutes != 0 && etaC != 0.0 && etaD != 0.0 }

    /** A physical battery: positive step and efficiencies, non-negative power limits. */
    predicate Physical() { dtMinutes > 0 && etaC > 0.0 && etaD > 0.0 && pDisMaxKw >= 0.0 && pChMaxKw >= 0.0 }
  }

  // ---------------------------------------------------------------- the three clamps

  /** `_apply_ramp`: the identity without a ramp, else numpy's clip to `last_p ± ramp`. */
  function ApplyRamp(c: BlockEnergyMpc, pDes: real, lastP: real): (r: real)
    ensures c.ramp.None? ==> r == pDes
    ensures c.ramp.Some? && c.ramp.value >= 0.0 ==>
      lastP - c.ramp.value <= r <= lastP + c.ramp.value
      && (lastP - c.ramp.value <= pDes <= lastP + c.ramp.value ==> r == pDes)
  {
    match c.ramp
    case None => pDes
    case Some(ramp) => Clip(pDes, lastP - ramp, lastP + ramp)
  }

  /** `_apply_power_limits`: numpy's clip to `[-p_ch_max, p_dis_max]`. */
  function ApplyPowerLimits(c: BlockEnergyMpc, p: real): (r: real)
    ensures c.pDisMaxKw >= 0.0 && c.pChMaxKw >= 0.0 ==>
      && -c.pChMaxKw <= r <= c.pDisMaxKw
      && (-c.pChMaxKw <= p <= c.pDisMaxKw ==> r == p)
      && (p >= 0.0 ==> 0.0 <= r <= p)
      && (p < 0.0 ==> p <= r <= 0.0)
  {
    Clip(p, -c.pChMaxKw, c.pDisMaxKw)
  }

  /** The SOC after delivering `p` for one step: a discharge takes out `p/eta_d` per hour, a charge puts in
      `|p|*eta_c` per hour. */
  function NextSoc(c: BlockEnergyMpc, eKwh: real, p: real): real
    requires c.Defined()
  {
    if p >= 0.0 then eKwh - c.DtHours() * (p / c.etaD) else eKwh - c.DtHours() * (p * c.etaC)
  }

  /** The largest discharge that stops at `soc_min`, never below 0. */
  function AllowedDischarge(c: BlockEnergyMpc, eKwh: real, socMinKwh: real): real
    requires c.Defined()
  {
    Max(0.0, (eKwh - socMinKwh) * c.etaD / c.DtHours())
  }

  /** The deepest charge (a non-positive power) that stops at `soc_max`. */
  function AllowedCharge(c: BlockEnergyMpc, eKwh: real, socMaxKwh: real): real
    requires c.Defined()
  {
    if c.DtHours() * c.etaC != 0.0 then Min(0.0, (eKwh - socMaxKwh) / (c.DtHours() * c.etaC)) else 0.0
  }

  /** `_apply_soc_bounds`: a discharge that would end below `soc_min` is cut to what stops there, a charge
      that would end above `soc_max` likewise; the result is clipped to the power limits again. */
  function ApplySocBounds(c: BlockEnergyMpc, eKwh: real, pKw: real, socMinKwh: real, socMaxKwh: real): (r: real)
    requires c.Defined()
    ensures c.pChMaxKw >= 0.0 && c.pDisMaxKw >= 0.0 ==> -c.pChMaxKw <= r <= c.pDisMaxKw
  {
    var p :=
      if pKw >= 0.0 then
        if NextSoc(c, eKwh, pKw) < socMinKwh then Min(pKw, AllowedDischarge(c, eKwh, socMinKwh)) else pKw
      else
        if NextSoc(c, eKwh, pKw) > socMaxKwh then Max(pKw, AllowedCharge(c, eKwh, socMaxKwh)) else pKw;
    ApplyPowerLimits(c, p)
  }

  // ---------------------------------------------------------------- properties of the SOC clamp

  /** Stopping exactly at a bound: discharging the allowed power ends at `soc_min`, charging the allowed
      power ends at `soc_max`. */
  lemma AllowedPowersReachBounds(c: BlockEnergyMpc, eKwh: real, socMinKwh: real, socMaxKwh: real)
    requires c.Physical()
    ensures eKwh >= socMinKwh ==> NextSoc(c, eKwh, AllowedDischarge(c, eKwh, socMinKwh)) == socMinKwh
    ensures eKwh <= socMaxKwh && AllowedCharge(c, eKwh, socMaxKwh) < 0.0 ==>
      NextSoc(c, eKwh, AllowedCharge(c, eKwh, socMaxKwh)) == socMaxKwh
  {
    var dtH := c.DtHours();
    assert dtH > 0.0;
    if eKwh >= socMinKwh {
      var a := (eKwh - socMinKwh) * c.etaD / dtH;
      assert a >= 0.0;
      assert a / c.etaD == (eKwh - socMinKwh) / dtH;
      assert dtH * (a / c.etaD) == eKwh - socMinKwh;
    }
    var k := dtH * c.etaC;
    assert k > 0.0;
    var b := (eKwh - socMaxKwh) / k;
    assert dtH * (b * c.etaC) == b * k == eKwh - socMaxKwh;
  }

  /** Less discharge never leaves less energy; a shallower charge never leaves more. */
  lemma NextSocMonotone(c: BlockEnergyMpc, eKwh: real, p: real, q: real)
    requires c.Physical() && p <= q
    ensures NextSoc(c, eKwh, q) <= NextSoc(c, eKwh, p)
  {
    var dtH := c.DtHours();
    assert dtH > 0.0;
    if p >= 0.0 {
      assert p / c.etaD <= q / c.etaD;
      assert dtH * (p / c.etaD) <= dtH * (q / c.etaD);
    } else if q >= 0.0 {
      assert p * c.etaC <= 0.0 <= q / c.etaD;
      assert dtH * (p * c.etaC) <= dtH * (q / c.etaD);
    } else {
      assert p * c.etaC <= q * c.etaC;
      assert dtH * (p * c.etaC) <= dtH * (q * c.etaC);
    }
  }

  /** The SOC clamp never flips the sign and never increases the magnitude. */
  lemma SocBoundsShrink(c: BlockEnergyMpc, eKwh: real, pKw: real, socMinKwh: real, socMaxKwh: real)
    requires c.Physical()
    ensures var r := ApplySocBounds(c, eKwh, pKw, socMinKwh, socMaxKwh);
      && -c.pChMaxKw <= r <= c.pDisMaxKw
      && (pKw >= 0.0 ==> 0.0 <= r <= pKw)
      && (pKw < 0.0 ==> pKw <= r <= 0.0)
  {
  }

  /** A discharge never takes the battery below `soc_min` when it starts at or above it. */
  lemma SocBoundsDischarge(c: BlockEnergyMpc, eKwh: real, pKw: real, socMinKwh: real, socMaxKwh: real)
    requires c.Physical() && pKw >= 0.0 && eKwh >= socMinKwh
    ensures NextSoc(c, eKwh, ApplySocBounds(c, eKwh, pKw, socMinKwh, socMaxKwh)) >= socMinKwh
  {
    var r := ApplySocBounds(c, eKwh, pKw, socMinKwh, socMaxKwh);
    SocBoundsShrink(c, eKwh, pKw, socMinKwh, socMaxKwh);
    if NextSoc(c, eKwh, pKw) < socMinKwh {
      var a := AllowedDischarge(c, eKwh, socMinKwh);
      AllowedPowersReachBounds(c, eKwh, socMinKwh, socMaxKwh);
      assert r <= a;
      NextSocMonotone(c, eKwh, r, a);
    } else {
      NextSocMonotone(c, eKwh, r, pKw);
    }
  }

  /** A charge never takes the battery above `soc_max` when it starts at or below it. */
  lemma SocBoundsCharge(c: BlockEnergyMpc, eKwh: real, pKw: real, socMinKwh: real, socMaxKwh: real)
    requires c.Physical() && pKw < 0.0 && eKwh <= socMaxKwh
    ensures NextSoc(c, eKwh, ApplySocBounds(c, eKwh, pKw, socMinKwh, socMaxKwh)) <= socMaxKwh
  {
    var r := ApplySocBounds(c, eKwh, pKw, socMinKwh, socMaxKwh);
    SocBoundsShrink(c, eKwh, pKw, socMinKwh, socMaxKwh);
    if r >= 0.0 {
      assert r == 0.0;
      assert NextSoc(c, eKwh, r) == eKwh - c.DtHours() * (0.0 / c.etaD);
    } else if NextSoc(c, eKwh, pKw) > socMaxKwh {
      var b := AllowedCharge(c, eKwh, socMaxKwh);
      AllowedPowersReachBounds(c, eKwh, socMinKwh, socMaxKwh);
      assert b <= r;
      if b < 0.0 {
        NextSocMonotone(c, eKwh, b, r);
      } else {
        assert false;
      }
    } else {
      NextSocMonotone(c, eKwh, pKw, r);
    }
  }

  /** Starting inside `[soc_min, soc_max]`, the clamped power keeps the next SOC inside. */
  lemma SocBoundsKeepWindow(c: BlockEnergyMpc, eKwh: real, pKw: real, socMinKwh: real, socMaxKwh: real)
    requires c.Physical() && socMinKwh <= eKwh <= socMaxKwh
    ensures socMinKwh <= NextSoc(c, eKwh, ApplySocBounds(c, eKwh, pKw, socMinKwh, socMaxKwh)) <= socMaxKwh
  {
    var r := ApplySocBounds(c, eKwh, pKw, socMinKwh, socMaxKwh);
    SocBoundsShrink(c, eKwh, pKw, socMinKwh, socMaxKwh);
    if pKw >= 0.0 {
      SocBoundsDischarge(c, eKwh, pKw, socMinKwh, socMaxKwh);
      NextSocMonotone(c, eKwh, 0.0, r);
      assert NextSoc(c, eKwh, 0.0) == eKwh - c.DtHours() * (0.0 / c.etaD);
    } else {
      SocBoundsCharge(c, eKwh, pKw, socMinKwh, socMaxKwh);
      NextSocMonotone(c, eKwh, r, 0.0);
      assert NextSoc(c, eKwh, 0.0) == eKwh - c.DtHours() * (0.0 / c.etaD);
    }
  }

  /** A power already within the limits is changed only when it would break the SOC bound on its side. */
  lemma SocBoundsOnlyWhenViolated(c: BlockEnergyMpc, eKwh: real, pKw: real, socMinKwh: real, socMaxKwh: real)
    requires c.Physical() && -c.pChMaxKw <= pKw <= c.pDisMaxKw
    ensures pKw >= 0.0 && NextSoc(c, eKwh, pKw) >= socMinKwh ==>
      ApplySocBounds(c, eKwh, pKw, socMinKwh, socMaxKwh) == pKw
    ensures pKw < 0.0 && NextSoc(c, eKwh, pKw) <= socMaxKwh ==>
      ApplySocBounds(c, eKwh, pKw, socMinKwh, socMaxKwh) == pKw
  {
  }

  // ---------------------------------------------------------------- the block sums

  /** One row of the current block: its substep, the solar forecast and (possibly missing) actual power, the
      availability flag and the block's energy target. */
  datatype BlockRow = BlockRow(
    substep: int, forecastKw: real, actualKw: Option<real>, actualAvailable: bool, eTargetKwh: real)

  /** The solar power counted for an elapsed row: the actual (a missing one read as 0) where available, else
      the forecast. */
  function PastSolarKw(row: BlockRow): real
  {
    if row.actualAvailable then row.actualKw.GetOr(0.0) else row.forecastKw
  }

  /** The solar power of the rows before substep `s`. */
  function PastSolarSum(rows: seq<BlockRow>, s: int): real
  {
    if rows == [] then 0.0
    else (if rows[0].substep < s then PastSolarKw(rows[0]) else 0.0) + PastSolarSum(rows[1..], s)
  }

  /** The forecast solar power of the rows at or after substep `s`. */
  function FutureForecastSum(rows: seq<BlockRow>, s: int): real
  {
    if rows == [] then 0.0
    else (if rows[0].substep < s then 0.0 else rows[0].forecastKw) + FutureForecastSum(rows[1..], s)
  }

  /** The number of rows before substep `s`. */
  function PastCount(rows: seq<BlockRow>, s: int): nat
  {
    if rows == [] then 0 else (if rows[0].substep < s then 1 else 0) + PastCount(rows[1..], s)
  }

  /** The number of rows at or after substep `s`, the current one included. */
  function FutureCount(rows: seq<BlockRow>, s: int): nat
  {
    if rows == [] then 0 else (if rows[0].substep < s then 0 else 1) + FutureCount(rows[1..], s)
  }

  /** The forecast solar power of all rows. */
  function TotalForecast(rows: seq<BlockRow>): real
  {
    if rows == [] then 0.0 else rows[0].forecastKw + TotalForecast(rows[1..])
  }

  /** The past and future masks partition the block. */
  lemma {:induction false} MasksPartition(rows: seq<BlockRow>, s: int)
    ensures PastCount(rows, s) + FutureCount(rows, s) == |rows|
  {
    if rows != [] {
      MasksPartition(rows[1..], s);
    }
  }

  /** A row at or after substep `s` is counted among the remaining steps. */
  lemma {:induction false} FutureCountPositive(rows: seq<BlockRow>, s: int, i: int)
    requires 0 <= i < |rows| && rows[i].substep >= s
    ensures FutureCount(rows, s) >= 1
  {
    if i > 0 {
      FutureCountPositive(rows[1..], s, i - 1);
    }
  }

  /** Without any actual reading, past and future together are the whole block's forecast. */
  lemma {:induction false} NoActualsUseForecast(rows: seq<BlockRow>, s: int)
    requires forall i :: 0 <= i < |rows| ==> !rows[i].actualAvailable
    ensures PastSolarSum(rows, s) + FutureForecastSum(rows, s) == TotalForecast(rows)
  {
    if rows != [] {
      NoActualsUseForecast(rows[1..], s);
    }
  }

  /** Rows at or after substep `s` never contribute their actual readings. */
  lemma {:induction false} FutureIgnoresActuals(rows: seq<BlockRow>, s: int)
    requires forall i :: 0 <= i < |rows| ==> rows[i].substep >= s
    ensures PastSolarSum(rows, s) == 0.0 && FutureForecastSum(rows, s) == TotalForecast(rows)
    ensures PastCount(rows, s) == 0 && FutureCount(rows, s) == |rows|
  {
    if rows != [] {
      FutureIgnoresActuals(rows[1..], s);
    }
  }

  // ---------------------------------------------------------------- the setpoint

  /** The battery energy still needed over the block: the target less the solar energy already delivered
      and still expected. */
  function EnergyNeeded(c: BlockEnergyMpc, rows: seq<BlockRow>, cur: int): real
    requires 0 <= cur < |rows|
  {
    var s := rows[cur].substep;
    var dtH := c.DtHours();
    rows[0].eTargetKwh - (PastSolarSum(rows, s) * dtH + FutureForecastSum(rows, s) * dtH)
  }

  /** The even split of the needed energy over the remaining steps (0 when none remain). */
  function EvenPower(c: BlockEnergyMpc, rows: seq<BlockRow>, cur: int): real
    requires 0 <= cur < |rows| && c.Defined()
  {
    var remaining := FutureCount(rows, rows[cur].substep);
    if remaining <= 0 then 0.0 else EnergyNeeded(c, rows, cur) / (remaining as real * c.DtHours())
  }

  /** `compute_current_setpoint`: 0 when no step remains, else the even split through ramp, power limits
      and SOC bounds. */
  function ComputeCurrentSetpoint(c: BlockEnergyMpc, eKwh: real, socMinKwh: real, socMaxKwh: real,
                                  lastPKw: real, rows: seq<BlockRow>, cur: int): (r: real)
    requires 0 <= cur < |rows| && c.Defined()
    ensures c.pChMaxKw >= 0.0 && c.pDisMaxKw >= 0.0 ==> -c.pChMaxKw <= r <= c.pDisMaxKw
  {
    if FutureCount(rows, rows[cur].substep) <= 0 then 0.0
    else
      var p := ApplyRamp(c, EvenPower(c, rows, cur), lastPKw);
      ApplySocBounds(c, eKwh, ApplyPowerLimits(c, p), socMinKwh, socMaxKwh)
  }

  /** The current row always remains, so the zero fallback is never taken, and delivering the even split
      for every remaining step delivers exactly the needed energy. */
  lemma EvenSplitDeliversNeed(c: BlockEnergyMpc, rows: seq<BlockRow>, cur: int)
    requires 0 <= cur < |rows| && c.Physical()
    ensures FutureCount(rows, rows[cur].substep) >= 1
    ensures EvenPower(c, rows, cur) * (FutureCount(rows, rows[cur].substep) as real * c.DtHours())
      == EnergyNeeded(c, rows, cur)
  {
    FutureCountPositive(rows, rows[cur].substep, cur);
    assert FutureCount(rows, rows[cur].substep) as real * c.DtHours() > 0.0;
  }

  /** The setpoint lies within the power limits and, from a SOC inside `[soc_min, soc_max]`, keeps the next
      SOC inside. */
  lemma SetpointSafe(c: BlockEnergyMpc, eKwh: real, socMinKwh: real, socMaxKwh: real,
                     lastPKw: real, rows: seq<BlockRow>, cur: int)
    requires 0 <= cur < |rows| && c.Physical()
    ensures var r := ComputeCurrentSetpoint(c, eKwh, socMinKwh, socMaxKwh, lastPKw, rows, cur);
      && -c.pChMaxKw <= r <= c.pDisMaxKw
      && (socMinKwh <= eKwh <= socMaxKwh ==> socMinKwh <= NextSoc(c, eKwh, r) <= socMaxKwh)
  {
    FutureCountPositive(rows, rows[cur].substep, cur);
    var p := ApplyPowerLimits(c, ApplyRamp(c, EvenPower(c, rows, cur), lastPKw));
    SocBoundsShrink(c, eKwh, p, socMinKwh, socMaxKwh);
    if socMinKwh <= eKwh <= socMaxKwh {
      SocBoundsKeepWindow(c, eKwh, p, socMinKwh, socMaxKwh);
    }
  }
}
