/**
 * The kWh battery state the controllers and simulators step: energy moves with the AC-side power through the
 * charge and discharge efficiencies; nothing is clamped. +kW discharges, -kW charges; steps are whole minutes.
 */
module Battery {

  datatype BatteryParams = BatteryParams(
    energyCapacityKwh: real, socInitKwh: real, socMinKwh: real, socMaxKwh: real,
    pDischargeMaxKw: real, pChargeMaxKw: real, etaCharge: real, etaDischarge: real,
    socTerminalKwh: real)

  /** The tolerance of the SOC window check. */
  const BoundsTolerance: real := 0.000001

  /** The energy after one step of `pKw` for `dtMinutes` minutes: a discharge takes out `p/eta_d` per hour,
      a charge puts in `|p|*eta_c` per hour. */
  function NextEnergy(params: BatteryParams, energyKwh: real, pKw: real, dtMinutes: int): real
    requires pKw >= 0.0 ==> params.etaDischarge != 0.0
  {
    var dtHours := dtMinutes as real / 60.0;
    if pKw >= 0.0 then energyKwh - dtHours * (pKw / params.etaDischarge)
    else energyKwh - dtHours * (pKw * params.etaCharge)
  }

  /** `within_bounds`: the energy lies in the SOC window widened by the tolerance on both sides. */
  predicate WithinBounds(params: BatteryParams, energyKwh: real)
  {
    params.socMinKwh - BoundsTolerance <= energyKwh <= params.socMaxKwh + BoundsTolerance
  }

  // ---------------------------------------------------------------- properties

  /** A discharge lowers the energy by `dt/60 * p / eta_d`. */
  lemma DischargeLowersEnergy(params: BatteryParams, e: real, pKw: real, dtMinutes: int)
    requires params.etaDischarge > 0.0 && pKw >= 0.0 && dtMinutes >= 0
    ensures var e' := NextEnergy(params, e, pKw, dtMinutes);
      && e - e' == (dtMinutes as real / 60.0) * (pKw / params.etaDischarge)
      && e' <= e
  {
    assert pKw / params.etaDischarge >= 0.0;
  }

  /** A charge raises the energy by `dt/60 * |p| * eta_c`. */
  lemma ChargeRaisesEnergy(params: BatteryParams, e: real, pKw: real, dtMinutes: int)
    requires params.etaCharge > 0.0 && pKw < 0.0 && dtMinutes >= 0
    ensures var e' := NextEnergy(params, e, pKw, dtMinutes);
      && e' - e == (dtMinutes as real / 60.0) * ((-pKw) * params.etaCharge)
      && e' >= e
  {
    assert (-pKw) * params.etaCharge >= 0.0;
  }

  /** Zero power leaves the energy where it is, whatever the step length. */
  lemma IdleKeepsEnergy(params: BatteryParams, e: real, dtMinutes: int)
    requires params.etaDischarge != 0.0
    ensures NextEnergy(params, e, 0.0, dtMinutes) == e
  {
  }

  /** With positive efficiencies and a non-negative step, more power never leaves more energy. */
  lemma NextEnergyMonotone(params: BatteryParams, e: real, p: real, q: real, dtMinutes: int)
    requires params.etaDischarge > 0.0 && params.etaCharge > 0.0 && dtMinutes >= 0 && p <= q
    ensures NextEnergy(params, e, q, dtMinutes) <= NextEnergy(params, e, p, dtMinutes)
  {
    var dtH := dtMinutes as real / 60.0;
    if p >= 0.0 {
      assert p / params.etaDischarge <= q / params.etaDischarge;
      assert dtH * (p / params.etaDischarge) <= dtH * (q / params.etaDischarge);
    } else if q >= 0.0 {
      assert p * params.etaCharge <= 0.0 <= q / params.etaDischarge;
      assert dtH * (p * params.etaCharge) <= dtH * (q / params.etaDischarge);
    } else {
      assert p * params.etaCharge <= q * params.etaCharge;
      assert dtH * (p * params.etaCharge) <= dtH * (q * params.etaCharge);
    }
  }

  /** The step does not clamp: a full battery charged for an hour ends above the window and the check fails. */
  lemma StepDoesNotClamp()
    ensures var params := BatteryParams(100.0, 100.0, 10.0, 100.0, 50.0, 50.0, 0.9, 0.9, 50.0);
      var e' := NextEnergy(params, 100.0, -50.0, 60);
      && WithinBounds(params, 100.0)
      && e' == 145.0
      && !WithinBounds(params, e')
  {
  }

  // ---------------------------------------------------------------- the state object

  class BatteryState {
    const params: BatteryParams
    var energyKwh: real
    var lastPKw: real

    /** Starts at the initial SOC with no power applied yet. */
    constructor (params: BatteryParams)
      ensures this.params == params
      ensures energyKwh == params.socInitKwh && lastPKw == 0.0
    {
      this.params := params;
      energyKwh := params.socInitKwh;
      lastPKw := 0.0;
    }

    /** `step(p_kw, dt_minutes)`: the energy moves by the efficiency-weighted energy, the power is recorded. */
    method Step(pKw: real, dtMinutes: int)
      requires pKw >= 0.0 ==> params.etaDischarge != 0.0
      modifies this
      ensures energyKwh == NextEnergy(params, old(energyKwh), pKw, dtMinutes)
      ensures lastPKw == pKw
    {
      var dtHours := dtMinutes as real / 60.0;
      if pKw >= 0.0 {
        energyKwh := energyKwh - dtHours * (pKw / params.etaDischarge);
      } else {
        energyKwh := energyKwh - dtHours * (pKw * params.etaCharge);
      }
      lastPKw := pKw;
    }

    /** `within_bounds()`. */
    predicate InBounds()
      reads this
    {
      WithinBounds(params, energyKwh)
    }
  }
}
