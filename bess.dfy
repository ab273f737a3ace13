/**
 * The MW-scale battery emulator: +MW discharges to the grid, -MW charges from it. A command passes an
 * optional ramp limit, then the power limits, then a state-of-charge (SOC, MWh) clip; the SOC moves with
 * the discharge and charge efficiencies. Steps are in seconds.
 */
module Bess {
  import opened Numerics
  import opened Wrappers

  datatype BessConfig = BessConfig(
    capacityMwh: real, pDischargeMaxMw: real, pChargeMaxMw: real,
    etaDischarge: real, etaCharge: real, rampMwPerS: Option<real>)
  {
    /** The efficiencies the SOC update divides by. */
    predicate Defined() { etaDischarge != 0.0 && etaCharge != 0.0 }

    /** Non-negative capacity, limits and ramp; positive efficiencies. */
    predicate Valid()
    {
      && capacityMwh >= 0.0 && pDischargeMaxMw >= 0.0 && pChargeMaxMw >= 0.0
      && etaDischarge > 0.0 && etaCharge > 0.0
      && (rampMwPerS.Some? ==> rampMwPerS.value >= 0.0)
    }
  }

  /** The default efficiencies of the constructor. */
  const DefaultEta: real := 0.95

  /** The ramp per second: `ramp_mw_per_min / 60` when a non-zero ramp is given; a missing or zero ramp
      (false in Python) disables the ramp stage. */
  function RampPerSecond(rampMwPerMin: Option<real>): (r: Option<real>)
    ensures r.None? <==> rampMwPerMin.None? || rampMwPerMin.value == 0.0
    ensures r.Some? ==> r.value * 60.0 == rampMwPerMin.value
  {
    if rampMwPerMin.Some? && rampMwPerMin.value != 0.0 then Some(rampMwPerMin.value / 60.0) else None
  }

  /** The fields that `command_power` and `step` change, as one value. */
  datatype BessState = BessState(socMwh: real, cmdPowerMw: real, currentPowerMw: real)

  /** What every reachable state satisfies: SOC in `[0, capacity]`, output within the power limits. */
  predicate Inv(cfg: BessConfig, s: BessState)
  {
    && 0.0 <= s.socMwh <= cfg.capacityMwh
    && -cfg.pChargeMaxMw <= s.currentPowerMw <= cfg.pDischargeMaxMw
  }

  // ---------------------------------------------------------------- the three stages of `step`

  /** Ramp: keep the command within `current ± ramp*dt_s`; the identity without a ramp. */
  function RampStage(cfg: BessConfig, current: real, target: real, dtS: real): real
  {
    match cfg.rampMwPerS
    case None => target
    case Some(r) =>
      var maxDelta := r * dtS;
      Max(Min(target, current + maxDelta), current - maxDelta)
  }

  /** Limits: a non-negative command is capped at the discharge limit, a negative one at the charge limit. */
  function LimitStage(cfg: BessConfig, target: real): real
  {
    if target >= 0.0 then Min(target, cfg.pDischargeMaxMw) else Max(target, -cfg.pChargeMaxMw)
  }

  /** The energy (MWh) taken out of the store by discharging `p` MW for `dtH` hours. */
  function EnergyOut(cfg: BessConfig, p: real, dtH: real): real
    requires cfg.Defined()
  {
    (p / cfg.etaDischarge) * dtH
  }

  /** The energy (MWh) put into the store by charging at `c` MW for `dtH` hours. */
  function EnergyIn(cfg: BessConfig, c: real, dtH: real): real
  {
    (c * cfg.etaCharge) * dtH
  }

  /** The largest discharge the stored energy supports over `dtH` hours (0 over an empty step). */
  function DischargeCap(cfg: BessConfig, soc: real, dtH: real): real
  {
    if dtH > 0.0 then (soc / dtH) * cfg.etaDischarge else 0.0
  }

  /** The largest charge the free room supports over `dtH` hours (0 over an empty step). */
  function ChargeCap(cfg: BessConfig, room: real, dtH: real): real
  {
    if dtH > 0.0 && cfg.etaCharge * dtH != 0.0 then room / (cfg.etaCharge * dtH) else 0.0
  }

  /** SOC: a discharge that needs more than is stored, or a charge that would overfill, is cut back to what
      the SOC allows over the step. Returns the delivered power and the new SOC. */
  function SocStage(cfg: BessConfig, soc: real, target: real, dtS: real): (real, real)
    requires cfg.Defined()
  {
    var dtH := dtS / 3600.0;
    if target >= 0.0 then
      if EnergyOut(cfg, target, dtH) > soc then
        var t := DischargeCap(cfg, soc, dtH);
        (t, soc - EnergyOut(cfg, t, dtH))
      else (target, soc - EnergyOut(cfg, target, dtH))
    else
      if soc + EnergyIn(cfg, -target, dtH) > cfg.capacityMwh then
        var chargePower := ChargeCap(cfg, cfg.capacityMwh - soc, dtH);
        (-chargePower, soc + EnergyIn(cfg, chargePower, dtH))
      else (target, soc + EnergyIn(cfg, -target, dtH))
  }

  /** `step(now, dt_s)`: ramp, limits, SOC; the delivered power becomes the current output. */
  function AfterStep(cfg: BessConfig, s: BessState, dtS: real): BessState
    requires cfg.Defined()
  {
    var limited := LimitStage(cfg, RampStage(cfg, s.currentPowerMw, s.cmdPowerMw, dtS));
    var (p, soc) := SocStage(cfg, s.socMwh, limited, dtS);
    s.(socMwh := soc, currentPowerMw := p)
  }

  // ---------------------------------------------------------------- properties

  /** With a ramp, the ramped and limited command stays within `current ± ramp*dt_s` (when the current output
      is within the limits); without one the ramp stage is the identity. */
  lemma RampBand(cfg: BessConfig, s: BessState, dtS: real)
    requires cfg.Valid() && Inv(cfg, s) && dtS >= 0.0
    ensures cfg.rampMwPerS.None? ==> RampStage(cfg, s.currentPowerMw, s.cmdPowerMw, dtS) == s.cmdPowerMw
    ensures cfg.rampMwPerS.Some? ==>
      var d := cfg.rampMwPerS.value * dtS;
      var limited := LimitStage(cfg, RampStage(cfg, s.currentPowerMw, s.cmdPowerMw, dtS));
      s.currentPowerMw - d <= limited <= s.currentPowerMw + d
  {
    if cfg.rampMwPerS.Some? {
      assert cfg.rampMwPerS.value * dtS >= 0.0;
    }
  }

  /** The limit stage lands in `[-p_charge_max, p_discharge_max]` and keeps the sign. */
  lemma LimitStageBounds(cfg: BessConfig, target: real)
    requires cfg.Valid()
    ensures var l := LimitStage(cfg, target);
      && -cfg.pChargeMaxMw <= l <= cfg.pDischargeMaxMw
      && (target >= 0.0 ==> 0.0 <= l <= target)
      && (target < 0.0 ==> target <= l <= 0.0)
      && (-cfg.pChargeMaxMw <= target <= cfg.pDischargeMaxMw ==> l == target)
  {
  }

  /** Discharging: the SOC stage never raises the power nor makes it negative, and never takes out more than
      is stored. */
  lemma SocStageDischarge(cfg: BessConfig, soc: real, target: real, dtS: real)
    requires cfg.Valid() && dtS >= 0.0 && target >= 0.0 && soc >= 0.0
    ensures var (p, soc') := SocStage(cfg, soc, target, dtS);
      0.0 <= p <= target && 0.0 <= soc' <= soc
  {
    var dtH := dtS / 3600.0;
    var etaD := cfg.etaDischarge;
    var needed := (target / etaD) * dtH;
    assert needed >= 0.0;
    if needed > soc && dtH > 0.0 {
      var q := soc / dtH;
      var t := q * etaD;
      assert t / etaD == q;
      assert q * dtH == soc;
      assert t >= 0.0;
      assert q < target / etaD by {
        assert q * dtH < (target / etaD) * dtH;
      }
      assert t < target by {
        assert t == q * etaD && target == (target / etaD) * etaD;
      }
    }
  }

  /** Charging: the SOC stage never deepens the charge nor turns it into a discharge, and never overfills. */
  lemma SocStageCharge(cfg: BessConfig, soc: real, target: real, dtS: real)
    requires cfg.Valid() && dtS >= 0.0 && target < 0.0 && soc <= cfg.capacityMwh
    ensures var (p, soc') := SocStage(cfg, soc, target, dtS);
      target <= p <= 0.0 && soc <= soc' <= cfg.capacityMwh
  {
    var dtH := dtS / 3600.0;
    var etaC := cfg.etaCharge;
    var energyIn := ((-target) * etaC) * dtH;
    assert energyIn >= 0.0;
    if soc + energyIn > cfg.capacityMwh && dtH > 0.0 {
      var room := cfg.capacityMwh - soc;
      var k := etaC * dtH;
      var chargePower := room / k;
      assert (chargePower * etaC) * dtH == chargePower * k == room;
      assert chargePower >= 0.0;
      assert chargePower < -target by {
        assert chargePower * k < (-target) * k;
      }
    }
  }

  /** The SOC stage moves the SOC by exactly the energy of the power it delivers. */
  lemma SocStageEnergy(cfg: BessConfig, soc: real, target: real, dtS: real)
    requires cfg.Valid() && dtS >= 0.0 && 0.0 <= soc <= cfg.capacityMwh
    ensures var (p, soc') := SocStage(cfg, soc, target, dtS);
      var dtH := dtS / 3600.0;
      && (p >= 0.0 ==> soc' == soc - (p / cfg.etaDischarge) * dtH)
      && (p < 0.0 ==> soc' == soc + ((-p) * cfg.etaCharge) * dtH)
  {
    var (p, soc') := SocStage(cfg, soc, target, dtS);
    var dtH := dtS / 3600.0;
    if target >= 0.0 {
      SocStageDischarge(cfg, soc, target, dtS);
    } else {
      SocStageCharge(cfg, soc, target, dtS);
      if p == 0.0 {
        assert soc' == soc + (0.0 * cfg.etaCharge) * dtH;
      }
    }
  }

  /** The SOC moves by exactly the energy of the delivered power: `-(p/eta_d)*dt_h` when discharging and
      `+|p|*eta_c*dt_h` when charging. */
  lemma SocChange(cfg: BessConfig, s: BessState, dtS: real)
    requires cfg.Valid() && Inv(cfg, s) && dtS >= 0.0
    ensures var r := AfterStep(cfg, s, dtS);
      var dtH := dtS / 3600.0;
      && (r.currentPowerMw >= 0.0 ==> r.socMwh == s.socMwh - (r.currentPowerMw / cfg.etaDischarge) * dtH)
      && (r.currentPowerMw < 0.0 ==> r.socMwh == s.socMwh + ((-r.currentPowerMw) * cfg.etaCharge) * dtH)
  {
    var limited := LimitStage(cfg, RampStage(cfg, s.currentPowerMw, s.cmdPowerMw, dtS));
    SocStageEnergy(cfg, s.socMwh, limited, dtS);
  }

  /** Every step delivers power within `[-p_charge_max, p_discharge_max]`, keeps the SOC in `[0, capacity]`,
      and leaves the command alone. */
  lemma StepKeepsInv(cfg: BessConfig, s: BessState, dtS: real)
    requires cfg.Valid() && Inv(cfg, s) && dtS >= 0.0
    ensures var r := AfterStep(cfg, s, dtS);
      && Inv(cfg, r)
      && r.cmdPowerMw == s.cmdPowerMw
      && (r.currentPowerMw > 0.0 ==> r.socMwh <= s.socMwh)
      && (r.currentPowerMw < 0.0 ==> r.socMwh >= s.socMwh)
  {
    var ramped := RampStage(cfg, s.currentPowerMw, s.cmdPowerMw, dtS);
    LimitStageBounds(cfg, ramped);
    var limited := LimitStage(cfg, ramped);
    if limited >= 0.0 {
      SocStageDischarge(cfg, s.socMwh, limited, dtS);
    } else {
      SocStageCharge(cfg, s.socMwh, limited, dtS);
    }
  }

  // ---------------------------------------------------------------- the plant object

  class BessPlant {
    const name: string
    const config: BessConfig
    var socMwh: real
    var cmdPowerMw: real
    var currentPowerMw: real

    function Snapshot(): BessState
      reads this
    {
      BessState(socMwh, cmdPowerMw, currentPowerMw)
    }

    /** Starts at the given SOC with no command and no output (the plant base class starts at 0 MW). */
    constructor (name: string, capacityMwh: real, socInitMwh: real, pDischargeMaxMw: real, pChargeMaxMw: real,
                 etaDischarge: real := DefaultEta, etaCharge: real := DefaultEta,
                 rampMwPerMin: Option<real> := None)
      ensures this.name == name
      ensures config == BessConfig(capacityMwh, pDischargeMaxMw, pChargeMaxMw, etaDischarge, etaCharge,
                                   RampPerSecond(rampMwPerMin))
      ensures Snapshot() == BessState(socInitMwh, 0.0, 0.0)
    {
      this.name := name;
      config := BessConfig(capacityMwh, pDischargeMaxMw, pChargeMaxMw, etaDischarge, etaCharge,
                           RampPerSecond(rampMwPerMin));
      socMwh := socInitMwh;
      cmdPowerMw := 0.0;
      currentPowerMw := 0.0;
    }

    /** `command_power`: the command is stored unchanged. */
    method CommandPower(powerMw: real)
      modifies this
      ensures Snapshot() == old(Snapshot()).(cmdPowerMw := powerMw)
    {
      cmdPowerMw := powerMw;
    }

    /** `step(now, dt_s)`; the wall-clock argument is unused and left out. Returns the new output. */
    method Step(dtS: real) returns (p: real)
      requires config.Defined()
      modifies this
      ensures Snapshot() == AfterStep(config, old(Snapshot()), dtS)
      ensures p == currentPowerMw
    {
      var target := cmdPowerMw;
      match config.rampMwPerS {
        case Some(r) =>
          var maxDelta := r * dtS;
          target := Max(Min(target, currentPowerMw + maxDelta), currentPowerMw - maxDelta);
        case None =>
      }
      assert target == RampStage(config, currentPowerMw, cmdPowerMw, dtS);
      if target >= 0.0 {
        target := Min(target, config.pDischargeMaxMw);
      } else {
        target := Max(target, -config.pChargeMaxMw);
      }
      p := ClipToSoc(target, dtS);
    }

    /** The SOC part of `step`: cut the power back to what the SOC allows, move the SOC, and make the result
        the current output. */
    method ClipToSoc(target: real, dtS: real) returns (p: real)
      requires config.Defined()
      modifies this
      ensures p == SocStage(config, old(socMwh), target, dtS).0
      ensures socMwh == SocStage(config, old(socMwh), target, dtS).1
      ensures currentPowerMw == p && cmdPowerMw == old(cmdPowerMw)
    {
      var dtH := dtS / 3600.0;
      p := target;
      if p >= 0.0 {
        var energyNeeded := EnergyOut(config, p, dtH);
        if energyNeeded > socMwh {
          p := DischargeCap(config, socMwh, dtH);
          energyNeeded := EnergyOut(config, p, dtH);
        }
        socMwh := socMwh - energyNeeded;
      } else {
        var chargePower := -p;
        var energyIn := EnergyIn(config, chargePower, dtH);
        if socMwh + energyIn > config.capacityMwh {
          chargePower := ChargeCap(config, config.capacityMwh - socMwh, dtH);
          p := -chargePower;
          energyIn := EnergyIn(config, chargePower, dtH);
        }
        socMwh := socMwh + energyIn;
      }
      currentPowerMw := p;
    }
  }
}
