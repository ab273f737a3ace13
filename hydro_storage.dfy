/**
 * The bidirectional hydro-storage (pumped-hydro) unit: +MW discharges to the grid, -MW charges from it.
 * A request is clipped to the nameplate envelope and the minimum operating magnitudes, the setpoint ramps
 * toward it, and the result is clipped to what the stored energy (SoE) allows in the step.
 */
module HydroStorageU4 {
  import opened Numerics
  import opened Wrappers

  /** The cosmetic state reported after each step. */
  datatype StorageState = Idle | Charging | Discharging | Ramping

  datatype HydroStorageConfig = HydroStorageConfig(
    maxDischargeMw: real, maxChargeMw: real,
    minDischargeMw: real, minChargeMw: real,
    rampMwPerMin: real,
    capacityMwh: real, initialSoeMwh: real,
    etaCharge: real, etaDischarge: real,
    eps: real)
  {
    /** Positive magnitudes with the minimums inside the envelope, positive efficiencies. */
    predicate Valid()
    {
      && 0.0 <= minDischargeMw <= maxDischargeMw
      && 0.0 <= minChargeMw <= maxChargeMw
      && 0.0 <= capacityMwh
      && etaCharge > 0.0 && etaDischarge > 0.0
      && eps >= 0.0
    }
  }

  /** The dataclass defaults. */
  const DefaultConfig := HydroStorageConfig(12.0, 0.0, 7.0, 0.0, 6.0, 10000.0, 10000.0, 1.0, 1.0, 0.000000001)

  /** The fields that `request_power` and `step` change, as one value. */
  datatype Storage = Storage(state: StorageState, setpointMw: real, targetMw: real, soeMwh: real,
                             energyOutMwh: real, energyInMwh: real)

  /** The initial SoE is the configured one clamped into `[0, capacity]`. */
  function InitialSoe(cfg: HydroStorageConfig): (r: real)
    ensures 0.0 <= r
    ensures cfg.capacityMwh >= 0.0 ==> r <= cfg.capacityMwh
    ensures 0.0 <= cfg.initialSoeMwh <= cfg.capacityMwh ==> r == cfg.initialSoeMwh
    ensures cfg.initialSoeMwh > cfg.capacityMwh >= 0.0 ==> r == cfg.capacityMwh
    ensures cfg.initialSoeMwh < 0.0 ==> r == 0.0
  {
    Max(0.0, Min(cfg.capacityMwh, cfg.initialSoeMwh))
  }

  /** A new unit: idle, no setpoint, no target, SoE clamped, nothing accounted. */
  function Initial(cfg: HydroStorageConfig): Storage
  {
    Storage(Idle, 0.0, 0.0, InitialSoe(cfg), 0.0, 0.0)
  }

  /** What every reachable unit satisfies (given a valid configuration). */
  predicate Inv(cfg: HydroStorageConfig, u: Storage)
  {
    && -cfg.maxChargeMw <= u.setpointMw <= cfg.maxDischargeMw
    && -cfg.maxChargeMw <= u.targetMw <= cfg.maxDischargeMw
    && 0.0 <= u.soeMwh <= cfg.capacityMwh
  }

  // ---------------------------------------------------------------- clipping helpers

  /** The nameplate envelope `max(-max_charge, min(max_discharge, mw))`. */
  function Envelope(cfg: HydroStorageConfig, mw: real): (r: real)
    ensures cfg.maxDischargeMw >= -cfg.maxChargeMw ==> -cfg.maxChargeMw <= r <= cfg.maxDischargeMw
    ensures -cfg.maxChargeMw <= mw <= cfg.maxDischargeMw ==> r == mw
    ensures mw > cfg.maxDischargeMw >= -cfg.maxChargeMw ==> r == cfg.maxDischargeMw
    ensures mw < -cfg.maxChargeMw ==> r == -cfg.maxChargeMw
  {
    Max(-cfg.maxChargeMw, Min(cfg.maxDischargeMw, mw))
  }

  /** `_ramp_limit`: the largest move in `dtMin` minutes, never negative. */
  function RampLimit(cfg: HydroStorageConfig, dtMin: real): (r: real)
    ensures r >= 0.0
    ensures cfg.rampMwPerMin * dtMin >= 0.0 ==> r == cfg.rampMwPerMin * dtMin
  {
    Max(0.0, cfg.rampMwPerMin * dtMin)
  }

  /** `_clip_to_nameplate`: envelope first, tiny values become true zero, non-zero values are pushed out to
      the minimum magnitude of their direction. */
  function ClipToNameplate(cfg: HydroStorageConfig, mw: real): (r: real)
  {
    var e := Envelope(cfg, mw);
    if Abs(e) <= cfg.eps then 0.0
    else if e > 0.0 then Max(cfg.minDischargeMw, e)
    else Min(-cfg.minChargeMw, e)
  }

  /** `_clip_to_soe`: shrink the power to what the stored energy (discharge) or the headroom (charge) allows
      over `dtMin` minutes; a non-positive step keeps the current setpoint. */
  function ClipToSoe(cfg: HydroStorageConfig, u: Storage, mw: real, dtMin: real): real
  {
    if dtMin <= 0.0 then u.setpointMw
    else if Abs(mw) <= cfg.eps then 0.0
    else
      var dtH := dtMin / 60.0;
      if mw > 0.0 then
        var eOutMax := Max(0.0, u.soeMwh * cfg.etaDischarge);
        var pMaxFeasible := if dtH > 0.0 then eOutMax / dtH else 0.0;
        Max(0.0, Min(mw, pMaxFeasible))
      else
        var headroom := Max(0.0, cfg.capacityMwh - u.soeMwh);
        var eInMaxGrid := if cfg.etaCharge > 0.0 then headroom / cfg.etaCharge else 0.0;
        var pAbsLimit := if dtH > 0.0 then eInMaxGrid / dtH else 0.0;
        Min(0.0, Max(mw, -pAbsLimit))
  }

  /** The ramp stage of `step`: move from `sp` toward `desired` by at most `ramp`, snapping within `eps`. */
  function RampToward(sp: real, desired: real, ramp: real, eps: real): real
  {
    if desired > sp + eps then Min(sp + ramp, desired)
    else if desired < sp - eps then Max(sp - ramp, desired)
    else desired
  }

  /** The SoE and accounting update for a delivered power `p` over `dtH` hours. */
  function Account(cfg: HydroStorageConfig, u: Storage, p: real, dtH: real): Storage
  {
    if p > 0.0 then
      var eOut := p * dtH;
      var eFromRes := if cfg.etaDischarge > 0.0 then eOut / cfg.etaDischarge else 0.0;
      u.(energyOutMwh := u.energyOutMwh + eOut, soeMwh := Max(0.0, u.soeMwh - eFromRes))
    else if p < 0.0 then
      var eIn := (-p) * dtH;
      var eToRes := eIn * cfg.etaCharge;
      u.(energyInMwh := u.energyInMwh + eIn, soeMwh := Min(cfg.capacityMwh, u.soeMwh + eToRes))
    else u
  }

  /** The cosmetic state for the new setpoint `sp`, the stored target and the nameplate-clipped `desired`. */
  function Classify(sp: real, target: real, desired: real, eps: real): StorageState
  {
    if Abs(sp) <= eps && Abs(target) <= eps then Idle
    else if Abs(sp - desired) > eps then Ramping
    else if sp > 0.0 then Discharging
    else Charging
  }

  // ---------------------------------------------------------------- transitions

  /** `request_power(mw)`: the target is `mw` clipped to the nameplate envelope; nothing else changes. */
  function AfterRequest(cfg: HydroStorageConfig, u: Storage, mw: real): Storage
  {
    u.(targetMw := Envelope(cfg, mw))
  }

  /** One `step(dt_min)`: nameplate, ramp, SoE clip, accounting, new setpoint and state; a no-op for a
      non-positive step. */
  function AfterStep(cfg: HydroStorageConfig, u: Storage, dtMin: real): Storage
  {
    if dtMin <= 0.0 then u
    else
      var desired := ClipToNameplate(cfg, u.targetMw);
      var pTmp := RampToward(u.setpointMw, desired, RampLimit(cfg, dtMin), cfg.eps);
      var p := ClipToSoe(cfg, u, pTmp, dtMin);
      var v := Account(cfg, u, p, dtMin / 60.0);
      v.(setpointMw := p, state := Classify(p, u.targetMw, desired, cfg.eps))
  }

  /** `is_running`. */
  predicate Running(cfg: HydroStorageConfig, u: Storage)
  {
    Abs(u.setpointMw) > cfg.eps || Abs(u.targetMw) > cfg.eps
  }

  // ---------------------------------------------------------------- properties

  /** A new unit satisfies the invariant. */
  lemma InitialInv(cfg: HydroStorageConfig)
    requires cfg.Valid()
    ensures Inv(cfg, Initial(cfg))
    ensures Initial(cfg).soeMwh == Clip(cfg.initialSoeMwh, 0.0, cfg.capacityMwh)
  {
  }

  /** `request_power` stores the request clamped into `[-max_charge, max_discharge]` and keeps the invariant. */
  lemma RequestClampsTarget(cfg: HydroStorageConfig, u: Storage, mw: real)
    requires cfg.Valid()
    ensures var r := AfterRequest(cfg, u, mw);
      && r.targetMw == Clip(mw, -cfg.maxChargeMw, cfg.maxDischargeMw)
      && r == u.(targetMw := r.targetMw)
      && (Inv(cfg, u) ==> Inv(cfg, r))
  {
  }

  /** `_clip_to_nameplate`: zero for tiny values, at least the discharge minimum for positive ones, at most
      minus the charge minimum for negative ones, and always inside the envelope, with the request's sign. */
  lemma NameplateClip(cfg: HydroStorageConfig, mw: real)
    requires cfg.Valid()
    ensures var r := ClipToNameplate(cfg, mw);
      var e := Envelope(cfg, mw);
      && -cfg.maxChargeMw <= r <= cfg.maxDischargeMw
      && (Abs(e) <= cfg.eps ==> r == 0.0)
      && (Abs(e) > cfg.eps && e > 0.0 ==> cfg.minDischargeMw <= r && e <= r && mw > 0.0)
      && (Abs(e) > cfg.eps && e < 0.0 ==> r <= -cfg.minChargeMw && r <= e && mw < 0.0)
      && (r == 0.0 || Abs(r) > cfg.eps)
  {
  }

  /** The ramp stage moves toward `desired` by at most the ramp (or lands on it within `eps`) and never
      overshoots it. */
  lemma RampStage(sp: real, desired: real, ramp: real, eps: real)
    requires ramp >= 0.0 && eps >= 0.0
    ensures var p := RampToward(sp, desired, ramp, eps);
      && (desired >= sp ==> sp <= p <= desired)
      && (desired <= sp ==> desired <= p <= sp)
      && Abs(p - sp) <= Max(ramp, eps)
      && (Abs(desired - sp) <= eps ==> p == desired)
  {
  }

  /** `_clip_to_soe` over a positive step never flips the sign, only shrinks the magnitude, discharges at most
      `soe*eta_d/dt_h` and charges at most `(capacity - soe)/eta_c/dt_h`. */
  lemma SoeClip(cfg: HydroStorageConfig, u: Storage, mw: real, dtMin: real)
    requires cfg.Valid() && 0.0 <= u.soeMwh <= cfg.capacityMwh && dtMin > 0.0
    ensures var r := ClipToSoe(cfg, u, mw, dtMin);
      var dtH := dtMin / 60.0;
      && (mw >= 0.0 ==> 0.0 <= r <= mw)
      && (mw <= 0.0 ==> mw <= r <= 0.0)
      && r <= u.soeMwh * cfg.etaDischarge / dtH
      && -r <= (cfg.capacityMwh - u.soeMwh) / cfg.etaCharge / dtH
  {
    var dtH := dtMin / 60.0;
    assert 0.0 <= u.soeMwh * cfg.etaDischarge / dtH;
    assert 0.0 <= (cfg.capacityMwh - u.soeMwh) / cfg.etaCharge / dtH;
  }

  /** A non-positive step changes nothing (and so returns the current setpoint). */
  lemma NonPositiveStepIsNoOp(cfg: HydroStorageConfig, u: Storage, dtMin: real)
    requires dtMin <= 0.0
    ensures AfterStep(cfg, u, dtMin) == u
  {
  }

  /** Discharging `p` over `dtH` hours keeps the SoE in `[0, soe]`; charging keeps it in `[soe, capacity]`. */
  lemma AccountBounds(cfg: HydroStorageConfig, u: Storage, p: real, dtH: real)
    requires cfg.Valid() && 0.0 <= u.soeMwh <= cfg.capacityMwh && dtH > 0.0
    ensures var v := Account(cfg, u, p, dtH);
      && 0.0 <= v.soeMwh <= cfg.capacityMwh
      && (p > 0.0 ==> v.soeMwh <= u.soeMwh && v.energyOutMwh == u.energyOutMwh + p * dtH
                      && v.energyInMwh == u.energyInMwh)
      && (p < 0.0 ==> v.soeMwh >= u.soeMwh && v.energyInMwh == u.energyInMwh - p * dtH
                      && v.energyOutMwh == u.energyOutMwh)
      && (p == 0.0 ==> v == u)
      && v.energyOutMwh >= u.energyOutMwh && v.energyInMwh >= u.energyInMwh
  {
    if p > 0.0 {
      assert p * dtH > 0.0;
      assert p * dtH / cfg.etaDischarge > 0.0;
    } else if p < 0.0 {
      assert (-p) * dtH > 0.0;
      assert (-p) * dtH * cfg.etaCharge > 0.0;
    }
  }

  /** The setpoint after the ramp and SoE stages stays inside the nameplate envelope. */
  lemma StepSetpointBounds(cfg: HydroStorageConfig, u: Storage, dtMin: real)
    requires cfg.Valid() && Inv(cfg, u) && dtMin > 0.0
    ensures -cfg.maxChargeMw <= AfterStep(cfg, u, dtMin).setpointMw <= cfg.maxDischargeMw
  {
    var desired := ClipToNameplate(cfg, u.targetMw);
    NameplateClip(cfg, u.targetMw);
    var ramp := RampLimit(cfg, dtMin);
    RampStage(u.setpointMw, desired, ramp, cfg.eps);
    var pTmp := RampToward(u.setpointMw, desired, ramp, cfg.eps);
    SoeClip(cfg, u, pTmp, dtMin);
  }

  /** Every step keeps power in the envelope and the SoE in `[0, capacity]`, and the energy counters never
      decrease. */
  lemma StepKeepsInv(cfg: HydroStorageConfig, u: Storage, dtMin: real)
    requires cfg.Valid() && Inv(cfg, u)
    ensures var r := AfterStep(cfg, u, dtMin);
      && Inv(cfg, r)
      && r.energyOutMwh >= u.energyOutMwh && r.energyInMwh >= u.energyInMwh
      && r.targetMw == u.targetMw
  {
    if dtMin > 0.0 {
      StepSetpointBounds(cfg, u, dtMin);
      var desired := ClipToNameplate(cfg, u.targetMw);
      var pTmp := RampToward(u.setpointMw, desired, RampLimit(cfg, dtMin), cfg.eps);
      var p := ClipToSoe(cfg, u, pTmp, dtMin);
      AccountBounds(cfg, u, p, dtMin / 60.0);
    }
  }

  /** The state set by `step`: IDLE iff setpoint and target are both within `eps` of 0; otherwise RAMPING iff
      the setpoint is more than `eps` from `desired`; otherwise DISCHARGING or CHARGING by the sign. */
  lemma StepState(cfg: HydroStorageConfig, u: Storage, dtMin: real)
    requires dtMin > 0.0
    ensures var r := AfterStep(cfg, u, dtMin);
      var desired := ClipToNameplate(cfg, u.targetMw);
      var idle := Abs(r.setpointMw) <= cfg.eps && Abs(r.targetMw) <= cfg.eps;
      && (r.state == Idle <==> idle)
      && (r.state == Ramping <==> !idle && Abs(r.setpointMw - desired) > cfg.eps)
      && (r.state == Discharging <==> !idle && Abs(r.setpointMw - desired) <= cfg.eps && r.setpointMw > 0.0)
      && (r.state == Charging <==> !idle && Abs(r.setpointMw - desired) <= cfg.eps && r.setpointMw <= 0.0)
  {
  }

  // ---------------------------------------------------------------- energy look-ahead

  /**
   * The look-ahead of `energy_over` from `u`: while more than `LoopTolerance` minutes remain, step the unit
   * by `min(step, remaining)` and add the trapezoid between the setpoints before and after the sub-step.
   * Returns the NET energy to the grid (MWh; discharge positive, charge negative) and the final state.
   */
  function Trapezoid(cfg: HydroStorageConfig, u: Storage, remaining: real, stepMinutes: real): (real, Storage)
    requires stepMinutes > 0.0
    decreases StepsLeft(remaining, stepMinutes)
  {
    if remaining <= LoopTolerance then (0.0, u)
    else
      var dt := Min(stepMinutes, remaining);
      var v := AfterStep(cfg, u, dt);
      StepsLeftDrops(remaining, stepMinutes);
      var rest := Trapezoid(cfg, v, remaining - dt, stepMinutes);
      (Trapezium(u.setpointMw, v.setpointMw, dt) + rest.0, rest.1)
  }

  /** One pass of the look-ahead: the trapezoid of the first sub-step plus the look-ahead from the stepped unit. */
  lemma TrapezoidUnfold(cfg: HydroStorageConfig, u: Storage, remaining: real, stepMinutes: real, dt: real, v: Storage)
    requires stepMinutes > 0.0 && remaining > LoopTolerance
    requires dt == Min(stepMinutes, remaining) && v == AfterStep(cfg, u, dt)
    ensures Trapezoid(cfg, u, remaining, stepMinutes).0
              == Trapezium(u.setpointMw, v.setpointMw, dt) + Trapezoid(cfg, v, remaining - dt, stepMinutes).0
    ensures Trapezoid(cfg, u, remaining, stepMinutes).1 == Trapezoid(cfg, v, remaining - dt, stepMinutes).1
  {
  }

  /** The look-ahead keeps the invariant, the target and the growth of the energy counters, and its net
      energy lies between charging at `max_charge_mw` and discharging at `max_discharge_mw` over the horizon. */
  lemma {:induction false} TrapezoidBounds(cfg: HydroStorageConfig, u: Storage, remaining: real, stepMinutes: real)
    requires cfg.Valid() && Inv(cfg, u) && stepMinutes > 0.0 && remaining >= 0.0
    ensures var v := Trapezoid(cfg, u, remaining, stepMinutes).1;
      && Inv(cfg, v) && v.targetMw == u.targetMw
      && v.energyOutMwh >= u.energyOutMwh && v.energyInMwh >= u.energyInMwh
    ensures MwhOver(-cfg.maxChargeMw, remaining) <= Trapezoid(cfg, u, remaining, stepMinutes).0
              <= MwhOver(cfg.maxDischargeMw, remaining)
    decreases StepsLeft(remaining, stepMinutes)
  {
    if remaining <= LoopTolerance {
      TrapezoidBetween(0.0, 0.0, -cfg.maxChargeMw, cfg.maxDischargeMw, remaining);
    } else {
      var dt := Min(stepMinutes, remaining);
      var v := AfterStep(cfg, u, dt);
      TrapezoidUnfold(cfg, u, remaining, stepMinutes, dt, v);
      StepKeepsInv(cfg, u, dt);
      StepsLeftDrops(remaining, stepMinutes);
      TrapezoidBounds(cfg, v, remaining - dt, stepMinutes);
      TrapezoidBetween(u.setpointMw, v.setpointMw, -cfg.maxChargeMw, cfg.maxDischargeMw, dt);
      EnergySplit(-cfg.maxChargeMw, dt, remaining - dt);
      EnergySplit(cfg.maxDischargeMw, dt, remaining - dt);
      assert dt + (remaining - dt) == remaining;
    }
  }

  /** A step of a unit at rest (no output, no target) keeps it at rest. */
  lemma AtRestStep(cfg: HydroStorageConfig, u: Storage, dt: real)
    requires cfg.Valid() && u.setpointMw == 0.0 && u.targetMw == 0.0
    ensures var v := AfterStep(cfg, u, dt);
      v.setpointMw == 0.0 && v.targetMw == 0.0
  {
  }

  /** A unit at rest stays at rest over the look-ahead and exchanges no energy with the grid. */
  lemma {:induction false} AtRestEnergy(cfg: HydroStorageConfig, u: Storage, remaining: real, stepMinutes: real)
    requires cfg.Valid() && stepMinutes > 0.0 && u.setpointMw == 0.0 && u.targetMw == 0.0
    ensures var r := Trapezoid(cfg, u, remaining, stepMinutes);
      r.0 == 0.0 && r.1.setpointMw == 0.0 && r.1.targetMw == 0.0
    decreases StepsLeft(remaining, stepMinutes)
  {
    if remaining > LoopTolerance {
      var dt := Min(stepMinutes, remaining);
      var v := AfterStep(cfg, u, dt);
      AtRestStep(cfg, u, dt);
      TrapezoidUnfold(cfg, u, remaining, stepMinutes, dt, v);
      StepsLeftDrops(remaining, stepMinutes);
      AtRestEnergy(cfg, v, remaining - dt, stepMinutes);
      TrapeziumConstant(0.0, dt);
    }
  }

  /**
   * The loop of `energy_over` run on a copy `u`: it computes the look-ahead `Trapezoid`. A non-positive
   * horizon or step returns 0 and leaves the copy as it was.
   */
  method Integrate(cfg: HydroStorageConfig, u: Storage, totalMinutes: real, stepMinutes: real)
    returns (netEnergy: real, sim: Storage)
    ensures totalMinutes <= 0.0 || stepMinutes <= 0.0 ==> netEnergy == 0.0 && sim == u
    ensures totalMinutes > 0.0 && stepMinutes > 0.0 ==> (netEnergy, sim) == Trapezoid(cfg, u, totalMinutes, stepMinutes)
  {
    if totalMinutes <= 0.0 || stepMinutes <= 0.0 {
      return 0.0, u;
    }
    sim := u;
    netEnergy := 0.0;
    var remaining := totalMinutes;
    var pPrev := sim.setpointMw;
    while remaining > LoopTolerance
      invariant 0.0 <= remaining <= totalMinutes
      invariant pPrev == sim.setpointMw
      invariant netEnergy + Trapezoid(cfg, sim, remaining, stepMinutes).0 == Trapezoid(cfg, u, totalMinutes, stepMinutes).0
      invariant Trapezoid(cfg, sim, remaining, stepMinutes).1 == Trapezoid(cfg, u, totalMinutes, stepMinutes).1
      decreases StepsLeft(remaining, stepMinutes)
    {
      var dt := Min(stepMinutes, remaining);
      var next := AfterStep(cfg, sim, dt);
      TrapezoidUnfold(cfg, sim, remaining, stepMinutes, dt, next);
      StepsLeftDrops(remaining, stepMinutes);
      sim := next;
      var pNew := sim.setpointMw;
      netEnergy := netEnergy + Trapezium(pPrev, pNew, dt);
      pPrev := pNew;
      remaining := remaining - dt;
    }
  }

  // ---------------------------------------------------------------- the unit object

  class HydroStorageUnit {
    const name: string
    const config: HydroStorageConfig
    var state: StorageState
    var setpointMw: real
    var targetMw: real
    var soeMwh: real
    var energyOutMwh: real
    var energyInMwh: real

    function Snapshot(): Storage
      reads this
    {
      Storage(state, setpointMw, targetMw, soeMwh, energyOutMwh, energyInMwh)
    }

    /** A missing configuration means the defaults; the initial SoE is clamped into `[0, capacity]`. */
    constructor (name: string, config: Option<HydroStorageConfig>)
      ensures this.name == name && this.config == config.GetOr(DefaultConfig)
      ensures Snapshot() == Initial(this.config)
    {
      this.name := name;
      this.config := config.GetOr(DefaultConfig);
      state := Idle;
      setpointMw := 0.0;
      targetMw := 0.0;
      soeMwh := Max(0.0, Min(config.GetOr(DefaultConfig).capacityMwh, config.GetOr(DefaultConfig).initialSoeMwh));
      energyOutMwh := 0.0;
      energyInMwh := 0.0;
    }

    method RequestPower(mw: real)
      modifies this
      ensures Snapshot() == AfterRequest(config, old(Snapshot()), mw)
    {
      targetMw := Max(-config.maxChargeMw, Min(config.maxDischargeMw, mw));
    }

    /** The turbine-interface alias of `request_power`. */
    method RequestOutput(mw: real)
      modifies this
      ensures Snapshot() == AfterRequest(config, old(Snapshot()), mw)
    {
      RequestPower(mw);
    }

    /** Stage 4 of `step`: SoE and energy accounting for the delivered power `p`. */
    method AccountEnergy(p: real, dtH: real)
      modifies this
      ensures Snapshot() == Account(config, old(Snapshot()), p, dtH)
    {
      if p > 0.0 {
        var eOut := p * dtH;
        var eFromRes := if config.etaDischarge > 0.0 then eOut / config.etaDischarge else 0.0;
        energyOutMwh := energyOutMwh + eOut;
        soeMwh := Max(0.0, soeMwh - eFromRes);
      } else if p < 0.0 {
        var eIn := (-p) * dtH;
        var eToRes := eIn * config.etaCharge;
        energyInMwh := energyInMwh + eIn;
        soeMwh := Min(config.capacityMwh, soeMwh + eToRes);
      }
    }

    /** The cosmetic state at the end of `step`. */
    method ReportState(desired: real)
      modifies this
      ensures Snapshot() == old(Snapshot()).(state := Classify(setpointMw, targetMw, desired, config.eps))
    {
      if Abs(setpointMw) <= config.eps && Abs(targetMw) <= config.eps {
        state := Idle;
      } else if Abs(setpointMw - desired) > config.eps {
        state := Ramping;
      } else {
        state := if setpointMw > 0.0 then Discharging else Charging;
      }
    }

    /** `step(dt_min)`: returns the new setpoint, or the current one unchanged for a non-positive step. */
    method Step(dtMin: real) returns (mw: real)
      modifies this
      ensures Snapshot() == AfterStep(config, old(Snapshot()), dtMin)
      ensures mw == setpointMw
    {
      if dtMin <= 0.0 {
        return setpointMw;
      }
      var desired := ClipToNameplate(config, targetMw);
      var ramp := RampLimit(config, dtMin);
      var pTmp;
      if desired > setpointMw + config.eps {
        pTmp := Min(setpointMw + ramp, desired);
      } else if desired < setpointMw - config.eps {
        pTmp := Max(setpointMw - ramp, desired);
      } else {
        pTmp := desired;
      }
      assert pTmp == RampToward(setpointMw, desired, ramp, config.eps);
      ghost var before := Snapshot();
      var p := ClipToSoe(config, Snapshot(), pTmp, dtMin);
      AccountEnergy(p, dtMin / 60.0);
      setpointMw := p;
      assert Snapshot() == Account(config, before, p, dtMin / 60.0).(setpointMw := p);
      ReportState(desired);
      mw := setpointMw;
    }

    predicate IsRunning()
      reads this
    {
      Running(config, Snapshot())
    }

    /** `energy_over`: net energy to the grid, integrated on a copy (`mutate == false`) or on the unit. */
    method EnergyOver(totalMinutes: real, stepMinutes: real, mutate: bool) returns (netEnergy: real)
      modifies this
      ensures !mutate ==> Snapshot() == old(Snapshot())
      ensures totalMinutes <= 0.0 || stepMinutes <= 0.0 ==> netEnergy == 0.0 && Snapshot() == old(Snapshot())
      ensures totalMinutes > 0.0 && stepMinutes > 0.0 ==>
                var r := Trapezoid(config, old(Snapshot()), totalMinutes, stepMinutes);
                netEnergy == r.0 && (mutate ==> Snapshot() == r.1)
    {
      var sim;
      netEnergy, sim := Integrate(config, Snapshot(), totalMinutes, stepMinutes);
      if mutate {
        state, setpointMw, targetMw, soeMwh, energyOutMwh, energyInMwh :=
          sim.state, sim.setpointMw, sim.targetMw, sim.soeMwh, sim.energyOutMwh, sim.energyInMwh;
      }
    }

    /** `energy_in_minutes`: one-minute sub-steps. */
    method EnergyInMinutes(minutes: real, mutate: bool) returns (netEnergy: real)
      modifies this
      ensures !mutate ==> Snapshot() == old(Snapshot())
      ensures minutes <= 0.0 ==> netEnergy == 0.0 && Snapshot() == old(Snapshot())
      ensures minutes > 0.0 ==>
                var r := Trapezoid(config, old(Snapshot()), minutes, 1.0);
                netEnergy == r.0 && (mutate ==> Snapshot() == r.1)
    {
      netEnergy := EnergyOver(minutes, 1.0, mutate);
    }
  }
}
