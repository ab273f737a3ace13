/**
 * The five-state hydro turbine unit (START, RAMP_UP, NORMAL, RAMP_DOWN, SHUTDOWN) with start and
 * stop timers, a ramp limit, an operating window, startup-cost and energy accounting.
 * Times are minutes (`dtMin`) and seconds (`timerS`); powers are MW; energies MWh.
 */
module TurbineUnitU3 {
  import opened Numerics
  import opened Wrappers

  datatype UnitState = Start | RampUp | Normal | RampDown | Shutdown

  datatype TurbineUnitConfig = TurbineUnitConfig(
    minMw: real, maxMw: real, rampMwPerMin: real,
    startupTimeMin: real, shutdownTimeMin: real, startupCost: real)
  {
    /** The operating window the invariants rely on. */
    predicate Valid() { 0.0 <= minMw <= maxMw }
  }

  /** The dataclass defaults. */
  const DefaultConfig := TurbineUnitConfig(7.0, 12.0, 1.0, 3.0, 5.0, 1000.0)

  /** Tolerance for "at target". */
  const Eps: real := 0.000000001

  /** The fields that `request_output` and `step` change, as one value (what `copy.deepcopy` keeps). */
  datatype Unit = Unit(state: UnitState, setpointMw: real, targetMw: real, timerS: real,
                       accumStartupCost: real, energyMwh: real)

  /** A new unit: fully shut down, no output, no timer, nothing accumulated. */
  const Initial := Unit(Shutdown, 0.0, 0.0, 0.0, 0.0, 0.0)

  /** `is_running`. */
  predicate Running(s: UnitState) { s == RampUp || s == Normal || s == RampDown }

  /** What every reachable unit satisfies (given a valid configuration). */
  predicate Inv(cfg: TurbineUnitConfig, u: Unit)
  {
    && 0.0 <= u.setpointMw <= cfg.maxMw
    && u.targetMw >= 0.0
    && (u.state == Start || u.state == Shutdown ==> u.setpointMw == 0.0)
  }

  // ---------------------------------------------------------------- state helpers

  function EnterStart(cfg: TurbineUnitConfig, u: Unit): Unit
  {
    u.(state := Start, setpointMw := 0.0, timerS := cfg.startupTimeMin * 60.0)
  }

  function EnterShutdown(cfg: TurbineUnitConfig, u: Unit): Unit
  {
    u.(state := Shutdown, setpointMw := 0.0, timerS := cfg.shutdownTimeMin * 60.0)
  }

  /** Leaving START charges the startup cost and enters RAMP_UP. */
  function FinishStart(cfg: TurbineUnitConfig, u: Unit): Unit
  {
    u.(accumStartupCost := u.accumStartupCost + cfg.startupCost, state := RampUp)
  }

  // ---------------------------------------------------------------- physics helpers

  /** `_ramp_limit`: the largest move in `dtMin` minutes, never negative. */
  function RampLimit(cfg: TurbineUnitConfig, dtMin: real): (r: real)
    ensures r >= 0.0
    ensures cfg.rampMwPerMin * dtMin >= 0.0 ==> r == cfg.rampMwPerMin * dtMin
    ensures cfg.rampMwPerMin * dtMin < 0.0 ==> r == 0.0
  {
    Max(0.0, cfg.rampMwPerMin * dtMin)
  }

  /** `_clip_operating_window`: 0 when there is no positive target, else `mw` clipped to `[min_mw, max_mw]`. */
  function ClipOperatingWindow(cfg: TurbineUnitConfig, targetMw: real, mw: real): (r: real)
    ensures targetMw <= 0.0 ==> r == 0.0
    ensures targetMw > 0.0 && cfg.Valid() ==> cfg.minMw <= r <= cfg.maxMw
    ensures targetMw > 0.0 && cfg.minMw <= mw <= cfg.maxMw ==> r == mw
  {
    if targetMw <= 0.0 then 0.0 else Min(Max(mw, cfg.minMw), cfg.maxMw)
  }

  // ---------------------------------------------------------------- transitions

  /** `request_output(mw)`: store the non-negative target and apply the three command rules in order. */
  function AfterRequest(cfg: TurbineUnitConfig, u: Unit, mw: real): Unit
  {
    var u1 := u.(targetMw := Max(0.0, mw));
    var u2 := if u1.state == Shutdown && u1.targetMw > 0.0 && u1.timerS <= 0.0 then EnterStart(cfg, u1) else u1;
    var u3 := if u2.targetMw == 0.0 && (u2.state == RampUp || u2.state == Normal) then u2.(state := RampDown) else u2;
    if u3.targetMw > 0.0 && u3.state == RampDown then u3.(state := RampUp) else u3
  }

  /** The RAMP_UP/NORMAL move of the setpoint toward `desired` (the three-way branch of `step`). */
  function Track(cfg: TurbineUnitConfig, sp: real, desired: real, ramp: real): real
  {
    if desired > sp + Eps then Min(sp + ramp, desired)
    else if desired < sp - Eps then Max(sp - ramp, Max(cfg.minMw, desired))
    else desired
  }

  /** START: zero output while the startup timer counts down; when it runs out the unit finishes starting. */
  function StartTick(cfg: TurbineUnitConfig, u: Unit, dtMin: real): Unit
  {
    var v := u.(setpointMw := 0.0, timerS := u.timerS - dtMin * 60.0);
    if v.timerS <= 0.0 then FinishStart(cfg, v) else v
  }

  /** RAMP_UP and NORMAL: ramp down on a zero target, else track the clipped target; RAMP_UP settles into NORMAL. */
  function TrackingTick(cfg: TurbineUnitConfig, u: Unit, ramp: real): Unit
  {
    if u.targetMw <= 0.0 then u.(state := RampDown)
    else
      var desired := ClipOperatingWindow(cfg, u.targetMw, u.targetMw);
      var v := u.(setpointMw := Track(cfg, u.setpointMw, desired, ramp));
      if u.state == RampUp && !(desired > u.setpointMw + Eps || desired < u.setpointMw - Eps)
      then v.(state := Normal) else v
  }

  /** RAMP_DOWN: ramp toward zero and enter the timed shutdown at (near) zero. */
  function RampDownTick(cfg: TurbineUnitConfig, u: Unit, ramp: real): Unit
  {
    var v := if u.setpointMw > 0.0 then u.(setpointMw := Max(0.0, u.setpointMw - ramp)) else u;
    if v.setpointMw <= 0.0 + Eps then EnterShutdown(cfg, v) else v
  }

  /** SHUTDOWN: zero output, count the shutdown timer down, and start again once it has run out and a
      positive target is pending. */
  function ShutdownTick(cfg: TurbineUnitConfig, u: Unit, dtMin: real): Unit
  {
    var v := u.(setpointMw := 0.0);
    var w := if v.timerS > 0.0 then
               var x := v.(timerS := v.timerS - dtMin * 60.0);
               if x.timerS <= 0.0 then x.(setpointMw := 0.0) else x
             else v;
    if w.timerS <= 0.0 && w.targetMw > 0.0 then EnterStart(cfg, w) else w
  }

  /** One `step(dt_min)` of the state machine followed by the energy accounting. */
  function AfterStep(cfg: TurbineUnitConfig, u: Unit, dtMin: real): Unit
  {
    var ramp := RampLimit(cfg, dtMin);
    var u1 :=
      match u.state
      case Start => StartTick(cfg, u, dtMin)
      case RampUp => TrackingTick(cfg, u, ramp)
      case Normal => TrackingTick(cfg, u, ramp)
      case RampDown => RampDownTick(cfg, u, ramp)
      case Shutdown => ShutdownTick(cfg, u, dtMin);
    u1.(energyMwh := u1.energyMwh + u1.setpointMw * (dtMin / 60.0))
  }

  // ---------------------------------------------------------------- properties of a request

  /** The stored target is `max(0, mw)`; nothing but target and state changes, except that entering START
      zeroes the setpoint and loads the startup timer. */
  lemma RequestStoresTarget(cfg: TurbineUnitConfig, u: Unit, mw: real)
    ensures var r := AfterRequest(cfg, u, mw);
      && r.targetMw == Max(0.0, mw) && r.targetMw >= 0.0
      && r.accumStartupCost == u.accumStartupCost && r.energyMwh == u.energyMwh
      && (r.state != Start || u.state == Start ==> r.setpointMw == u.setpointMw && r.timerS == u.timerS)
  {
  }

  /** The three command rules of `request_output`. */
  lemma RequestTransitions(cfg: TurbineUnitConfig, u: Unit, mw: real)
    ensures var r := AfterRequest(cfg, u, mw);
      && (u.state == Shutdown && mw > 0.0 && u.timerS <= 0.0 ==>
            r.state == Start && r.setpointMw == 0.0 && r.timerS == cfg.startupTimeMin * 60.0)
      && (u.state == Shutdown && !(mw > 0.0 && u.timerS <= 0.0) ==> r.state == Shutdown)
      && ((u.state == RampUp || u.state == Normal) && mw <= 0.0 ==> r.state == RampDown)
      && ((u.state == RampUp || u.state == Normal) && mw > 0.0 ==> r.state == u.state)
      && (u.state == RampDown && mw > 0.0 ==> r.state == RampUp)
      && (u.state == RampDown && mw <= 0.0 ==> r.state == RampDown)
      && (u.state == Start ==> r.state == Start)
  {
  }

  /** A request keeps the invariant. */
  lemma RequestKeepsInv(cfg: TurbineUnitConfig, u: Unit, mw: real)
    requires Inv(cfg, u)
    ensures Inv(cfg, AfterRequest(cfg, u, mw))
  {
  }

  // ---------------------------------------------------------------- properties of a step

  lemma TrackBounds(cfg: TurbineUnitConfig, sp: real, desired: real, ramp: real)
    requires cfg.Valid() && cfg.minMw <= desired <= cfg.maxMw && ramp >= 0.0
    ensures var s := Track(cfg, sp, desired, ramp);
      && (desired >= sp ==> sp <= s <= desired)
      && (desired <= sp ==> desired <= s <= sp)
      && s - sp <= Max(ramp, Eps) && sp - s <= Max(ramp, Eps)
      && (sp - Eps <= desired <= sp + Eps ==> s == desired)
  {
  }

  /** The invariant `0 <= setpoint <= max_mw` (and zero output in START/SHUTDOWN) holds after every step. */
  lemma StepKeepsInv(cfg: TurbineUnitConfig, u: Unit, dtMin: real)
    requires cfg.Valid() && Inv(cfg, u)
    ensures Inv(cfg, AfterStep(cfg, u, dtMin))
  {
    var ramp := RampLimit(cfg, dtMin);
    if u.state == RampUp || u.state == Normal {
      if u.targetMw > 0.0 {
        var desired := ClipOperatingWindow(cfg, u.targetMw, u.targetMw);
        TrackBounds(cfg, u.setpointMw, desired, ramp);
      }
    }
  }

  /** A step taken in START or SHUTDOWN produces exactly 0 MW. */
  lemma IdleStatesProduceZero(cfg: TurbineUnitConfig, u: Unit, dtMin: real)
    requires u.state == Start || u.state == Shutdown
    ensures AfterStep(cfg, u, dtMin).setpointMw == 0.0
  {
  }

  /** RAMP_UP/NORMAL with a positive target: the setpoint moves toward the clipped target by at most the ramp
      (or the snap tolerance), never past it; within tolerance it lands on it, and RAMP_UP becomes NORMAL. */
  lemma TrackingStep(cfg: TurbineUnitConfig, u: Unit, dtMin: real)
    requires cfg.Valid() && (u.state == RampUp || u.state == Normal) && u.targetMw > 0.0
    ensures var r := AfterStep(cfg, u, dtMin);
      var desired := Min(Max(u.targetMw, cfg.minMw), cfg.maxMw);
      var ramp := RampLimit(cfg, dtMin);
      && (desired >= u.setpointMw ==> u.setpointMw <= r.setpointMw <= desired)
      && (desired <= u.setpointMw ==> desired <= r.setpointMw <= u.setpointMw)
      && Abs(r.setpointMw - u.setpointMw) <= Max(ramp, Eps)
      && (Abs(desired - u.setpointMw) <= Eps ==> r.setpointMw == desired && r.state == Normal)
      && (Abs(desired - u.setpointMw) > Eps ==> r.state == u.state)
  {
    var desired := ClipOperatingWindow(cfg, u.targetMw, u.targetMw);
    TrackBounds(cfg, u.setpointMw, desired, RampLimit(cfg, dtMin));
  }

  /** RAMP_UP/NORMAL with no positive target switch to RAMP_DOWN and keep the setpoint. */
  lemma ZeroTargetStartsRampDown(cfg: TurbineUnitConfig, u: Unit, dtMin: real)
    requires (u.state == RampUp || u.state == Normal) && u.targetMw <= 0.0
    ensures AfterStep(cfg, u, dtMin).state == RampDown
    ensures AfterStep(cfg, u, dtMin).setpointMw == u.setpointMw
  {
  }

  /** RAMP_DOWN lowers the setpoint by at most the ramp (or the snap tolerance), never below 0; at or below the
      tolerance it enters SHUTDOWN with 0 MW and the shutdown timer loaded. */
  lemma RampDownStep(cfg: TurbineUnitConfig, u: Unit, dtMin: real)
    requires u.state == RampDown && u.setpointMw >= 0.0
    ensures var r := AfterStep(cfg, u, dtMin);
      var ramp := RampLimit(cfg, dtMin);
      && 0.0 <= r.setpointMw <= u.setpointMw
      && u.setpointMw - r.setpointMw <= ramp + Eps
      && (u.setpointMw - ramp <= Eps ==>
            r.state == Shutdown && r.setpointMw == 0.0 && r.timerS == cfg.shutdownTimeMin * 60.0)
      && (u.setpointMw - ramp > Eps ==> r.state == RampDown && r.setpointMw == u.setpointMw - ramp)
  {
  }

  /** The startup cost is charged exactly when a START timer runs out, and only then. */
  lemma StartupCostCharged(cfg: TurbineUnitConfig, u: Unit, dtMin: real)
    ensures var r := AfterStep(cfg, u, dtMin);
      var finished := u.state == Start && u.timerS - dtMin * 60.0 <= 0.0;
      && r.accumStartupCost == u.accumStartupCost + (if finished then cfg.startupCost else 0.0)
      && (finished <==> u.state == Start && r.state == RampUp)
  {
  }

  /** Energy grows by the new setpoint times the step; with a non-negative step it never decreases. */
  lemma EnergyAccounting(cfg: TurbineUnitConfig, u: Unit, dtMin: real)
    requires cfg.Valid() && Inv(cfg, u) && dtMin >= 0.0
    ensures var r := AfterStep(cfg, u, dtMin);
      && r.energyMwh == u.energyMwh + r.setpointMw * (dtMin / 60.0)
      && r.energyMwh >= u.energyMwh
  {
    StepKeepsInv(cfg, u, dtMin);
  }

  /** A unit that is not running produces nothing. */
  lemma NotRunningProducesZero(cfg: TurbineUnitConfig, u: Unit)
    requires Inv(cfg, u) && !Running(u.state)
    ensures u.setpointMw == 0.0
  {
  }

  // ---------------------------------------------------------------- energy look-ahead

  /**
   * The look-ahead of `energy_over` from `u`: while more than `LoopTolerance` minutes remain, step the unit
   * by `min(step, remaining)` and add the trapezoid between the setpoints before and after the sub-step.
   * Returns the energy (MWh) and the unit's final state.
   */
  function Trapezoid(cfg: TurbineUnitConfig, u: Unit, remaining: real, stepMinutes: real): (real, Unit)
    requires stepMinutes > 0.0
    decreases StepsLeft(remaining, stepMinutes)
  {
    if remaining <= LoopTolerance then (0.0, u)
    else
      var dt := Min(stepMinutes, remaining);
      var v := AfterStep(cfg, u, dt);
      StepsLeftDrops(remaining, stepMinutes);
      var rest := Trapezoid(cfg, v, remaining - dt, stepMinutes);
      (Trapezium(u.setpointMw, v.setpointMw, dt) + rest.0, rest.1)
  }

  /** One pass of the look-ahead: the trapezoid of the first sub-step plus the look-ahead from the stepped unit. */
  lemma TrapezoidUnfold(cfg: TurbineUnitConfig, u: Unit, remaining: real, stepMinutes: real, dt: real, v: Unit)
    requires stepMinutes > 0.0 && remaining > LoopTolerance
    requires dt == Min(stepMinutes, remaining) && v == AfterStep(cfg, u, dt)
    ensures Trapezoid(cfg, u, remaining, stepMinutes).0
              == Trapezium(u.setpointMw, v.setpointMw, dt) + Trapezoid(cfg, v, remaining - dt, stepMinutes).0
    ensures Trapezoid(cfg, u, remaining, stepMinutes).1 == Trapezoid(cfg, v, remaining - dt, stepMinutes).1
  {
  }

  /** The look-ahead keeps the invariant, and its energy lies between 0 and `max_mw` over the horizon. */
  lemma {:induction false} TrapezoidBounds(cfg: TurbineUnitConfig, u: Unit, remaining: real, stepMinutes: real)
    requires cfg.Valid() && Inv(cfg, u) && stepMinutes > 0.0 && remaining >= 0.0
    ensures Inv(cfg, Trapezoid(cfg, u, remaining, stepMinutes).1)
    ensures 0.0 <= Trapezoid(cfg, u, remaining, stepMinutes).0 <= MwhOver(cfg.maxMw, remaining)
    decreases StepsLeft(remaining, stepMinutes)
  {
    if remaining <= LoopTolerance {
      TrapezoidBetween(0.0, 0.0, 0.0, cfg.maxMw, remaining);
    } else {
      var dt := Min(stepMinutes, remaining);
      var v := AfterStep(cfg, u, dt);
      TrapezoidUnfold(cfg, u, remaining, stepMinutes, dt, v);
      StepKeepsInv(cfg, u, dt);
      StepsLeftDrops(remaining, stepMinutes);
      TrapezoidBounds(cfg, v, remaining - dt, stepMinutes);
      TrapezoidBetween(u.setpointMw, v.setpointMw, 0.0, cfg.maxMw, dt);
      EnergySplit(cfg.maxMw, dt, remaining - dt);
      assert dt + (remaining - dt) == remaining;
    }
  }

  /** A step of a unit in NORMAL that holds its clipped target changes neither state, setpoint nor target. */
  lemma HoldingTargetStep(cfg: TurbineUnitConfig, u: Unit, dt: real)
    requires u.state == Normal && u.targetMw > 0.0
    requires u.setpointMw == ClipOperatingWindow(cfg, u.targetMw, u.targetMw)
    ensures var v := AfterStep(cfg, u, dt);
      v.state == Normal && v.setpointMw == u.setpointMw && v.targetMw == u.targetMw
  {
  }

  /** A unit in NORMAL that holds its clipped target keeps doing so, and integrates that constant power over
      the horizon (less at most the `LoopTolerance` minutes the loop may leave over). */
  lemma {:induction false} HoldingTargetEnergy(cfg: TurbineUnitConfig, u: Unit, remaining: real, stepMinutes: real)
    requires cfg.Valid() && stepMinutes > 0.0 && remaining >= 0.0
    requires u.state == Normal && u.targetMw > 0.0
    requires u.setpointMw == ClipOperatingWindow(cfg, u.targetMw, u.targetMw)
    ensures var r := Trapezoid(cfg, u, remaining, stepMinutes);
      && r.1.state == Normal && r.1.setpointMw == u.setpointMw && r.1.targetMw == u.targetMw
      && MwhOver(u.setpointMw, remaining - LoopTolerance) <= r.0 <= MwhOver(u.setpointMw, remaining)
    decreases StepsLeft(remaining, stepMinutes)
  {
    var p := u.setpointMw;
    if remaining <= LoopTolerance {
      MwhOverSign(p, remaining);
      MwhOverSign(p, remaining - LoopTolerance);
    } else {
      var dt := Min(stepMinutes, remaining);
      var v := AfterStep(cfg, u, dt);
      HoldingTargetStep(cfg, u, dt);
      TrapezoidUnfold(cfg, u, remaining, stepMinutes, dt, v);
      StepsLeftDrops(remaining, stepMinutes);
      HoldingTargetEnergy(cfg, v, remaining - dt, stepMinutes);
      TrapeziumConstant(p, dt);
      EnergySplit(p, dt, remaining - dt);
      EnergySplit(p, dt, remaining - dt - LoopTolerance);
      assert dt + (remaining - dt) == remaining;
      assert dt + (remaining - dt - LoopTolerance) == remaining - LoopTolerance;
    }
  }

  /**
   * The loop of `energy_over` run on a copy `u` of the unit: it computes the look-ahead `Trapezoid`.
   * A non-positive horizon or step returns 0 and leaves the copy as it was.
   */
  method Integrate(cfg: TurbineUnitConfig, u: Unit, totalMinutes: real, stepMinutes: real)
    returns (energy: real, sim: Unit)
    ensures totalMinutes <= 0.0 || stepMinutes <= 0.0 ==> energy == 0.0 && sim == u
    ensures totalMinutes > 0.0 && stepMinutes > 0.0 ==> (energy, sim) == Trapezoid(cfg, u, totalMinutes, stepMinutes)
  {
    if totalMinutes <= 0.0 || stepMinutes <= 0.0 {
      return 0.0, u;
    }
    sim := u;
    energy := 0.0;
    var remaining := totalMinutes;
    var pPrev := sim.setpointMw;
    while remaining > LoopTolerance
      invariant 0.0 <= remaining <= totalMinutes
      invariant pPrev == sim.setpointMw
      invariant energy + Trapezoid(cfg, sim, remaining, stepMinutes).0 == Trapezoid(cfg, u, totalMinutes, stepMinutes).0
      invariant Trapezoid(cfg, sim, remaining, stepMinutes).1 == Trapezoid(cfg, u, totalMinutes, stepMinutes).1
      decreases StepsLeft(remaining, stepMinutes)
    {
      var dt := Min(stepMinutes, remaining);
      var next := AfterStep(cfg, sim, dt);
      TrapezoidUnfold(cfg, sim, remaining, stepMinutes, dt, next);
      StepsLeftDrops(remaining, stepMinutes);
      sim := next;
      var pNew := sim.setpointMw;
      energy := energy + Trapezium(pPrev, pNew, dt);
      pPrev := pNew;
      remaining := remaining - dt;
    }
  }

  // ---------------------------------------------------------------- the unit object

  class TurbineUnit {
    const name: string
    const config: TurbineUnitConfig
    var state: UnitState
    var setpointMw: real
    var targetMw: real
    var timerS: real
    var accumStartupCost: real
    var energyMwh: real

    function Snapshot(): Unit
      reads this
    {
      Unit(state, setpointMw, targetMw, timerS, accumStartupCost, energyMwh)
    }

    /** Starts fully shut down; a missing configuration means the defaults. */
    constructor (name: string, config: Option<TurbineUnitConfig>)
      ensures this.name == name && this.config == config.GetOr(DefaultConfig)
      ensures Snapshot() == Initial
    {
      this.name := name;
      this.config := config.GetOr(DefaultConfig);
      state := Shutdown;
      setpointMw := 0.0;
      targetMw := 0.0;
      timerS := 0.0;
      accumStartupCost := 0.0;
      energyMwh := 0.0;
    }

    method EnterStartState()
      modifies this
      ensures Snapshot() == EnterStart(config, old(Snapshot()))
    {
      state := Start;
      setpointMw := 0.0;
      timerS := config.startupTimeMin * 60.0;
    }

    method EnterShutdownState()
      modifies this
      ensures Snapshot() == EnterShutdown(config, old(Snapshot()))
    {
      state := Shutdown;
      setpointMw := 0.0;
      timerS := config.shutdownTimeMin * 60.0;
    }

    method FinishStartState()
      modifies this
      ensures Snapshot() == FinishStart(config, old(Snapshot()))
    {
      accumStartupCost := accumStartupCost + config.startupCost;
      state := RampUp;
    }

    method RequestOutput(mw: real)
      modifies this
      ensures Snapshot() == AfterRequest(config, old(Snapshot()), mw)
    {
      targetMw := Max(0.0, mw);
      if state == Shutdown && targetMw > 0.0 && timerS <= 0.0 {
        EnterStartState();
      }
      if targetMw == 0.0 && (state == RampUp || state == Normal) {
        state := RampDown;
      }
      if targetMw > 0.0 && state == RampDown {
        state := RampUp;
      }
    }

    method StartTickState(dtMin: real)
      modifies this
      ensures Snapshot() == StartTick(config, old(Snapshot()), dtMin)
    {
      setpointMw := 0.0;
      timerS := timerS - dtMin * 60.0;
      if timerS <= 0.0 {
        FinishStartState();
      }
    }

    method TrackingTickState(ramp: real)
      requires state == RampUp || state == Normal
      modifies this
      ensures Snapshot() == TrackingTick(config, old(Snapshot()), ramp)
    {
      if targetMw <= 0.0 {
        state := RampDown;
      } else {
        var desired := ClipOperatingWindow(config, targetMw, targetMw);
        if desired > setpointMw + Eps {
          setpointMw := Min(setpointMw + ramp, desired);
        } else if desired < setpointMw - Eps {
          setpointMw := Max(setpointMw - ramp, Max(config.minMw, desired));
        } else {
          setpointMw := desired;
          if state == RampUp {
            state := Normal;
          }
        }
      }
    }

    method RampDownTickState(ramp: real)
      modifies this
      ensures Snapshot() == RampDownTick(config, old(Snapshot()), ramp)
    {
      if setpointMw > 0.0 {
        setpointMw := Max(0.0, setpointMw - ramp);
      }
      if setpointMw <= 0.0 + Eps {
        EnterShutdownState();
      }
    }

    method ShutdownTickState(dtMin: real)
      modifies this
      ensures Snapshot() == ShutdownTick(config, old(Snapshot()), dtMin)
    {
      setpointMw := 0.0;
      if timerS > 0.0 {
        timerS := timerS - dtMin * 60.0;
        if timerS <= 0.0 {
          setpointMw := 0.0;
        }
      }
      if timerS <= 0.0 && targetMw > 0.0 {
        EnterStartState();
      }
    }

    /** `step(dt_min)`: advance the state machine, then account the energy; returns the new output. */
    method Step(dtMin: real) returns (mw: real)
      modifies this
      ensures Snapshot() == AfterStep(config, old(Snapshot()), dtMin)
      ensures mw == setpointMw
    {
      var dtH := dtMin / 60.0;
      var ramp := RampLimit(config, dtMin);
      match state {
        case Start => StartTickState(dtMin);
        case RampUp => TrackingTickState(ramp);
        case Normal => TrackingTickState(ramp);
        case RampDown => RampDownTickState(ramp);
        case Shutdown => ShutdownTickState(dtMin);
      }
      energyMwh := energyMwh + setpointMw * dtH;
      mw := setpointMw;
    }

    predicate IsRunning()
      reads this
    {
      Running(state)
    }

    /** `energy_over`: integrate on a copy (`mutate == false`) or on the unit itself. */
    method EnergyOver(totalMinutes: real, stepMinutes: real, mutate: bool) returns (energy: real)
      modifies this
      ensures !mutate ==> Snapshot() == old(Snapshot())
      ensures totalMinutes <= 0.0 || stepMinutes <= 0.0 ==> energy == 0.0 && Snapshot() == old(Snapshot())
      ensures totalMinutes > 0.0 && stepMinutes > 0.0 ==>
                var r := Trapezoid(config, old(Snapshot()), totalMinutes, stepMinutes);
                energy == r.0 && (mutate ==> Snapshot() == r.1)
    {
      var sim;
      energy, sim := Integrate(config, Snapshot(), totalMinutes, stepMinutes);
      if mutate {
        state, setpointMw, targetMw, timerS, accumStartupCost, energyMwh :=
          sim.state, sim.setpointMw, sim.targetMw, sim.timerS, sim.accumStartupCost, sim.energyMwh;
      }
    }

    /** `energy_in_minutes`: one-minute sub-steps. */
    method EnergyInMinutes(minutes: real, mutate: bool) returns (energy: real)
      modifies this
      ensures !mutate ==> Snapshot() == old(Snapshot())
      ensures minutes <= 0.0 ==> energy == 0.0 && Snapshot() == old(Snapshot())
      ensures minutes > 0.0 ==>
                var r := Trapezoid(config, old(Snapshot()), minutes, 1.0);
                energy == r.0 && (mutate ==> Snapshot() == r.1)
    {
      energy := EnergyOver(minutes, 1.0, mutate);
    }
  }
}
