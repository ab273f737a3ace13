# A verified model of the MPC solar + BESS plant emulators and revenue rules

This project models the core of a Python energy-management system. The system controls a solar farm with a
battery energy storage system (BESS) and hydro turbines. It has five groups of code:

- **Asset emulators.** These are a five-state hydro turbine unit (U3), a bidirectional hydro storage unit
  with a state of energy (SoE, U4), and a fleet of on/off hydro turbines with a shared dispatch rule. They
  also cover a BESS plant with ramp, power and SOC limits, a kWh battery state, and a solar plant that
  replays a profile.
- **Block-energy controllers.** Two heuristic controllers spread the energy that a 15-minute block still
  needs evenly over its remaining 5-minute substeps. Then they apply a ramp clip, power limits and SOC
  bounds. The patched controller adds a terminal-SOC bias.
- **Feed-in-tariff revenue.** There are two rule sets:
  - aligned 15-minute blocks with three tariff windows, a 14/15 boundary adjustment and a 12% shortfall
    penalty;
  - intervals classified into three periods with plan/cap energies, a period-2 order factor and an
    optional revenue floor.
- **Time-grid helpers.** These floor timestamps to 15 minutes and build the 5-minute tracking frame that
  feeds the controllers.
- **The online driver.** It aligns the wall clock to the next step boundary and runs the tick loop.

Each Python object that updates its fields in place is a Dafny `class` with those fields. Its methods
carry `modifies` clauses, and their `ensures` tie the new state to a pure transition function of the old
state (`Snapshot() == AfterStep(config, old(Snapshot()), dt)`). The properties are proved as lemmas
about that transition function. Pure code (the controllers, the revenue rules, the time helpers) is
modelled as functions with lemmas. The loops of the emulators (the look-ahead integration and the fleet's
per-unit loops), of the revenue table and of the tick driver are `while`/`for` loops with invariants,
proved against the function that specifies them. The `for` loop of `compute_revenue_rows` is the
recursive function `Objective.ComputeRevenueRows`.

Conventions:

- Python floats are `real`.
- `None` and NaN numeric inputs are `Option`; boolean cells arrive already converted (see "## Left out").
- A raised `ValueError` or `ZeroDivisionError` is an `Err` of a `Result`, where the model keeps the
  error path. The `Err` carries an abbreviated message, not the exception's exact text.
- Timestamps are naive `DateTime` values: a day number plus wall-clock fields down to microseconds. Every
  day has 24 hours.
- `numpy.clip(x, lo, hi)` is `Min(Max(x, lo), hi)`, which matches numpy even when `lo > hi`.

Modules: `Wrappers`, `Numerics` and `Clock` are shared helpers. There is one module per core file:
`TurbineUnitU3`, `HydroStorageU4`, `HydroFleet`, `Bess`, `Battery`, `Solar`, `MpcControllerOld`,
`MpcController`, `Objective`, `ProfitCal`, `DataLoader` and `Online`.

Where the code and its comments disagree, the model follows the code:

- `detect_time_window_for_aligned_blocks` is documented to map 18:00 to window 2 with the 14/15
  adjustment. As written it returns window 3, unadjusted. The window-2 flag compares with 18:00, a time
  window 2 never contains, so it is never set.
- The same function computes a first `adjusted` flag for 06:00, 16:00 and 18:00 but never uses it.
  Only the 16:00 block is adjusted.
- Window 3 starts at 06:15 and 16:15 in the code, and 06:01 and 16:01 in its docstring. The model uses
  06:15 and 16:15, so 06:01–06:14 and 16:01–16:14 are errors.
- `online.py` calls `runner.tick(t_now)` without the online index that `online_test.py` passes. Only the
  `online_test.py` loop is modelled as a loop; `align_to_next_5min` is the same in both files.

## Model

| member | source | states |
|---|---|---|
| TurbineUnitU3.RampLimit | src/models/FEB_turbine_unit_U3.py:111-112 | the ramp allowance is never negative and equals `ramp_mw_per_min*dt` whenever that is non-negative |
| TurbineUnitU3.ClipOperatingWindow | src/models/FEB_turbine_unit_U3.py:114-122 | no positive target gives 0; with a positive target the result lies in `[min_mw, max_mw]`, and a value already inside the window is kept |
| TurbineUnitU3.RequestStoresTarget | src/models/FEB_turbine_unit_U3.py:60-77 | the stored target is `max(0, mw)` and never negative; a request leaves cost and energy alone and changes setpoint and timer only when it enters START |
| TurbineUnitU3.RequestTransitions | src/models/FEB_turbine_unit_U3.py:66-82 | SHUTDOWN with a positive request and an expired timer enters START with setpoint 0 and timer `startup_time_min*60`; a zero request in RAMP_UP/NORMAL enters RAMP_DOWN; a positive one in RAMP_DOWN re-enters RAMP_UP; every other case keeps the state |
| TurbineUnitU3.RequestKeepsInv | src/models/FEB_turbine_unit_U3.py:60-82 | a request preserves the unit invariant |
| TurbineUnitU3.AfterRequest | src/models/FEB_turbine_unit_U3.py:60-82 | the request transition; its properties are stated by `RequestStoresTarget`, `RequestTransitions` and `RequestKeepsInv` |
| TurbineUnitU3.TrackBounds | src/models/FEB_turbine_unit_U3.py:146-168 | the RAMP_UP/NORMAL move approaches the desired power without passing it, moves by at most the ramp (or the snap tolerance) and snaps onto it within tolerance |
| TurbineUnitU3.StepKeepsInv | src/models/FEB_turbine_unit_U3.py:125-191 | with `0 <= min_mw <= max_mw`, `0 <= setpoint <= max_mw` (and 0 MW in START/SHUTDOWN) holds after every step |
| TurbineUnitU3.IdleStatesProduceZero | src/models/FEB_turbine_unit_U3.py:135-140 | a step taken in START or SHUTDOWN returns exactly 0 MW |
| TurbineUnitU3.TrackingStep | src/models/FEB_turbine_unit_U3.py:142-168 | with a positive target the setpoint moves toward `clip(target, min_mw, max_mw)` by at most the ramp and never past it; within tolerance it lands on it and the state becomes NORMAL, otherwise the state is kept |
| TurbineUnitU3.ZeroTargetStartsRampDown | src/models/FEB_turbine_unit_U3.py:142-159 | RAMP_UP/NORMAL with no positive target enters RAMP_DOWN and keeps the setpoint |
| TurbineUnitU3.RampDownStep | src/models/FEB_turbine_unit_U3.py:170-176 | RAMP_DOWN lowers the setpoint by at most the ramp and never below 0; at or below the tolerance it enters SHUTDOWN with 0 MW and timer `shutdown_time_min*60` |
| TurbineUnitU3.StartupCostCharged | src/models/FEB_turbine_unit_U3.py:99-102 | the startup cost is added exactly once, in the step where the START timer runs out (and that step enters RAMP_UP), and never otherwise |
| TurbineUnitU3.EnergyAccounting | src/models/FEB_turbine_unit_U3.py:189-191 | energy grows by `setpoint*dt/60` per step, so it never decreases over a non-negative step |
| TurbineUnitU3.AfterStep | src/models/FEB_turbine_unit_U3.py:125-191 | the step transition; its properties are stated by `StepKeepsInv`, `IdleStatesProduceZero`, `TrackingStep`, `ZeroTargetStartsRampDown`, `RampDownStep`, `StartupCostCharged` and `EnergyAccounting` |
| TurbineUnitU3.NotRunningProducesZero | src/models/FEB_turbine_unit_U3.py:194-195 | a unit in the invariant that is not running has setpoint 0 |
| TurbineUnitU3.Trapezoid | src/models/FEB_turbine_unit_U3.py:218-227 | the trapezoidal sum of the look-ahead loop and the unit it leaves; `TrapezoidBounds` and `HoldingTargetEnergy` state its properties |
| TurbineUnitU3.TrapezoidBounds | src/models/FEB_turbine_unit_U3.py:218-227 | from a unit in the invariant, the sum over `remaining` minutes lies between 0 and `max_mw*remaining/60` and the final unit is in the invariant |
| TurbineUnitU3.HoldingTargetStep | src/models/FEB_turbine_unit_U3.py:142-168 | a NORMAL unit sitting on its clipped positive target stays NORMAL with the same setpoint and target |
| TurbineUnitU3.HoldingTargetEnergy | src/models/FEB_turbine_unit_U3.py:201-229 | such a unit produces `setpoint*remaining/60` over the horizon (less at most `setpoint*1e-12/60` for the loop tolerance) and keeps its state, setpoint and target |
| TurbineUnitU3.Integrate | src/models/FEB_turbine_unit_U3.py:201-229 | the look-ahead loop on a copy returns 0 and leaves the copy unchanged for a non-positive horizon or step; otherwise the energy and the final copy are exactly `Trapezoid` of the start state |
| TurbineUnitU3.TurbineUnit.constructor | src/models/FEB_turbine_unit_U3.py:44-57 | a new unit is fully shut down with nothing accumulated; a missing configuration means the defaults |
| TurbineUnitU3.TurbineUnit.EnterStartState | src/models/FEB_turbine_unit_U3.py:79-82 | enters START with setpoint 0 and the startup timer loaded |
| TurbineUnitU3.TurbineUnit.EnterShutdownState | src/models/FEB_turbine_unit_U3.py:94-97 | enters SHUTDOWN with setpoint 0 and the shutdown timer loaded |
| TurbineUnitU3.TurbineUnit.FinishStartState | src/models/FEB_turbine_unit_U3.py:99-102 | charges the startup cost and enters RAMP_UP |
| TurbineUnitU3.TurbineUnit.RequestOutput | src/models/FEB_turbine_unit_U3.py:60-77 | the new fields are the request transition of the old ones |
| TurbineUnitU3.TurbineUnit.StartTickState | src/models/FEB_turbine_unit_U3.py:135-140 | the START branch of `step` |
| TurbineUnitU3.TurbineUnit.TrackingTickState | src/models/FEB_turbine_unit_U3.py:142-168 | the RAMP_UP/NORMAL branches of `step` |
| TurbineUnitU3.TurbineUnit.RampDownTickState | src/models/FEB_turbine_unit_U3.py:170-176 | the RAMP_DOWN branch of `step` |
| TurbineUnitU3.TurbineUnit.ShutdownTickState | src/models/FEB_turbine_unit_U3.py:178-187 | the SHUTDOWN branch of `step` |
| TurbineUnitU3.TurbineUnit.Step | src/models/FEB_turbine_unit_U3.py:125-191 | the new fields are the step transition of the old ones, and the returned power is the new setpoint |
| TurbineUnitU3.TurbineUnit.IsRunning | src/models/FEB_turbine_unit_U3.py:194-195 | running means RAMP_UP, NORMAL or RAMP_DOWN; `NotRunningProducesZero` shows a unit that is not running outputs 0 MW |
| TurbineUnitU3.TurbineUnit.EnergyOver | src/models/FEB_turbine_unit_U3.py:201-229 | with `mutate=False` the unit is unchanged; a non-positive horizon or step returns 0 and changes nothing; otherwise the energy is `Trapezoid` of the old state, and with `mutate=True` the new state is the one `Trapezoid` ends in |
| TurbineUnitU3.TurbineUnit.EnergyInMinutes | src/models/FEB_turbine_unit_U3.py:231-232 | `energy_over` with one-minute sub-steps: 0 and no change for a non-positive horizon, else `Trapezoid` with step 1 and, when mutating, its final state |
| HydroStorageU4.InitialSoe | src/models/FEB_turbine_unit_U4.py:65-68 | the initial SoE is the configured one clamped into `[0, capacity]` |
| HydroStorageU4.Envelope | src/models/FEB_turbine_unit_U4.py:84-85 | the envelope lies in `[-max_charge, max_discharge]`, keeps values inside it and cuts the rest to the nearer bound |
| HydroStorageU4.RampLimit | src/models/FEB_turbine_unit_U4.py:92-93 | the ramp allowance is never negative |
| HydroStorageU4.InitialInv | src/models/FEB_turbine_unit_U4.py:56-74 | a new unit satisfies the invariant and its SoE is `clip(initial_soe, 0, capacity)` |
| HydroStorageU4.RequestClampsTarget | src/models/FEB_turbine_unit_U4.py:77-89 | `request_power` stores the request clamped into `[-max_charge, max_discharge]`, changes nothing else and keeps the invariant |
| HydroStorageU4.NameplateClip | src/models/FEB_turbine_unit_U4.py:95-105 | within the envelope; tiny values become 0; positive values are at least the discharge minimum, negative ones at most minus the charge minimum; the sign is kept |
| HydroStorageU4.ClipToNameplate | src/models/FEB_turbine_unit_U4.py:95-105 | the nameplate clip; `NameplateClip` states its bounds, the dead band and the kept sign |
| HydroStorageU4.RampStage | src/models/FEB_turbine_unit_U4.py:145-152 | the ramp moves toward the desired power by at most the ramp (or snaps within `eps`) and never overshoots |
| HydroStorageU4.SoeClip | src/models/FEB_turbine_unit_U4.py:107-134 | over a positive step the SoE clip keeps the sign, only shrinks the magnitude, discharges at most `soe*eta_d/dt_h` and charges at most `(capacity-soe)/eta_c/dt_h` |
| HydroStorageU4.ClipToSoe | src/models/FEB_turbine_unit_U4.py:107-134 | the SoE clip; `SoeClip` states that it keeps the sign, only shrinks the power and respects the stored and free energy |
| HydroStorageU4.NonPositiveStepIsNoOp | src/models/FEB_turbine_unit_U4.py:137-140 | a step with `dt_min <= 0` changes no field |
| HydroStorageU4.AccountBounds | src/models/FEB_turbine_unit_U4.py:157-168 | discharge lowers the SoE and charge raises it, always within `[0, capacity]`; the out/in counters grow by the grid energy of the power |
| HydroStorageU4.StepSetpointBounds | src/models/FEB_turbine_unit_U4.py:137-170 | the new setpoint stays within `[-max_charge, max_discharge]` |
| HydroStorageU4.StepKeepsInv | src/models/FEB_turbine_unit_U4.py:137-180 | every step keeps power in the envelope and the SoE in `[0, capacity]`, and the energy counters never decrease |
| HydroStorageU4.AfterStep | src/models/FEB_turbine_unit_U4.py:137-180 | the step transition; `NonPositiveStepIsNoOp`, `StepSetpointBounds`, `StepKeepsInv` and `StepState` state its properties |
| HydroStorageU4.StepState | src/models/FEB_turbine_unit_U4.py:172-178 | IDLE iff setpoint and target are both within `eps` of 0; otherwise RAMPING iff the setpoint is more than `eps` from the desired power; otherwise DISCHARGING or CHARGING by the setpoint's sign |
| HydroStorageU4.Classify | src/models/FEB_turbine_unit_U4.py:172-178 | the cosmetic state; `StepState` states which state each setpoint, target and desired power gives |
| HydroStorageU4.Trapezoid | src/models/FEB_turbine_unit_U4.py:203-210 | the trapezoidal net-energy sum of the look-ahead loop and the unit it leaves; `TrapezoidBounds` and `AtRestEnergy` state its properties |
| HydroStorageU4.TrapezoidBounds | src/models/FEB_turbine_unit_U4.py:203-210 | from a unit in the invariant, the net energy lies between `-max_charge*remaining/60` and `max_discharge*remaining/60`; the final unit is in the invariant, keeps its target and its counters never decrease |
| HydroStorageU4.AtRestStep | src/models/FEB_turbine_unit_U4.py:137-170 | a unit with setpoint and target 0 keeps both at 0 over a step |
| HydroStorageU4.AtRestEnergy | src/models/FEB_turbine_unit_U4.py:190-212 | a unit at rest exchanges no net energy over any horizon and stays at rest |
| HydroStorageU4.Integrate | src/models/FEB_turbine_unit_U4.py:190-212 | the net-energy loop on a copy returns 0 and leaves the copy unchanged for a non-positive horizon or step; otherwise the energy and the final copy are exactly `Trapezoid` of the start state |
| HydroStorageU4.HydroStorageUnit.constructor | src/models/FEB_turbine_unit_U4.py:56-74 | a new unit is idle with the clamped SoE; a missing configuration means the defaults |
| HydroStorageU4.HydroStorageUnit.RequestPower | src/models/FEB_turbine_unit_U4.py:77-85 | the new fields are the request transition of the old ones |
| HydroStorageU4.HydroStorageUnit.RequestOutput | src/models/FEB_turbine_unit_U4.py:88-89 | the alias behaves exactly as `request_power` |
| HydroStorageU4.HydroStorageUnit.AccountEnergy | src/models/FEB_turbine_unit_U4.py:157-168 | the SoE and counter update of stage 4 |
| HydroStorageU4.HydroStorageUnit.ReportState | src/models/FEB_turbine_unit_U4.py:172-178 | only the cosmetic state changes, to the classification of setpoint, target and desired power |
| HydroStorageU4.HydroStorageUnit.Step | src/models/FEB_turbine_unit_U4.py:137-180 | the new fields are the step transition of the old ones, and the returned power is the new setpoint |
| HydroStorageU4.HydroStorageUnit.IsRunning | src/models/FEB_turbine_unit_U4.py:183-184 | running means setpoint or target more than `eps` from 0; `AtRestEnergy` shows a unit with both at 0 exchanges no energy |
| HydroStorageU4.HydroStorageUnit.EnergyOver | src/models/FEB_turbine_unit_U4.py:190-212 | with `mutate=False` the unit is unchanged; a non-positive horizon or step returns 0 and changes nothing; otherwise the net energy is `Trapezoid` of the old state, and with `mutate=True` the new state is the one `Trapezoid` ends in |
| HydroStorageU4.HydroStorageUnit.EnergyInMinutes | src/models/FEB_turbine_unit_U4.py:214-215 | `energy_over` with one-minute sub-steps: 0 and no change for a non-positive horizon, else `Trapezoid` with step 1 and, when mutating, its final state |
| HydroFleet.OffStep | src/models/.ipynb_checkpoints/turbine2-checkpoint.py:32-34 | an OFF unit stays OFF with power and timer 0 |
| HydroFleet.StartingStep | src/models/.ipynb_checkpoints/turbine2-checkpoint.py:36-41 | STARTING accumulates the timer; at the startup time the unit turns ON at no less than `min_mw` and no less than before; otherwise it keeps its power |
| HydroFleet.OnStep | src/models/.ipynb_checkpoints/turbine2-checkpoint.py:43-48 | ON moves the power toward `clip(target, min_mw, max_mw)` by at most `ramp/60*dt_s` without overshooting |
| HydroFleet.ShuttingDownStep | src/models/.ipynb_checkpoints/turbine2-checkpoint.py:50-56 | SHUTTING_DOWN never raises the power; the unit goes OFF with power and timer 0 exactly when the timer reaches the shutdown time or the power falls to 1e-6 |
| HydroFleet.UnitStepKeepsInv | src/models/.ipynb_checkpoints/turbine2-checkpoint.py:28-56 | a valid unit's power stays in `[0, max_mw]` and its parameters and target are unchanged |
| HydroFleet.UnitStep | src/models/.ipynb_checkpoints/turbine2-checkpoint.py:28-56 | the unit step; `OffStep`, `StartingStep`, `OnStep`, `ShuttingDownStep` and `UnitStepKeepsInv` state its cases |
| HydroFleet.StartShutdownGuards | src/models/.ipynb_checkpoints/turbine2-checkpoint.py:58-66 | `start()` acts only from OFF and `shutdown()` only from ON or STARTING, each resetting the timer; otherwise the unit is unchanged |
| HydroFleet.MakeUnits | src/models/.ipynb_checkpoints/turbine2-checkpoint.py:87-96 | `n_units` units with ids 1..n, one shared parameter set, all OFF |
| HydroFleet.UpdateSums | src/models/.ipynb_checkpoints/turbine2-checkpoint.py:133-141 | replacing one unit changes the ON min/max sums and the OFF count by that unit's difference |
| HydroFleet.SumPowerNonneg | src/models/.ipynb_checkpoints/turbine2-checkpoint.py:201 | the fleet power of units with non-negative power is non-negative |
| HydroFleet.CountOffPositive | src/models/.ipynb_checkpoints/turbine2-checkpoint.py:137 | `any(u.state == OFF)` holds exactly when the OFF count is positive |
| HydroFleet.OnIndicesProps | src/models/.ipynb_checkpoints/turbine2-checkpoint.py:105-106 | `_on_units` lists exactly the ON units, in fleet order |
| HydroFleet.FirstOff | src/models/.ipynb_checkpoints/turbine2-checkpoint.py:109-110 | the first OFF unit, if any: it is OFF and no earlier unit is |
| HydroFleet.StartOneOffEffect | src/models/.ipynb_checkpoints/turbine2-checkpoint.py:108-114 | with an OFF unit, the first one becomes STARTING with timer 0, the cost grows by one startup cost, the OFF count drops by one and the ON sums stay |
| HydroFleet.StartPhaseCapacity | src/models/.ipynb_checkpoints/turbine2-checkpoint.py:137-141 | the start loop leaves the ON capacity unchanged and charges one startup cost per unit it started; when the request exceeds the capacity it starts every OFF unit, otherwise it does nothing |
| HydroFleet.StartPhaseUnits | src/models/.ipynb_checkpoints/turbine2-checkpoint.py:137-141 | the start loop only turns OFF units into STARTING ones with the timer reset |
| HydroFleet.LeastPower | src/models/.ipynb_checkpoints/turbine2-checkpoint.py:121 | the chosen unit is in the given state and has the least power among those, the first such in fleet order |
| HydroFleet.ShutdownOneEffect | src/models/.ipynb_checkpoints/turbine2-checkpoint.py:116-124 | exactly one unit is shut down when any is ON or STARTING, an ON one when there is any, and nothing changes otherwise |
| HydroFleet.InitialTargets | src/models/.ipynb_checkpoints/turbine2-checkpoint.py:153-163 | every ON unit gets its minimum, its maximum or the even share clipped to its window, as the request compares with the fleet minimum and maximum |
| HydroFleet.RaisePass | src/models/.ipynb_checkpoints/turbine2-checkpoint.py:171-178 | one raising pass adds `min(room, deficit/n)` to each unit with room and reports whether any had room |
| HydroFleet.LowerPass | src/models/.ipynb_checkpoints/turbine2-checkpoint.py:183-190 | one lowering pass removes `min(room, excess/n)` from each unit above its minimum |
| HydroFleet.RaisePassInWindow | src/models/.ipynb_checkpoints/turbine2-checkpoint.py:171-180 | a raising pass keeps every target in its window, and without progress changes nothing |
| HydroFleet.LowerPassInWindow | src/models/.ipynb_checkpoints/turbine2-checkpoint.py:183-192 | a lowering pass keeps every target in its window, and without progress changes nothing |
| HydroFleet.RaiseLoop | src/models/.ipynb_checkpoints/turbine2-checkpoint.py:170-180 | the raising loop keeps the targets listed |
| HydroFleet.LowerLoop | src/models/.ipynb_checkpoints/turbine2-checkpoint.py:182-192 | the lowering loop keeps the targets listed |
| HydroFleet.RaiseLoopInWindow | src/models/.ipynb_checkpoints/turbine2-checkpoint.py:170-180 | the raising loop keeps every target within `[min_mw, max_mw]` |
| HydroFleet.LowerLoopInWindow | src/models/.ipynb_checkpoints/turbine2-checkpoint.py:182-192 | the lowering loop keeps every target within `[min_mw, max_mw]` |
| HydroFleet.InitialTargetsInWindow | src/models/.ipynb_checkpoints/turbine2-checkpoint.py:153-163 | the initial targets of valid units lie in their windows |
| HydroFleet.TargetsInWindow | src/models/.ipynb_checkpoints/turbine2-checkpoint.py:149-192 | after assignment and fine adjustment every ON unit's target lies in its window |
| HydroFleet.Targets | src/models/.ipynb_checkpoints/turbine2-checkpoint.py:149-192 | the targets dictionary; `TargetsInWindow` bounds it and `EvenSplitExact` shows the even split is kept |
| HydroFleet.TotalOfEqual | src/models/.ipynb_checkpoints/turbine2-checkpoint.py:166-167 | a total of equal targets is their count times the target |
| HydroFleet.ShareInside | src/models/.ipynb_checkpoints/turbine2-checkpoint.py:161-163 | an even share of a request strictly between `n*min` and `n*max` lies strictly inside the window and adds back up to the request |
| HydroFleet.RaiseLoopSettled | src/models/.ipynb_checkpoints/turbine2-checkpoint.py:170 | the raising loop does nothing once the total is within 1e-6 of the request or above it |
| HydroFleet.LowerLoopSettled | src/models/.ipynb_checkpoints/turbine2-checkpoint.py:182 | the lowering loop does nothing once the total is within 1e-6 of the request or below it |
| HydroFleet.EvenShareSettled | src/models/.ipynb_checkpoints/turbine2-checkpoint.py:160-192 | for ON units sharing one window and a request strictly inside it, every target is the even share, the targets add up to the request and neither loop moves them |
| HydroFleet.EvenSplitExact | src/models/.ipynb_checkpoints/turbine2-checkpoint.py:160-192 | with the constructor's shared parameters the even split is exact and both fine-adjust loops do nothing |
| HydroFleet.ApplyTargets | src/models/.ipynb_checkpoints/turbine2-checkpoint.py:195-199 | ON units take their target (their minimum when unlisted), all others target 0, nothing else changes |
| HydroFleet.StepUnits | src/models/.ipynb_checkpoints/turbine2-checkpoint.py:128-129 | every unit is stepped once, in place |
| HydroFleet.StepUnitsKeepsValid | src/models/.ipynb_checkpoints/turbine2-checkpoint.py:128-129 | stepping keeps valid units valid with the same parameters |
| HydroFleet.PhasesKeepValid | src/models/.ipynb_checkpoints/turbine2-checkpoint.py:136-146 | starting and stopping units change only state and timer, so valid units stay valid |
| HydroFleet.ApplyTargetsEffect | src/models/.ipynb_checkpoints/turbine2-checkpoint.py:148-199 | after the apply loop non-ON units have target 0 and ON units a target within their window |
| HydroFleet.FleetStepTargets | src/models/.ipynb_checkpoints/turbine2-checkpoint.py:126-202 | after a fleet step every non-ON unit has target 0 and every ON unit a target in `[min_mw, max_mw]`; valid units stay valid; the output is the non-negative sum of unit powers; the command is unchanged |
| HydroFleet.FleetStepCost | src/models/.ipynb_checkpoints/turbine2-checkpoint.py:131-141 | the step's startup cost is that of the start loop: none when the ON capacity covers the request, otherwise every OFF unit is started |
| HydroFleet.FleetStepFields | src/models/.ipynb_checkpoints/turbine2-checkpoint.py:126-202 | the accumulated startup cost after a step is the one the start loop leaves |
| HydroFleet.FleetStep | src/models/.ipynb_checkpoints/turbine2-checkpoint.py:126-202 | the fleet-step transition; `FleetStepTargets`, `FleetStepCost` and `FleetStepFields` state its properties |
| HydroFleet.StepAll | src/models/.ipynb_checkpoints/turbine2-checkpoint.py:128-129 | the `for` loop steps each unit exactly once |
| HydroFleet.SumTargets | src/models/.ipynb_checkpoints/turbine2-checkpoint.py:166-167 | the loop computes `total_target()` |
| HydroFleet.RaiseOnce | src/models/.ipynb_checkpoints/turbine2-checkpoint.py:171-178 | the `for` loop performs one raising pass |
| HydroFleet.LowerOnce | src/models/.ipynb_checkpoints/turbine2-checkpoint.py:183-190 | the `for` loop performs one lowering pass |
| HydroFleet.RaiseWhileUnder | src/models/.ipynb_checkpoints/turbine2-checkpoint.py:170-180 | the `while` loop performs the raising loop |
| HydroFleet.LowerWhileOver | src/models/.ipynb_checkpoints/turbine2-checkpoint.py:182-192 | the `while` loop performs the lowering loop |
| HydroFleet.AssignTargets | src/models/.ipynb_checkpoints/turbine2-checkpoint.py:149-192 | the assignment computes the targets dictionary that `TargetsInWindow` bounds |
| HydroFleet.ApplyAll | src/models/.ipynb_checkpoints/turbine2-checkpoint.py:195-199 | the apply loop gives each unit its target |
| HydroFleet.HydroTurbineFleet.constructor | src/models/.ipynb_checkpoints/turbine2-checkpoint.py:74-99 | the fleet starts with the constructed units, no cost, no command and no output |
| HydroFleet.HydroTurbineFleet.CommandPower | src/models/.ipynb_checkpoints/turbine2-checkpoint.py:101-102 | the stored command is `max(0, power_mw)`; nothing else changes |
| HydroFleet.HydroTurbineFleet.StartOneOffUnit | src/models/.ipynb_checkpoints/turbine2-checkpoint.py:108-114 | units, cost and started unit are those of one start; command and output are unchanged |
| HydroFleet.HydroTurbineFleet.StartWhileShort | src/models/.ipynb_checkpoints/turbine2-checkpoint.py:137-141 | units and cost are those of the start loop |
| HydroFleet.HydroTurbineFleet.ScheduleShutdownOfOne | src/models/.ipynb_checkpoints/turbine2-checkpoint.py:116-124 | units and the stopped unit are those of one shutdown; cost, command and output are unchanged |
| HydroFleet.HydroTurbineFleet.Step | src/models/.ipynb_checkpoints/turbine2-checkpoint.py:126-202 | the new fleet is the fleet-step transition of the old one, and the return value is its output |
| Bess.RampPerSecond | src/models/FEB_bess2.py:31 | a missing or zero ramp disables the ramp stage; any other ramp is converted from per minute to per second |
| Bess.RampBand | src/models/FEB_bess2.py:38-48 | with a ramp, and an output within the limits, the ramped and limited command stays within `current ± ramp*dt_s`; without a ramp the ramp stage is the identity |
| Bess.LimitStageBounds | src/models/FEB_bess2.py:44-48 | the limited command lies in `[-p_charge_max, p_discharge_max]` and keeps its sign |
| Bess.SocStageDischarge | src/models/FEB_bess2.py:51-57 | a discharge is never raised nor made negative, and never takes out more than is stored |
| Bess.SocStageCharge | src/models/FEB_bess2.py:58-66 | a charge is never deepened nor turned into a discharge, and never overfills the capacity |
| Bess.SocStageEnergy | src/models/FEB_bess2.py:50-66 | the SOC stage moves the SOC by exactly the energy of the power it delivers |
| Bess.SocStage | src/models/FEB_bess2.py:50-66 | the SOC stage; `SocStageDischarge`, `SocStageCharge` and `SocStageEnergy` state its properties |
| Bess.SocChange | src/models/FEB_bess2.py:37-69 | over a step the SOC falls by `(p/eta_d)*dt_h` on discharge and rises by `|p|*eta_c*dt_h` on charge |
| Bess.StepKeepsInv | src/models/FEB_bess2.py:37-69 | every step delivers power within the limits, keeps the SOC in `[0, capacity]` and leaves the command alone |
| Bess.AfterStep | src/models/FEB_bess2.py:37-69 | the step transition; `RampBand`, `SocChange` and `StepKeepsInv` state its properties |
| Bess.BessPlant.constructor | src/models/FEB_bess2.py:12-32 | the plant starts at the given SOC, with no command and no output; both efficiencies default to 0.95 and the ramp to none |
| Bess.BessPlant.CommandPower | src/models/FEB_bess2.py:34-35 | the command is stored unchanged |
| Bess.BessPlant.Step | src/models/FEB_bess2.py:37-69 | the new state is the step transition of the old one, and the returned power is the new output |
| Bess.BessPlant.ClipToSoc | src/models/FEB_bess2.py:50-68 | the delivered power and the new SOC are those of the SOC stage, and the command is unchanged |
| Battery.DischargeLowersEnergy | src/models/battery.py:31-34 | a discharge lowers the energy by `dt/60 * p/eta_d` |
| Battery.ChargeRaisesEnergy | src/models/battery.py:35-37 | a charge raises the energy by `dt/60 * |p| * eta_c` |
| Battery.IdleKeepsEnergy | src/models/battery.py:31-34 | zero power leaves the energy unchanged |
| Battery.NextEnergyMonotone | src/models/battery.py:25-37 | with positive efficiencies and a non-negative step, more power never leaves more energy |
| Battery.NextEnergy | src/models/battery.py:25-37 | the efficiency-weighted energy update; `DischargeLowersEnergy`, `ChargeRaisesEnergy`, `IdleKeepsEnergy` and `NextEnergyMonotone` state it |
| Battery.WithinBounds | src/models/battery.py:40-41 | the SOC window widened by 1e-6; `StepDoesNotClamp` shows a step can leave it |
| Battery.StepDoesNotClamp | src/models/battery.py:25-41 | the step has no clamp: a full battery charged for an hour ends above `soc_max` and `within_bounds` fails |
| Battery.BatteryState.constructor | src/models/battery.py:20-23 | the battery starts at the initial SOC with no power applied |
| Battery.BatteryState.Step | src/models/battery.py:25-38 | the energy becomes the efficiency-weighted next energy and the power is recorded |
| Solar.SelectMode | src/models/FEB_solar2.py:20-26 | a function source is called and a sequence is iterated; anything else is an error |
| Solar.Output | src/models/FEB_solar2.py:37 | the output is never negative and equals the raw value whenever that is non-negative |
| Solar.Raw | src/models/FEB_solar2.py:30-37 | the raw profile value; `CallableOutput` and `IterOutput` state what each kind of source gives |
| Solar.CallableOutput | src/models/FEB_solar2.py:30-31 | step `k` of a function profile outputs `max(0, f(k))` |
| Solar.IterOutput | src/models/FEB_solar2.py:32-37 | step `k` of a value profile outputs `max(0, values[k])` while values remain and 0 forever after |
| Solar.SolarPlant.constructor | src/models/FEB_solar2.py:15-26 | a supported source gives a plant at step 0 with the iterator at the start |
| Solar.SolarPlant.Step | src/models/FEB_solar2.py:28-39 | the step returns and stores the output for the current index and advances the index and iterator by one |
| Solar.Create | src/models/FEB_solar2.py:15-26 | an unsupported source is refused, and any other gives a plant at step 0 |
| MpcControllerOld.ApplyRamp | src/mpc/mpc_controller_old.py:27-30 | without a ramp the power is unchanged; with a non-negative ramp it lies within `last_p ± ramp` and a power inside that band is kept |
| MpcControllerOld.ApplyPowerLimits | src/mpc/mpc_controller_old.py:32-33 | with non-negative limits the power lies in `[-p_ch_max, p_dis_max]` and a power inside is kept |
| MpcControllerOld.AllowedPowersReachBounds | src/mpc/mpc_controller_old.py:50-59 | discharging the allowed power ends exactly at `soc_min`, and charging the allowed power ends exactly at `soc_max` |
| MpcControllerOld.NextSocMonotone | src/mpc/mpc_controller_old.py:44-55 | less discharge never leaves less energy, and a shallower charge never leaves more |
| MpcControllerOld.SocBoundsShrink | src/mpc/mpc_controller_old.py:35-62 | the SOC clamp of an in-limits power never flips its sign nor increases its magnitude |
| MpcControllerOld.SocBoundsDischarge | src/mpc/mpc_controller_old.py:48-53 | a discharge never takes a battery at or above `soc_min` below it |
| MpcControllerOld.SocBoundsCharge | src/mpc/mpc_controller_old.py:54-59 | a charge never takes a battery at or below `soc_max` above it |
| MpcControllerOld.SocBoundsKeepWindow | src/mpc/mpc_controller_old.py:35-62 | from a SOC inside `[soc_min, soc_max]` the clamped power keeps the next SOC inside |
| MpcControllerOld.SocBoundsOnlyWhenViolated | src/mpc/mpc_controller_old.py:48-62 | a power within the limits is changed only when it would break the SOC bound on its side |
| MpcControllerOld.ApplySocBounds | src/mpc/mpc_controller_old.py:35-62 | with non-negative limits the result lies in `[-p_ch_max, p_dis_max]`; `SocBoundsShrink`, `SocBoundsDischarge`, `SocBoundsCharge`, `SocBoundsKeepWindow` and `SocBoundsOnlyWhenViolated` state the rest |
| MpcControllerOld.MasksPartition | src/mpc/mpc_controller_old.py:93-95 | the past and future masks split the block: their counts add up to the number of rows |
| MpcControllerOld.FutureCountPositive | src/mpc/mpc_controller_old.py:94-118 | the current row is in the future mask, so at least one step remains and the zero fallback is never taken |
| MpcControllerOld.NoActualsUseForecast | src/mpc/mpc_controller_old.py:97-106 | with no actual readings, the past and future solar sums add up to the whole block's forecast |
| MpcControllerOld.FutureIgnoresActuals | src/mpc/mpc_controller_old.py:98-106 | actual readings of the current and later rows never count |
| MpcControllerOld.EvenSplitDeliversNeed | src/mpc/mpc_controller_old.py:111-122 | at least one step remains, and delivering the even split on every remaining step delivers exactly the needed battery energy |
| MpcControllerOld.SetpointSafe | src/mpc/mpc_controller_old.py:64-131 | the setpoint lies within the power limits and, from a SOC inside `[soc_min, soc_max]`, keeps the next SOC inside |
| MpcControllerOld.ComputeCurrentSetpoint | src/mpc/mpc_controller_old.py:64-131 | with non-negative limits the setpoint lies in `[-p_ch_max, p_dis_max]`; `SetpointSafe` adds the SOC window and `EvenSplitDeliversNeed` the energy split |
| MpcController.MakeController | src/mpc/.ipynb_checkpoints/mpc_controller-checkpoint.py:7-28 | the fields are stored as given, except that the terminal weight is clamped at 0 from below |
| MpcController.TerminalBias | src/mpc/.ipynb_checkpoints/mpc_controller-checkpoint.py:102-108 | with no terminal SOC, no positive weight or a missing or zero day step count there is no bias; with a positive step and step count the bias discharges above the terminal SOC and charges below it |
| MpcController.DesiredPower | src/mpc/.ipynb_checkpoints/mpc_controller-checkpoint.py:96-108 | the even split plus the bias; `EvenSplitDeliversNeed` shows the unguarded division never divides by zero and `AgreesWithOldWithoutBias` that without the bias it is the old split |
| MpcController.AgreesWithOldWithoutBias | src/mpc/.ipynb_checkpoints/mpc_controller-checkpoint.py:68-115 | when the bias does not apply, the patched setpoint equals the old controller's |
| MpcController.SetpointSafe | src/mpc/.ipynb_checkpoints/mpc_controller-checkpoint.py:68-115 | whatever the bias, the setpoint lies within the power limits and keeps a SOC inside `[soc_min, soc_max]` inside |
| MpcController.ComputeCurrentSetpoint | src/mpc/.ipynb_checkpoints/mpc_controller-checkpoint.py:68-115 | with non-negative limits the setpoint lies in `[-p_ch_max, p_dis_max]`; `SetpointSafe` adds the SOC window whatever the bias |
| Objective.DetectTimeWindow | objective_function.py:37-80 | a successful classification is window 1, 2 or 3, and it is adjusted exactly at 16:00 |
| Objective.AlignedBlocksClassify | objective_function.py:56-72 | every quarter-hour block start is classified: 00:00–06:00 and 18:15–23:45 are window 2; 06:15–08:45 and 16:15–18:00 are window 3; 09:00–16:00 is window 1 |
| Objective.GapsRaise | objective_function.py:56-80 | the classification fails exactly strictly inside 06:00–06:15, 16:00–16:15 and 18:00–18:01, and after 23:59:59 |
| Objective.BoundaryBlocks | objective_function.py:62-72 | 06:00 is window 2 and 18:00 window 3, both unadjusted; 16:00 is window 1, adjusted; 06:05, 16:07 and 18:00:30 are errors |
| Objective.PaymentErrors | objective_function.py:116-142 | a payment fails exactly when the time is in a gap or the window's base field is missing |
| Objective.PaymentFormula | objective_function.py:118-154 | the energy is read at 14/15 only in the adjusted block; payable is `min(energy, base)`; the shortfall is what is missing to the base; the penalty is 12% of the tariff on the shortfall; the payment is the payable energy at the tariff less the penalty |
| Objective.PaymentBase | objective_function.py:121-142 | window 1 pays against the contract, window 2 against the plan, window 3 against the plan or the contract as its flag says |
| Objective.PaymentCanBeNegative | objective_function.py:144-154 | the payment has no floor: no energy against a 100 kWh contract at tariff 1 pays -12 |
| Objective.BaseFor | objective_function.py:121-142 | the base energy of a window; `PaymentBase` and `PaymentErrors` state which field each window uses and when it is missing |
| Objective.ComputePayment | objective_function.py:108-167 | `compute_payment_for_interval`; `PaymentErrors`, `PaymentFormula` and `PaymentBase` state its errors and results |
| Objective.ComputeRevenueRows | objective_function.py:186-220 | the rows succeed exactly when every row does; then the results correspond to the rows one for one; otherwise the error is that of the first failing row |
| ProfitCal.InferPeriodCases | scripts/.ipynb_checkpoints/profit_cal-checkpoint.py:35-67 | intervals over two dates fail; period 1 whenever the interval fits 09:00–16:00; period 2 when it fits 18:01–23:59:59 or 00:00–06:00 but not period 1; period 3 when it fits 06:01–09:00 or 16:01–18:00 but neither earlier period; otherwise an error |
| ProfitCal.InferPeriodBothEndsInside | scripts/.ipynb_checkpoints/profit_cal-checkpoint.py:35-67 | for an interval that does not run backwards, both ends lie inside the closed window of the inferred period |
| ProfitCal.InferPeriod | scripts/.ipynb_checkpoints/profit_cal-checkpoint.py:35-67 | `infer_period`; `InferPeriodCases` and `InferPeriodBothEndsInside` state its results and errors |
| ProfitCal.OrderFactor | scripts/.ipynb_checkpoints/profit_cal-checkpoint.py:148 | the period-2 factor is 0.6 when none is given, else the given factor clipped to `[0, 0.6]` |
| ProfitCal.RevenueErrors | scripts/.ipynb_checkpoints/profit_cal-checkpoint.py:117-135 | a request fails exactly through period inference (only without a hint), a non-positive duration or a missing delivered energy, in that order |
| ProfitCal.MeterReadAdjusted | scripts/.ipynb_checkpoints/profit_cal-checkpoint.py:128-132 | in the 18:01–18:15 case a lone 15-minute meter read counts as 14/15 of it delivered |
| ProfitCal.PlanAndCap | scripts/.ipynb_checkpoints/profit_cal-checkpoint.py:137-161 | the plan and cap are floored at 0 and equal; periods 1 and 2 use the explicit plan when given, else the contract energy (period 1) or the contract energy times the order factor (period 2); period 3 uses the cap factor times the contract energy |
| ProfitCal.RevenueRules | scripts/.ipynb_checkpoints/profit_cal-checkpoint.py:163-184 | in periods 1 and 2, meeting the plan pays the plan and falling short pays the delivered energy less `rate*fit` on the shortfall, floored at 0 unless negatives are allowed; period 3 pays the delivered energy up to the cap with no penalty |
| ProfitCal.RevenueBounds | scripts/.ipynb_checkpoints/profit_cal-checkpoint.py:158-184 | nothing above the plan or cap is paid, and with a non-negative tariff and no negative revenue allowed the revenue is never negative |
| ProfitCal.NegativeRevenueAllowed | scripts/.ipynb_checkpoints/profit_cal-checkpoint.py:171-178 | with negative revenue allowed, nothing delivered against a one-hour 100 kW period-1 plan at tariff 1 earns -12 |
| ProfitCal.CalculateIntervalRevenue | scripts/.ipynb_checkpoints/profit_cal-checkpoint.py:81-194 | `calculate_interval_revenue`; `RevenueErrors`, `MeterReadAdjusted`, `PlanAndCap`, `RevenueRules` and `RevenueBounds` state its errors and results |
| ProfitCal.CalculateRevenueDataframe | scripts/.ipynb_checkpoints/profit_cal-checkpoint.py:205-301 | fails with the first row whose interval fails the period check; when every interval passes, fails with the first row whose revenue computation fails; succeeds exactly when every interval and every revenue does, with one result per row and the total the sum of the revenue column |
| DataLoader.FloorTo15 | src/io/data_loader.py:69-72 | the block start is valid, keeps date and hour, is at most the timestamp and less than 15 minutes before it, and falls on a quarter hour |
| DataLoader.FloorTo15Idempotent | src/io/data_loader.py:69-72 | flooring a block start changes nothing |
| DataLoader.FloorTo15Unique | src/io/data_loader.py:69-72 | the floor is the only quarter-hour boundary at or before the timestamp less than 15 minutes away |
| DataLoader.ToTargetEnergy | src/io/data_loader.py:58-66 | one energy row per power row at the same timestamp, whose energy is a quarter of an hour at the expected power |
| DataLoader.LastAtOrBefore | src/io/data_loader.py:100 | the padded value is the energy of some row at or before the instant, and none exists only when no row is |
| DataLoader.PaddedTargetExact | src/io/data_loader.py:99-117 | a block with its own target row takes that row's energy |
| DataLoader.PaddedTarget | src/io/data_loader.py:99-117 | the padded block target; `LastAtOrBefore` and `PaddedTargetExact` state which row it comes from |
| DataLoader.Lookup | src/io/data_loader.py:120-125 | the merged value is the value of the first row at exactly that instant; with no row at it there is none, and any value found comes from a row at it |
| DataLoader.FirstAtExists | src/io/data_loader.py:120-125 | a series with a row at an instant has a first row there, so the merge always finds one |
| DataLoader.DistinctStampsFirst | src/io/data_loader.py:120-125 | in a series without repeated instants, the row at an instant is the one the merge takes |
| DataLoader.SubstepIndex | src/io/data_loader.py:111-113 | the substep is the whole number of `dt5_min` steps into the block, and on the 5-minute grid it is 0, 1 or 2 |
| DataLoader.FiveMinuteSubsteps | src/io/data_loader.py:111-113 | an offset inside a 15-minute block is 0, 1 or 2 whole 5-minute steps |
| DataLoader.MinMicros | src/io/data_loader.py:103 | the earliest forecast timestamp is one of the series and no later than any |
| DataLoader.MaxMicros | src/io/data_loader.py:104 | the latest forecast timestamp is one of the series and no earlier than any |
| DataLoader.GridCount | src/io/data_loader.py:105 | the number of grid points: the last one is at or before the end and the next would be after it, and there are none exactly when the end precedes the start |
| DataLoader.DateRange | src/io/data_loader.py:105 | the grid has one valid timestamp per step from the start, none after the end |
| DataLoader.FloorQuotient | src/io/data_loader.py:111-113 | the floor quotient of a non-negative offset brackets it |
| DataLoader.FrameGrid | src/io/data_loader.py:102-106 | a non-empty forecast gives at least one row, one per `dt5_min` from the first forecast timestamp and none after the last |
| DataLoader.BuildTrackingFrame | src/io/data_loader.py:75-133 | the tracking frame; `FrameGrid` states its grid and `RowBlock`, `RowForecast` and `RowActual` its columns |
| DataLoader.TrackingRowAt | src/io/data_loader.py:108-129 | one row of the frame; `RowBlock`, `RowForecast` and `RowActual` state its columns |
| DataLoader.RowBlock | src/io/data_loader.py:108-113 | each row's block start is its timestamp floored to 15 minutes, its block end is 15 minutes later, and its substep counts whole steps into the block (0, 1 or 2 on the 5-minute grid) |
| DataLoader.RowForecast | src/io/data_loader.py:119-121 | the forecast column is the merged forecast, with a missing or negative value replaced by 0; a non-negative value of the first forecast row at the instant is kept |
| DataLoader.RowActual | src/io/data_loader.py:123-129 | the actual column is the value of the first actual row at the instant; availability holds exactly when that row has a value, and never without an actual series |
| DataLoader.RowActualDistinct | src/io/data_loader.py:123-126 | for an actual series without repeated instants, availability holds exactly when some row at the instant has a value |
| Online.FloorDiv | online.py:16 | Python's floor division: the quotient brackets the dividend for either sign of the divisor |
| Online.NextStepMinuteLeast | online.py:16 | for a positive step, the computed minute is the least multiple of the step strictly above the current minute |
| Online.NegativeStepMinute | online.py:16 | with a negative step the computed minute is negative exactly at the top of the hour, and otherwise lies in `[0, minute)` |
| Online.NextStepMinute | online.py:16 | the minute the alignment computes; `NextStepMinuteLeast` shows it is the least multiple of a positive step above the current minute |
| Online.AlignToNext | online.py:12-22 | a positive step always succeeds; the result is valid with second and microsecond 0; it rolls to the next hour at :00 exactly when the computed minute is 60 or more, and otherwise keeps date and hour with the computed minute |
| Online.WithinHour | online.py:19-21 | a valid timestamp lies within its hour |
| Online.AlignIsNextStep | online.py:12-22 | with a positive step the result is strictly later than `now`, at most `dt_min` minutes later, and its minute is a multiple of the step |
| Online.AlignIsEarliest | online.py:12-22 | the result is the earliest timestamp after `now` at a whole minute that is a multiple of the step |
| Online.AlignErrors | online.py:12-22 | alignment fails exactly for a zero step, or for a negative step at the top of the hour |
| Online.RunTicks | online_test.py:29-55 | the loop ticks exactly at the points of the `date_range(day_start, day_end, dt)` grid, with online indices 0, 1, 2, …, and stops after the first time past `day_end` |

## Left out

- I/O: the CSV readers (`read_day_ahead_power_15min`, `read_forecast_5min`, `read_actual_5min`), the
  `load_csv_and_compute`/`save_csv` helpers, printing, `time.sleep`, result files and the plots are
  outside the model.
- The `main` of `online.py` is not modelled as a loop. `runner.tick`, the realtime runner, the simulators
  and the QP controller are not part of this model.
- `now`, `api` and the plant base class: the wall-clock argument of the plants' `step` is unused and
  omitted. The base class is not part of this model; `current_power_mw` is an own field initialised to 0.
- Telemetry and `status` (rounding for display) are not modelled.
- Floating point: all arithmetic is exact `real` arithmetic. Rounding and NaN propagation are not
  modelled. A NaN or `None` numeric cell is `None`.
- Objective.ComputeRevenueRows: the `has_egat_plan_in_win3` cell arrives already converted to an optional
  boolean. The source's `_row_to_input` maps only `None` and `pd.NA` to `None`; a float NaN is truthy and
  becomes `True`, so a blank cell selects the plan base instead of raising.
- ProfitCal.CalculateRevenueDataframe: the `is_1801_1815` cell arrives already converted to a boolean. The
  source's `bool(...)` turns a NaN cell into `True`, which enables the 14/15 meter path.
- The 1e-9, 1e-6 and 1e-12 tolerances are literal reals.
- HydroFleet.RaiseWhileUnder: the raising loop is cut off after a fixed number of passes (fuel). Without a
  termination measure over reals, the model does not capture an unbounded number of passes.
  EvenSplitExact shows that, with the constructor's shared parameters, the loop does no pass at all.
- HydroFleet.LowerWhileOver: the lowering loop is bounded by fuel, for the same reason.
- HydroFleet: units are values in a sequence and do not alias each other. The fleet gives all units one
  parameter set, as its constructor does. `Targets` and `ApplyTargets` key the targets by fleet index where
  the source keys them by `unit_id`; the two agree because `MakeUnits` gives unit `i` the id `i + 1`.
- Solar.SolarPlant.Step: only finite value sequences are modelled, not infinite or lazy iterables. An
  exhausted sequence gives 0, as the source's `StopIteration` branch does.
- MpcControllerOld.ComputeCurrentSetpoint requires the current index to be a row of the block. Negative
  numpy indices and out-of-range indices are not modelled.
- MpcControllerOld.ComputeCurrentSetpoint requires `dt_minutes`, `eta_c` and `eta_d` to be non-zero. The
  source divides by them and would raise `ZeroDivisionError` (or return `inf`).
- MpcController.ComputeCurrentSetpoint requires the current index to be a row of the block and a defined
  configuration (non-zero `dt_minutes`, `eta_c`, `eta_d`), as the old controller does and for the same reasons.
- MpcController.DesiredPower divides by the remaining step count without a guard, as the source does.
  `EvenSplitDeliversNeed` shows the count is never 0.
- MpcController.TerminalBias treats a zero `remaining_steps_day * dt_h` as no bias. That case cannot
  arise under the non-zero step the controller requires.
- Battery.NextEnergy requires a non-zero discharge efficiency when discharging (division by zero in the
  source).
- Bess.SocStage requires non-zero efficiencies (the source divides by them). Its lemmas assume positive
  efficiencies and non-negative limits.
- DataLoader.BuildTrackingFrame requires `dt5_min > 0`. A zero frequency is rejected by pandas; a negative
  one (an empty or one-point grid, then a floor division by a negative step) is not modelled. Duplicate
  timestamps in the merges, which would multiply rows, are not modelled: a merge takes the first row at
  an instant.
- DataLoader.PaddedTarget models `asfreq("15min", method="pad")` on timestamps sorted strictly
  increasing. The source's behaviour on unsorted input is not captured.
- Online.RunTicks requires `dt_minutes_rtu > 0`. With a non-positive step and `day_start <= day_end` the
  source loop never ends; with `day_start > day_end` it runs no tick whatever the step, which the model
  states only for a positive step.
- ProfitCal: `check_interval_not_crossing_period` is folded into `CalculateRevenueDataframe` (it is
  `infer_period` with the result dropped). The period hint is any integer, as `int(row[period_col])` is.
- Time zones and daylight saving are not modelled: every day has 24 hours.
