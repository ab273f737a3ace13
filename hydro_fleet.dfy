/**
 * A fleet of hydraulic turbines. Each unit is OFF, STARTING, ON or SHUTTING_DOWN; the fleet takes one
 * total MW command (discharge only), starts and stops units to cover it, splits it over the ON units as
 * per-unit targets, and reports the sum of the unit powers. Times are seconds, powers MW.
 */
module HydroFleet {
  import opened Numerics
  import opened Wrappers

  datatype UnitState = Off | Starting | On | ShuttingDown

  /** One unit (a dataclass the fleet mutates in place). */
  datatype HydroUnit = HydroUnit(
    unitId: int, minMw: real, maxMw: real, rampMwPerMin: real, startupTimeS: real, shutdownTimeS: real,
    state: UnitState, powerMw: real, timerS: real, targetMw: real)
  {
    /** A sensible operating window and ramp. */
    predicate Valid() { 0.0 <= minMw <= maxMw && rampMwPerMin >= 0.0 }
    /** Power stays within `[0, max_mw]`. */
    predicate Inv() { 0.0 <= powerMw <= maxMw }
  }

  /** Below this the shutting-down unit counts as stopped. */
  const StopTolerance: real := 0.000001
  /** The fine adjustment of the targets stops once the total is this close to the request. */
  const AdjustTolerance: real := 0.000001
  /** The most passes each fine-adjustment loop makes. */
  const AdjustPasses: nat := 1000

  // ---------------------------------------------------------------- one unit

  /** `HydroUnit.step(dt_s)`. */
  function UnitStep(u: HydroUnit, dtS: real): HydroUnit
  {
    var maxDelta := u.rampMwPerMin / 60.0 * dtS;
    match u.state
    case Off => u.(powerMw := 0.0, timerS := 0.0)
    case Starting =>
      var t := u.timerS + dtS;
      if t >= u.startupTimeS then u.(timerS := t, state := On, powerMw := Max(u.minMw, u.powerMw))
      else u.(timerS := t)
    case On =>
      var desired := Max(u.minMw, Min(u.maxMw, u.targetMw));
      u.(powerMw := if desired > u.powerMw then Min(desired, u.powerMw + maxDelta)
                    else Max(desired, u.powerMw - maxDelta))
    case ShuttingDown =>
      var t := u.timerS + dtS;
      var p := Max(0.0, u.powerMw - maxDelta);
      if t >= u.shutdownTimeS || p <= StopTolerance then u.(state := Off, powerMw := 0.0, timerS := 0.0)
      else u.(timerS := t, powerMw := p)
  }

  /** `HydroUnit.start()`: only an OFF unit starts, with its timer reset. */
  function Start(u: HydroUnit): HydroUnit
  {
    if u.state == Off then u.(state := Starting, timerS := 0.0) else u
  }

  /** `HydroUnit.shutdown()`: only an ON or STARTING unit shuts down, with its timer reset. */
  function Shutdown(u: HydroUnit): HydroUnit
  {
    if u.state == On || u.state == Starting then u.(state := ShuttingDown, timerS := 0.0) else u
  }

  lemma OffStep(u: HydroUnit, dtS: real)
    requires u.state == Off
    ensures var r := UnitStep(u, dtS); r.state == Off && r.powerMw == 0.0 && r.timerS == 0.0
  {
  }

  /** STARTING accumulates the timer; once it reaches the startup time the unit is ON at no less than
      `min_mw` (and no more than `max_mw` if it was within its limits). */
  lemma StartingStep(u: HydroUnit, dtS: real)
    requires u.state == Starting
    ensures var r := UnitStep(u, dtS);
      && r.timerS == u.timerS + dtS
      && (r.timerS >= u.startupTimeS ==> r.state == On && r.powerMw >= u.minMw && r.powerMw >= u.powerMw)
      && (r.timerS < u.startupTimeS ==> r.state == Starting && r.powerMw == u.powerMw)
      && (u.Valid() && u.Inv() ==> r.Inv())
  {
  }

  /** ON moves the power toward `clamp(target, min_mw, max_mw)` by at most `ramp_mw_per_min/60*dt_s`, without
      overshooting it. */
  lemma OnStep(u: HydroUnit, dtS: real)
    requires u.state == On && u.Valid() && dtS >= 0.0
    ensures var r := UnitStep(u, dtS);
      var desired := Clip(u.targetMw, u.minMw, u.maxMw);
      var maxDelta := u.rampMwPerMin / 60.0 * dtS;
      && r.state == On && r.timerS == u.timerS
      && (desired >= u.powerMw ==> u.powerMw <= r.powerMw <= desired)
      && (desired <= u.powerMw ==> desired <= r.powerMw <= u.powerMw)
      && Abs(r.powerMw - u.powerMw) <= maxDelta
      && (u.Inv() ==> r.Inv())
  {
    assert u.rampMwPerMin / 60.0 * dtS >= 0.0;
  }

  /** SHUTTING_DOWN never raises the power and keeps it non-negative; the unit goes OFF with power and timer 0
      exactly when the timer reaches the shutdown time or the power falls to the stop tolerance. */
  lemma ShuttingDownStep(u: HydroUnit, dtS: real)
    requires u.state == ShuttingDown && u.Valid() && u.powerMw >= 0.0 && dtS >= 0.0
    ensures var r := UnitStep(u, dtS);
      var p := Max(0.0, u.powerMw - u.rampMwPerMin / 60.0 * dtS);
      var stops := u.timerS + dtS >= u.shutdownTimeS || p <= StopTolerance;
      && 0.0 <= r.powerMw <= u.powerMw
      && (stops ==> r.state == Off && r.powerMw == 0.0 && r.timerS == 0.0)
      && (!stops ==> r.state == ShuttingDown && r.powerMw == p && r.timerS == u.timerS + dtS)
  {
    assert u.rampMwPerMin / 60.0 * dtS >= 0.0;
  }

  /** Every step keeps a valid unit's power within `[0, max_mw]` and its parameters unchanged. */
  lemma UnitStepKeepsInv(u: HydroUnit, dtS: real)
    requires u.Valid() && u.Inv() && dtS >= 0.0
    ensures var r := UnitStep(u, dtS);
      r.Inv() && SameParams(r, u) && r.targetMw == u.targetMw
  {
    assert u.rampMwPerMin / 60.0 * dtS >= 0.0;
  }

  /** `start()` acts only from OFF and `shutdown()` only from ON or STARTING; both reset the timer. */
  lemma StartShutdownGuards(u: HydroUnit)
    ensures var s := Start(u);
      && (u.state == Off ==> s.state == Starting && s.timerS == 0.0 && s.powerMw == u.powerMw)
      && (u.state != Off ==> s == u)
    ensures var d := Shutdown(u);
      && (u.state == On || u.state == Starting ==> d.state == ShuttingDown && d.timerS == 0.0 && d.powerMw == u.powerMw)
      && (u.state == Off || u.state == ShuttingDown ==> d == u)
  {
  }

  // ---------------------------------------------------------------- the fleet: sums and counts

  predicate SameParams(a: HydroUnit, b: HydroUnit)
  {
    && a.unitId == b.unitId && a.minMw == b.minMw && a.maxMw == b.maxMw && a.rampMwPerMin == b.rampMwPerMin
    && a.startupTimeS == b.startupTimeS && a.shutdownTimeS == b.shutdownTimeS
  }

  /** The units the fleet constructor builds: ids 1..n, one shared parameter set, all OFF and idle. */
  function MakeUnits(n: nat, minMw: real, maxMw: real, rampMwPerMin: real, startupTimeS: real,
                     shutdownTimeS: real): (us: seq<HydroUnit>)
    ensures |us| == n
    ensures forall i :: 0 <= i < n ==>
      us[i] == HydroUnit(i + 1, minMw, maxMw, rampMwPerMin, startupTimeS, shutdownTimeS, Off, 0.0, 0.0, 0.0)
  {
    seq(n, i requires 0 <= i < n =>
      HydroUnit(i + 1, minMw, maxMw, rampMwPerMin, startupTimeS, shutdownTimeS, Off, 0.0, 0.0, 0.0))
  }

  /** All units carry the same operating window `[m, x]`. */
  predicate SharedWindow(us: seq<HydroUnit>, m: real, x: real)
  {
    forall i :: 0 <= i < |us| ==> us[i].minMw == m && us[i].maxMw == x
  }

  predicate AllValid(us: seq<HydroUnit>)
  {
    forall i :: 0 <= i < |us| ==> us[i].Valid() && us[i].Inv()
  }

  function MinIfOn(u: HydroUnit): real { if u.state == On then u.minMw else 0.0 }
  function MaxIfOn(u: HydroUnit): real { if u.state == On then u.maxMw else 0.0 }

  /** `sum(u.min_mw for u in on_units)`. */
  function SumMinOn(us: seq<HydroUnit>): real
  {
    if |us| == 0 then 0.0 else SumMinOn(us[..|us| - 1]) + MinIfOn(us[|us| - 1])
  }

  /** `sum(u.max_mw for u in on_units)`. */
  function SumMaxOn(us: seq<HydroUnit>): real
  {
    if |us| == 0 then 0.0 else SumMaxOn(us[..|us| - 1]) + MaxIfOn(us[|us| - 1])
  }

  /** The number of OFF units. */
  function CountOff(us: seq<HydroUnit>): nat
  {
    if |us| == 0 then 0 else CountOff(us[..|us| - 1]) + (if us[|us| - 1].state == Off then 1 else 0)
  }

  /** `sum(u.power_mw for u in self.units)`. */
  function SumPower(us: seq<HydroUnit>): real
  {
    if |us| == 0 then 0.0 else SumPower(us[..|us| - 1]) + us[|us| - 1].powerMw
  }

  /** Replacing one unit changes the ON sums by that unit's difference and the OFF count likewise. */
  lemma {:induction false} UpdateSums(us: seq<HydroUnit>, i: nat, v: HydroUnit)
    requires i < |us|
    ensures SumMaxOn(us[i := v]) == SumMaxOn(us) - MaxIfOn(us[i]) + MaxIfOn(v)
    ensures SumMinOn(us[i := v]) == SumMinOn(us) - MinIfOn(us[i]) + MinIfOn(v)
    ensures CountOff(us[i := v]) as int ==
            CountOff(us) as int - (if us[i].state == Off then 1 else 0) + (if v.state == Off then 1 else 0)
  {
    var n := |us|;
    if i == n - 1 {
      assert us[i := v][..n - 1] == us[..n - 1];
    } else {
      assert us[i := v][..n - 1] == us[..n - 1][i := v];
      UpdateSums(us[..n - 1], i, v);
    }
  }

  /** A sum of non-negative powers is non-negative. */
  lemma {:induction false} SumPowerNonneg(us: seq<HydroUnit>)
    requires forall i :: 0 <= i < |us| ==> us[i].powerMw >= 0.0
    ensures SumPower(us) >= 0.0
  {
    if |us| > 0 {
      SumPowerNonneg(us[..|us| - 1]);
    }
  }

  /** `any(u.state == OFF for u in self.units)` is the same as a positive OFF count. */
  lemma {:induction false} CountOffPositive(us: seq<HydroUnit>)
    ensures CountOff(us) > 0 <==> exists i :: 0 <= i < |us| && us[i].state == Off
  {
    if |us| > 0 {
      CountOffPositive(us[..|us| - 1]);
      if us[|us| - 1].state != Off && CountOff(us[..|us| - 1]) > 0 {
        var i :| 0 <= i < |us| - 1 && us[..|us| - 1][i].state == Off;
        assert us[i].state == Off;
      }
    }
  }

  /** The indices of the ON units, in fleet order (`_on_units`). */
  function OnIndices(us: seq<HydroUnit>): seq<nat>
  {
    if |us| == 0 then []
    else OnIndices(us[..|us| - 1]) + (if us[|us| - 1].state == On then [|us| - 1] else [])
  }

  /** Every entry of `OnIndices` is an ON unit's index, every ON unit is listed, and the list is increasing. */
  lemma {:induction false} OnIndicesProps(us: seq<HydroUnit>)
    ensures forall j :: 0 <= j < |OnIndices(us)| ==> OnIndices(us)[j] < |us| && us[OnIndices(us)[j]].state == On
    ensures forall i :: 0 <= i < |us| && us[i].state == On ==> i in OnIndices(us)
    ensures forall j, k :: 0 <= j < k < |OnIndices(us)| ==> OnIndices(us)[j] < OnIndices(us)[k]
  {
    if |us| > 0 {
      var n := |us|;
      var init := us[..n - 1];
      var pre := OnIndices(init);
      var on := OnIndices(us);
      assert on == pre + (if us[n - 1].state == On then [n - 1] else []);
      OnIndicesProps(init);
      forall j | 0 <= j < |on|
        ensures on[j] < n && us[on[j]].state == On
      {
        if j < |pre| {
          assert on[j] == pre[j];
          assert pre[j] < n - 1;
          assert init[pre[j]].state == On;
          assert init[pre[j]] == us[pre[j]];
        }
      }
      forall i | 0 <= i < n && us[i].state == On
        ensures i in on
      {
        if i < n - 1 {
          assert init[i] == us[i];
          assert i in pre;
        } else {
          assert on[|on| - 1] == i;
        }
      }
      forall j, k | 0 <= j < k < |on|
        ensures on[j] < on[k]
      {
        if k < |pre| {
          assert on[j] == pre[j] && on[k] == pre[k];
        } else {
          assert on[j] == pre[j] < n - 1;
        }
      }
    }
  }

  // ---------------------------------------------------------------- the fleet: starting and stopping

  /** The first OFF unit, if any. */
  function FirstOff(us: seq<HydroUnit>): (r: Option<nat>)
    ensures r.Some? ==> r.value < |us| && us[r.value].state == Off &&
                        forall j :: 0 <= j < r.value ==> us[j].state != Off
    ensures r.None? ==> forall j :: 0 <= j < |us| ==> us[j].state != Off
  {
    if |us| == 0 then None
    else if us[0].state == Off then Some(0)
    else
      match FirstOff(us[1..])
      case None => None
      case Some(k) => Some(k + 1)
  }

  /** `_start_one_off_unit`: start the first OFF unit and charge the startup cost once; `None` and no change
      when no unit is OFF. */
  function StartOneOff(us: seq<HydroUnit>, cost: real, startupCost: real): (seq<HydroUnit>, real, Option<nat>)
  {
    match FirstOff(us)
    case None => (us, cost, None)
    case Some(i) => (us[i := Start(us[i])], cost + startupCost, Some(i))
  }

  /** Starting one unit when one is OFF: that unit becomes STARTING with its timer reset, the cost grows by
      exactly one startup cost, the OFF count drops by one and the ON capacity stays. */
  lemma StartOneOffEffect(us: seq<HydroUnit>, cost: real, startupCost: real)
    ensures var (us', cost', started) := StartOneOff(us, cost, startupCost);
      && (started.None? <==> CountOff(us) == 0)
      && (started.None? ==> us' == us && cost' == cost)
      && (started.Some? ==>
            && started.value < |us| && us[started.value].state == Off
            && us' == us[started.value := us[started.value].(state := Starting, timerS := 0.0)]
            && cost' == cost + startupCost && CountOff(us') == CountOff(us) - 1)
      && SumMaxOn(us') == SumMaxOn(us) && SumMinOn(us') == SumMinOn(us)
  {
    CountOffPositive(us);
    match FirstOff(us)
    case None =>
    case Some(i) => UpdateSums(us, i, Start(us[i]));
  }

  /** The start loop: while the request exceeds the ON capacity and a unit is OFF, start one more. */
  function StartPhase(us: seq<HydroUnit>, cost: real, startupCost: real, request: real): (seq<HydroUnit>, real)
    decreases CountOff(us)
  {
    if request > SumMaxOn(us) && CountOff(us) > 0 then
      var (us', cost', started) := StartOneOff(us, cost, startupCost);
      StartOneOffEffect(us, cost, startupCost);
      StartPhase(us', cost', startupCost, request)
    else (us, cost)
  }

  /** The start loop leaves the ON capacity alone (started units are STARTING, not ON), charges one startup
      cost per unit it started, and when the request exceeds the capacity leaves no unit OFF. */
  lemma {:induction false} StartPhaseCapacity(us: seq<HydroUnit>, cost: real, startupCost: real, request: real)
    ensures var (us', cost') := StartPhase(us, cost, startupCost, request);
      && |us'| == |us|
      && SumMaxOn(us') == SumMaxOn(us) && SumMinOn(us') == SumMinOn(us)
      && (request > SumMaxOn(us) ==> CountOff(us') == 0)
      && (request <= SumMaxOn(us) ==> us' == us && cost' == cost)
      && cost' == cost + (CountOff(us) - CountOff(us')) as real * startupCost
    decreases CountOff(us)
  {
    if request > SumMaxOn(us) && CountOff(us) > 0 {
      StartOneOffEffect(us, cost, startupCost);
      var (us1, cost1, _) := StartOneOff(us, cost, startupCost);
      StartPhaseCapacity(us1, cost1, startupCost, request);
    }
  }

  /** Unit by unit, the start loop only turns OFF units into STARTING ones with the timer reset. */
  lemma {:induction false} StartPhaseUnits(us: seq<HydroUnit>, cost: real, startupCost: real, request: real)
    ensures var us' := StartPhase(us, cost, startupCost, request).0;
      && |us'| == |us|
      && forall i :: 0 <= i < |us| ==>
           us'[i] == us[i] || (us[i].state == Off && us'[i] == us[i].(state := Starting, timerS := 0.0))
    decreases CountOff(us)
  {
    if request > SumMaxOn(us) && CountOff(us) > 0 {
      StartOneOffEffect(us, cost, startupCost);
      var (us1, cost1, _) := StartOneOff(us, cost, startupCost);
      StartPhaseUnits(us1, cost1, startupCost, request);
    }
  }

  /** Among the units in state `s`, the first one of least power (the head of the stable sort by power). */
  function LeastPower(us: seq<HydroUnit>, s: UnitState): (r: Option<nat>)
    ensures r.Some? ==> r.value < |us| && us[r.value].state == s
    ensures r.Some? ==> forall j :: 0 <= j < |us| && us[j].state == s ==> us[r.value].powerMw <= us[j].powerMw
    ensures r.Some? ==> forall j :: 0 <= j < r.value && us[j].state == s ==> us[r.value].powerMw < us[j].powerMw
    ensures r.None? <==> forall j :: 0 <= j < |us| ==> us[j].state != s
  {
    if |us| == 0 then None
    else
      var n := |us|;
      var b := LeastPower(us[..n - 1], s);
      assert forall j :: 0 <= j < n - 1 ==> us[..n - 1][j] == us[j];
      if us[n - 1].state != s then b
      else if b.None? || us[n - 1].powerMw < us[b.value].powerMw then Some(n - 1)
      else b
  }

  /** `_schedule_shutdown_of_one`: the least-power ON unit, else the least-power STARTING unit, is shut down. */
  function ShutdownOne(us: seq<HydroUnit>): (seq<HydroUnit>, Option<nat>)
  {
    var pick := if LeastPower(us, On).Some? then LeastPower(us, On) else LeastPower(us, Starting);
    match pick
    case None => (us, None)
    case Some(i) => (us[i := Shutdown(us[i])], Some(i))
  }

  /** Exactly one unit is shut down when any is ON or STARTING, and it is an ON one if there is any. */
  lemma ShutdownOneEffect(us: seq<HydroUnit>)
    ensures var (us', pick) := ShutdownOne(us);
      && |us'| == |us|
      && (pick.None? <==> forall j :: 0 <= j < |us| ==> us[j].state != On && us[j].state != Starting)
      && (pick.None? ==> us' == us)
      && (pick.Some? ==> pick.value < |us| && us'[pick.value].state == ShuttingDown &&
                         us'[pick.value].timerS == 0.0 &&
                         us' == us[pick.value := us[pick.value].(state := ShuttingDown, timerS := 0.0)] &&
                         (us[pick.value].state == On || (us[pick.value].state == Starting && LeastPower(us, On).None?)))
  {
  }

  /** The shutdown rule: below the ON minimum, with an ON unit, stop one unit if the request is 0 or more
      than one unit is ON. */
  function ShutdownPhase(us: seq<HydroUnit>, request: real): seq<HydroUnit>
  {
    var nOn := |OnIndices(us)|;
    if request < SumMinOn(us) && nOn > 0 && (request == 0.0 || nOn > 1) then ShutdownOne(us).0 else us
  }

  // ---------------------------------------------------------------- the fleet: target allocation

  /** Every listed index is a unit of the fleet. */
  predicate Indexes(us: seq<HydroUnit>, on: seq<nat>)
  {
    forall j :: 0 <= j < |on| ==> on[j] < |us|
  }

  /** Every listed index has a target. */
  predicate Listed(t: map<nat, real>, on: seq<nat>)
  {
    forall j :: 0 <= j < |on| ==> on[j] in t
  }

  /** Every listed unit's target lies within its operating window. */
  predicate InWindow(us: seq<HydroUnit>, on: seq<nat>, t: map<nat, real>)
  {
    && Indexes(us, on) && Listed(t, on)
    && forall j :: 0 <= j < |on| ==> us[on[j]].minMw <= t[on[j]] <= us[on[j]].maxMw
  }

  /** `total_target()`. */
  function TotalTarget(t: map<nat, real>, on: seq<nat>): real
    requires Listed(t, on)
  {
    if |on| == 0 then 0.0 else t[on[0]] + TotalTarget(t, on[1..])
  }

  /** The initial target of unit `u`: its minimum, its maximum, or the even share clipped to its window. */
  function InitialTarget(u: HydroUnit, mode: int, share: real): real
  {
    if mode == 0 then u.minMw else if mode == 1 then u.maxMw else Max(u.minMw, Min(u.maxMw, share))
  }

  /** Which initial assignment applies: 0 all at minimum, 1 all at maximum, 2 the even share. */
  function Mode(us: seq<HydroUnit>, on: seq<nat>, request: real): int
    requires |on| > 0 && Indexes(us, on)
  {
    var n := |on| as real;
    if request <= n * us[on[0]].minMw then 0 else if request >= n * us[on[0]].maxMw then 1 else 2
  }

  /** The first assignment of the targets dictionary. */
  function InitialTargets(us: seq<HydroUnit>, on: seq<nat>, request: real): (t: map<nat, real>)
    requires |on| > 0 && Indexes(us, on)
    ensures Listed(t, on) && forall i :: i in t <==> i in on
  {
    map i | i in on && i < |us| :: InitialTarget(us[i], Mode(us, on, request), request / |on| as real)
  }

  /** One pass of the raising loop over `on[k..]`: each unit with room gets `min(room, deficit/n)`. Also
      reports whether any unit had room. */
  function RaisePass(us: seq<HydroUnit>, on: seq<nat>, k: nat, t: map<nat, real>, deficit: real, n: real)
    : (r: (map<nat, real>, bool))
    requires k <= |on| && n > 0.0 && Indexes(us, on) && Listed(t, on)
    ensures r.0.Keys == t.Keys
    decreases |on| - k
  {
    if k == |on| then (t, false)
    else
      var i := on[k];
      var room := us[i].maxMw - t[i];
      if room > 0.0 then (RaisePass(us, on, k + 1, t[i := t[i] + Min(room, deficit / n)], deficit, n).0, true)
      else RaisePass(us, on, k + 1, t, deficit, n)
  }

  /** One pass of the lowering loop over `on[k..]`: each unit above its minimum gives `min(room, excess/n)`. */
  function LowerPass(us: seq<HydroUnit>, on: seq<nat>, k: nat, t: map<nat, real>, excess: real, n: real)
    : (r: (map<nat, real>, bool))
    requires k <= |on| && n > 0.0 && Indexes(us, on) && Listed(t, on)
    ensures r.0.Keys == t.Keys
    decreases |on| - k
  {
    if k == |on| then (t, false)
    else
      var i := on[k];
      var room := t[i] - us[i].minMw;
      if room > 0.0 then (LowerPass(us, on, k + 1, t[i := t[i] - Min(room, excess / n)], excess, n).0, true)
      else LowerPass(us, on, k + 1, t, excess, n)
  }

  /** A raising pass with a non-negative deficit keeps every target in its window; without progress it
      changes nothing. */
  lemma {:induction false} RaisePassInWindow(us: seq<HydroUnit>, on: seq<nat>, k: nat, t: map<nat, real>,
                                             deficit: real, n: real)
    requires k <= |on| && n > 0.0 && deficit >= 0.0 && InWindow(us, on, t)
    ensures var r := RaisePass(us, on, k, t, deficit, n); InWindow(us, on, r.0) && (!r.1 ==> r.0 == t)
    decreases |on| - k
  {
    if k < |on| {
      var i := on[k];
      var room := us[i].maxMw - t[i];
      if room > 0.0 {
        assert 0.0 <= deficit / n;
        RaisePassInWindow(us, on, k + 1, t[i := t[i] + Min(room, deficit / n)], deficit, n);
      } else {
        RaisePassInWindow(us, on, k + 1, t, deficit, n);
      }
    }
  }

  /** A lowering pass with a non-negative excess keeps every target in its window; without progress it
      changes nothing. */
  lemma {:induction false} LowerPassInWindow(us: seq<HydroUnit>, on: seq<nat>, k: nat, t: map<nat, real>,
                                             excess: real, n: real)
    requires k <= |on| && n > 0.0 && excess >= 0.0 && InWindow(us, on, t)
    ensures var r := LowerPass(us, on, k, t, excess, n); InWindow(us, on, r.0) && (!r.1 ==> r.0 == t)
    decreases |on| - k
  {
    if k < |on| {
      var i := on[k];
      var room := t[i] - us[i].minMw;
      if room > 0.0 {
        assert 0.0 <= excess / n;
        LowerPassInWindow(us, on, k + 1, t[i := t[i] - Min(room, excess / n)], excess, n);
      } else {
        LowerPassInWindow(us, on, k + 1, t, excess, n);
      }
    }
  }

  /** The raising loop, at most `fuel` passes. */
  function RaiseLoop(us: seq<HydroUnit>, on: seq<nat>, t: map<nat, real>, request: real, fuel: nat)
    : (r: map<nat, real>)
    requires |on| > 0 && Indexes(us, on) && Listed(t, on)
    ensures r.Keys == t.Keys
    decreases fuel
  {
    var total := TotalTarget(t, on);
    if fuel == 0 || !(total < request - AdjustTolerance) then t
    else
      var r := RaisePass(us, on, 0, t, request - total, |on| as real);
      if !r.1 then r.0 else RaiseLoop(us, on, r.0, request, fuel - 1)
  }

  /** The lowering loop, at most `fuel` passes. */
  function LowerLoop(us: seq<HydroUnit>, on: seq<nat>, t: map<nat, real>, request: real, fuel: nat)
    : (r: map<nat, real>)
    requires |on| > 0 && Indexes(us, on) && Listed(t, on)
    ensures r.Keys == t.Keys
    decreases fuel
  {
    var total := TotalTarget(t, on);
    if fuel == 0 || !(total > request + AdjustTolerance) then t
    else
      var r := LowerPass(us, on, 0, t, total - request, |on| as real);
      if !r.1 then r.0 else LowerLoop(us, on, r.0, request, fuel - 1)
  }

  lemma {:induction false} RaiseLoopInWindow(us: seq<HydroUnit>, on: seq<nat>, t: map<nat, real>, request: real,
                                             fuel: nat)
    requires |on| > 0 && InWindow(us, on, t)
    ensures InWindow(us, on, RaiseLoop(us, on, t, request, fuel))
    decreases fuel
  {
    var total := TotalTarget(t, on);
    if fuel > 0 && total < request - AdjustTolerance {
      RaisePassInWindow(us, on, 0, t, request - total, |on| as real);
      var r := RaisePass(us, on, 0, t, request - total, |on| as real);
      if r.1 {
        RaiseLoopInWindow(us, on, r.0, request, fuel - 1);
      }
    }
  }

  lemma {:induction false} LowerLoopInWindow(us: seq<HydroUnit>, on: seq<nat>, t: map<nat, real>, request: real,
                                             fuel: nat)
    requires |on| > 0 && InWindow(us, on, t)
    ensures InWindow(us, on, LowerLoop(us, on, t, request, fuel))
    decreases fuel
  {
    var total := TotalTarget(t, on);
    if fuel > 0 && total > request + AdjustTolerance {
      LowerPassInWindow(us, on, 0, t, total - request, |on| as real);
      var r := LowerPass(us, on, 0, t, total - request, |on| as real);
      if r.1 {
        LowerLoopInWindow(us, on, r.0, request, fuel - 1);
      }
    }
  }

  /** The initial targets lie within each unit's window when the units are valid. */
  lemma InitialTargetsInWindow(us: seq<HydroUnit>, on: seq<nat>, request: real)
    requires |on| > 0 && Indexes(us, on) && forall j :: 0 <= j < |on| ==> us[on[j]].Valid()
    ensures InWindow(us, on, InitialTargets(us, on, request))
  {
    var t := InitialTargets(us, on, request);
    forall j | 0 <= j < |on| ensures us[on[j]].minMw <= t[on[j]] <= us[on[j]].maxMw {
      assert t[on[j]] == InitialTarget(us[on[j]], Mode(us, on, request), request / |on| as real);
    }
  }

  /** The targets dictionary after assignment and fine adjustment; empty when no unit is ON. */
  function Targets(us: seq<HydroUnit>, request: real): map<nat, real>
  {
    var on := OnIndices(us);
    OnIndicesProps(us);
    if |on| == 0 then map[]
    else
      var t0 := InitialTargets(us, on, request);
      if Mode(us, on, request) != 2 then t0
      else LowerLoop(us, on, RaiseLoop(us, on, t0, request, AdjustPasses), request, AdjustPasses)
  }

  /** The targets of every ON unit lie within its window. */
  lemma TargetsInWindow(us: seq<HydroUnit>, request: real)
    requires forall i :: 0 <= i < |us| ==> us[i].Valid()
    ensures InWindow(us, OnIndices(us), Targets(us, request))
  {
    var on := OnIndices(us);
    OnIndicesProps(us);
    if |on| > 0 {
      var t0 := InitialTargets(us, on, request);
      InitialTargetsInWindow(us, on, request);
      if Mode(us, on, request) == 2 {
        RaiseLoopInWindow(us, on, t0, request, AdjustPasses);
        LowerLoopInWindow(us, on, RaiseLoop(us, on, t0, request, AdjustPasses), request, AdjustPasses);
      }
    }
  }

  /** A sum of equal targets is their number times the target. */
  lemma {:induction false} TotalOfEqual(t: map<nat, real>, on: seq<nat>, c: real)
    requires Listed(t, on) && forall j :: 0 <= j < |on| ==> t[on[j]] == c
    ensures TotalTarget(t, on) == |on| as real * c
  {
    if |on| > 0 {
      TotalOfEqual(t, on[1..], c);
    }
  }

  /** The even share of a request strictly between `n*m` and `n*x` lies strictly inside `(m, x)` and adds
      back up to the request. */
  lemma ShareInside(n: real, m: real, x: real, request: real)
    requires n > 0.0 && n * m < request < n * x
    ensures m < request / n < x && n * (request / n) == request
  {
    var b := request / n;
    assert n * b == request;
    assert b - m == (request - n * m) / n;
    assert x - b == (n * x - request) / n;
  }

  /** The raising loop does nothing once the total is within tolerance of the request or above it. */
  lemma RaiseLoopSettled(us: seq<HydroUnit>, on: seq<nat>, t: map<nat, real>, request: real, fuel: nat)
    requires |on| > 0 && Indexes(us, on) && Listed(t, on)
    requires TotalTarget(t, on) >= request - AdjustTolerance
    ensures RaiseLoop(us, on, t, request, fuel) == t
  {
  }

  /** The lowering loop does nothing once the total is within tolerance of the request or below it. */
  lemma LowerLoopSettled(us: seq<HydroUnit>, on: seq<nat>, t: map<nat, real>, request: real, fuel: nat)
    requires |on| > 0 && Indexes(us, on) && Listed(t, on)
    requires TotalTarget(t, on) <= request + AdjustTolerance
    ensures LowerLoop(us, on, t, request, fuel) == t
  {
  }

  /** For a list of ON units sharing the window `[m, x]` and a request strictly inside `(n*m, n*x)`, every
      initial target is the even share, they add up to the request, and neither adjustment loop moves them. */
  lemma EvenShareSettled(us: seq<HydroUnit>, on: seq<nat>, request: real, m: real, x: real)
    requires |on| > 0 && Indexes(us, on)
    requires forall j :: 0 <= j < |on| ==> us[on[j]].minMw == m && us[on[j]].maxMw == x
    requires |on| as real * m < request < |on| as real * x
    ensures Mode(us, on, request) == 2
    ensures var t0 := InitialTargets(us, on, request);
      && (forall j :: 0 <= j < |on| ==> t0[on[j]] == request / |on| as real)
      && TotalTarget(t0, on) == request
      && LowerLoop(us, on, RaiseLoop(us, on, t0, request, AdjustPasses), request, AdjustPasses) == t0
  {
    var n := |on| as real;
    var base := request / n;
    ShareInside(n, m, x, request);
    assert us[on[0]].minMw == m && us[on[0]].maxMw == x;
    var t0 := InitialTargets(us, on, request);
    forall j | 0 <= j < |on| ensures t0[on[j]] == base {
      assert t0[on[j]] == InitialTarget(us[on[j]], 2, base);
    }
    TotalOfEqual(t0, on, base);
    RaiseLoopSettled(us, on, t0, request, AdjustPasses);
    LowerLoopSettled(us, on, t0, request, AdjustPasses);
  }

  /** With one shared window (as the fleet constructor builds) and a request strictly between the ON
      minimum and maximum, the even share `request/n` is exact: both fine-adjustment loops do nothing. */
  lemma EvenSplitExact(us: seq<HydroUnit>, on: seq<nat>, request: real, m: real, x: real)
    requires SharedWindow(us, m, x)
    requires on == OnIndices(us) && |on| > 0
    requires |on| as real * m < request < |on| as real * x
    ensures forall j :: 0 <= j < |on| ==> Targets(us, request)[on[j]] == request / |on| as real
    ensures TotalTarget(Targets(us, request), on) == request
  {
    assert Indexes(us, on) && forall j :: 0 <= j < |on| ==> us[on[j]].minMw == m && us[on[j]].maxMw == x by {
      OnIndicesProps(us);
    }
    EvenShareSettled(us, on, request, m, x);
  }

  /** `targets.get(u.unit_id, u.min_mw)` for ON units, 0 for all others. */
  function ApplyTargets(us: seq<HydroUnit>, t: map<nat, real>): (r: seq<HydroUnit>)
    ensures |r| == |us|
    ensures forall i :: 0 <= i < |us| ==> r[i] == us[i].(targetMw := if us[i].state != On then 0.0
                                                                 else if i in t then t[i] else us[i].minMw)
  {
    seq(|us|, i requires 0 <= i < |us| =>
      us[i].(targetMw := if us[i].state != On then 0.0 else if i in t then t[i] else us[i].minMw))
  }

  /** Every unit stepped once. */
  function StepUnits(us: seq<HydroUnit>, dtS: real): (r: seq<HydroUnit>)
    ensures |r| == |us| && forall i :: 0 <= i < |us| ==> r[i] == UnitStep(us[i], dtS)
  {
    seq(|us|, i requires 0 <= i < |us| => UnitStep(us[i], dtS))
  }

  // ---------------------------------------------------------------- the fleet step

  /** The fields that `command_power` and `step` change, as one value. */
  datatype Fleet = Fleet(units: seq<HydroUnit>, totalStartupCost: real, cmdPowerMw: real, currentPowerMw: real)

  /** `HydroTurbineFleet.step(now, dt_s)`: evolve, start, stop, allocate, apply, sum. */
  function FleetStep(f: Fleet, startupCost: real, dtS: real): Fleet
  {
    var started := StartPhase(StepUnits(f.units, dtS), f.totalStartupCost, startupCost, f.cmdPowerMw);
    var us := Allocate(started.0, f.cmdPowerMw);
    Fleet(us, started.1, f.cmdPowerMw, SumPower(us))
  }

  /** The shutdown rule followed by the target assignment. */
  function Allocate(us: seq<HydroUnit>, request: real): seq<HydroUnit>
  {
    var us' := ShutdownPhase(us, request);
    ApplyTargets(us', Targets(us', request))
  }

  /** Stepping keeps valid units valid, with the same state-independent parameters. */
  lemma StepUnitsKeepsValid(us: seq<HydroUnit>, dtS: real)
    requires AllValid(us) && dtS >= 0.0
    ensures AllValid(StepUnits(us, dtS))
  {
    forall i | 0 <= i < |us| ensures StepUnits(us, dtS)[i].Valid() && StepUnits(us, dtS)[i].Inv() {
      UnitStepKeepsInv(us[i], dtS);
    }
  }

  /** Starting and stopping units keep valid units valid: they change only state and timer. */
  lemma PhasesKeepValid(us: seq<HydroUnit>, cost: real, startupCost: real, request: real)
    requires AllValid(us)
    ensures AllValid(ShutdownPhase(StartPhase(us, cost, startupCost, request).0, request))
  {
    StartPhaseUnits(us, cost, startupCost, request);
    var us2 := StartPhase(us, cost, startupCost, request).0;
    assert AllValid(us2) by {
      forall i | 0 <= i < |us2| ensures us2[i].Valid() && us2[i].Inv() {
        assert us2[i] == us[i] || us2[i] == us[i].(state := Starting, timerS := 0.0);
      }
    }
    ShutdownOneEffect(us2);
  }

  /** After applying the targets, non-ON units have target 0 and ON units a target within their window. */
  lemma ApplyTargetsEffect(us: seq<HydroUnit>, request: real)
    requires AllValid(us)
    ensures var r := ApplyTargets(us, Targets(us, request));
      && AllValid(r)
      && (forall i :: 0 <= i < |r| ==> r[i].state == us[i].state && r[i].powerMw == us[i].powerMw)
      && (forall i :: 0 <= i < |r| && r[i].state != On ==> r[i].targetMw == 0.0)
      && (forall i :: 0 <= i < |r| && r[i].state == On ==> r[i].minMw <= r[i].targetMw <= r[i].maxMw)
  {
    var t := Targets(us, request);
    TargetsInWindow(us, request);
    var on := OnIndices(us);
    OnIndicesProps(us);
    var r := ApplyTargets(us, t);
    forall i | 0 <= i < |r| && r[i].state == On ensures r[i].minMw <= r[i].targetMw <= r[i].maxMw {
      assert i in on;
      var j :| 0 <= j < |on| && on[j] == i;
      assert i in t;
    }
  }

  /** After a fleet step every non-ON unit has target 0, every ON unit a target within `[min_mw, max_mw]`,
      valid units keep their power within limits, and the reported power is the (non-negative) sum of the
      unit powers. */
  lemma FleetStepTargets(f: Fleet, startupCost: real, dtS: real)
    requires AllValid(f.units) && dtS >= 0.0
    ensures var g := FleetStep(f, startupCost, dtS);
      && |g.units| == |f.units|
      && (forall i :: 0 <= i < |g.units| && g.units[i].state != On ==> g.units[i].targetMw == 0.0)
      && (forall i :: 0 <= i < |g.units| && g.units[i].state == On ==>
            g.units[i].minMw <= g.units[i].targetMw <= g.units[i].maxMw)
      && AllValid(g.units)
      && g.currentPowerMw == SumPower(g.units) && g.currentPowerMw >= 0.0
      && g.cmdPowerMw == f.cmdPowerMw
  {
    var us1 := StepUnits(f.units, dtS);
    StepUnitsKeepsValid(f.units, dtS);
    var request := f.cmdPowerMw;
    StartPhaseCapacity(us1, f.totalStartupCost, startupCost, request);
    PhasesKeepValid(us1, f.totalStartupCost, startupCost, request);
    var us3 := ShutdownPhase(StartPhase(us1, f.totalStartupCost, startupCost, request).0, request);
    ApplyTargetsEffect(us3, request);
    SumPowerNonneg(ApplyTargets(us3, Targets(us3, request)));
  }

  /** The startup cost of a fleet step is one startup cost per unit the start loop took out of OFF, and
      nothing when the ON capacity already covers the request. */
  lemma FleetStepCost(f: Fleet, startupCost: real, dtS: real)
    ensures var us1 := StepUnits(f.units, dtS);
      var (us2, cost2) := StartPhase(us1, f.totalStartupCost, startupCost, f.cmdPowerMw);
      var g := FleetStep(f, startupCost, dtS);
      && g.totalStartupCost == cost2
      && (f.cmdPowerMw <= SumMaxOn(us1) ==> g.totalStartupCost == f.totalStartupCost)
      && (f.cmdPowerMw > SumMaxOn(us1) ==> CountOff(us2) == 0)
  {
    var us1 := StepUnits(f.units, dtS);
    StartPhaseCapacity(us1, f.totalStartupCost, startupCost, f.cmdPowerMw);
    FleetStepFields(f, startupCost, dtS);
  }

  lemma FleetStepFields(f: Fleet, startupCost: real, dtS: real)
    ensures var started := StartPhase(StepUnits(f.units, dtS), f.totalStartupCost, startupCost, f.cmdPowerMw);
      FleetStep(f, startupCost, dtS).totalStartupCost == started.1
  {
  }

  // ---------------------------------------------------------------- loops of the step, on values

  /** `for u in self.units: u.step(dt_s)`. */
  method StepAll(us: seq<HydroUnit>, dtS: real) returns (r: seq<HydroUnit>)
    ensures r == StepUnits(us, dtS)
  {
    r := us;
    for i := 0 to |us|
      invariant |r| == |us|
      invariant forall j :: 0 <= j < i ==> r[j] == UnitStep(us[j], dtS)
      invariant forall j :: i <= j < |us| ==> r[j] == us[j]
    {
      r := r[i := UnitStep(r[i], dtS)];
    }
  }

  /** The `total_target()` sum. */
  method SumTargets(t: map<nat, real>, on: seq<nat>) returns (s: real)
    requires Listed(t, on)
    ensures s == TotalTarget(t, on)
  {
    s := 0.0;
    var k := |on|;
    while k > 0
      invariant 0 <= k <= |on|
      invariant s == TotalTarget(t, on[k..])
    {
      k := k - 1;
      assert on[k..][1..] == on[k + 1..];
      s := t[on[k]] + s;
    }
    assert on[0..] == on;
  }

  /** The `for u in on_units` body of the raising loop, one pass. */
  method RaiseOnce(us: seq<HydroUnit>, on: seq<nat>, t: map<nat, real>, deficit: real)
    returns (t': map<nat, real>, progressed: bool)
    requires |on| > 0 && Indexes(us, on) && Listed(t, on)
    ensures (t', progressed) == RaisePass(us, on, 0, t, deficit, |on| as real)
  {
    var n := |on| as real;
    t', progressed := t, false;
    for k := 0 to |on|
      invariant t'.Keys == t.Keys
      invariant RaisePass(us, on, 0, t, deficit, n) ==
                (var r := RaisePass(us, on, k, t', deficit, n); (r.0, r.1 || progressed))
    {
      var i := on[k];
      var room := us[i].maxMw - t'[i];
      if room > 0.0 {
        var add := Min(room, deficit / n);
        t' := t'[i := t'[i] + add];
        progressed := true;
      }
    }
  }

  /** The `for u in on_units` body of the lowering loop, one pass. */
  method LowerOnce(us: seq<HydroUnit>, on: seq<nat>, t: map<nat, real>, excess: real)
    returns (t': map<nat, real>, progressed: bool)
    requires |on| > 0 && Indexes(us, on) && Listed(t, on)
    ensures (t', progressed) == LowerPass(us, on, 0, t, excess, |on| as real)
  {
    var n := |on| as real;
    t', progressed := t, false;
    for k := 0 to |on|
      invariant t'.Keys == t.Keys
      invariant LowerPass(us, on, 0, t, excess, n) ==
                (var r := LowerPass(us, on, k, t', excess, n); (r.0, r.1 || progressed))
    {
      var i := on[k];
      var room := t'[i] - us[i].minMw;
      if room > 0.0 {
        var sub := Min(room, excess / n);
        t' := t'[i := t'[i] - sub];
        progressed := true;
      }
    }
  }

  /** The raising `while` loop, limited to `AdjustPasses` passes. */
  method RaiseWhileUnder(us: seq<HydroUnit>, on: seq<nat>, t0: map<nat, real>, request: real)
    returns (t: map<nat, real>)
    requires |on| > 0 && Indexes(us, on) && Listed(t0, on)
    ensures t == RaiseLoop(us, on, t0, request, AdjustPasses)
  {
    t := t0;
    var fuel := AdjustPasses;
    var total := SumTargets(t, on);
    while fuel > 0 && total < request - AdjustTolerance
      invariant t.Keys == t0.Keys && total == TotalTarget(t, on)
      invariant RaiseLoop(us, on, t0, request, AdjustPasses) == RaiseLoop(us, on, t, request, fuel)
      decreases fuel
    {
      var progressed;
      t, progressed := RaiseOnce(us, on, t, request - total);
      if !progressed {
        return;
      }
      fuel := fuel - 1;
      total := SumTargets(t, on);
    }
  }

  /** The lowering `while` loop, limited to `AdjustPasses` passes. */
  method LowerWhileOver(us: seq<HydroUnit>, on: seq<nat>, t0: map<nat, real>, request: real)
    returns (t: map<nat, real>)
    requires |on| > 0 && Indexes(us, on) && Listed(t0, on)
    ensures t == LowerLoop(us, on, t0, request, AdjustPasses)
  {
    t := t0;
    var fuel := AdjustPasses;
    var total := SumTargets(t, on);
    while fuel > 0 && total > request + AdjustTolerance
      invariant t.Keys == t0.Keys && total == TotalTarget(t, on)
      invariant LowerLoop(us, on, t0, request, AdjustPasses) == LowerLoop(us, on, t, request, fuel)
      decreases fuel
    {
      var progressed;
      t, progressed := LowerOnce(us, on, t, total - request);
      if !progressed {
        return;
      }
      fuel := fuel - 1;
      total := SumTargets(t, on);
    }
  }

  /** The loop that gives each ON unit its initial target. */
  method InitialAssign(us: seq<HydroUnit>, on: seq<nat>, request: real) returns (t: map<nat, real>)
    requires |on| > 0 && Indexes(us, on)
    ensures t == InitialTargets(us, on, request)
  {
    var mode := Mode(us, on, request);
    var share := request / |on| as real;
    t := map[];
    for k := 0 to |on|
      invariant forall i :: i in t <==> i in on[..k]
      invariant forall i :: i in t ==> i < |us| && t[i] == InitialTarget(us[i], mode, share)
    {
      t := t[on[k] := InitialTarget(us[on[k]], mode, share)];
    }
    assert on[..|on|] == on;
  }

  /** The target assignment of `step`: the three initial cases and, for the even share, the adjustment. */
  method AssignTargets(us: seq<HydroUnit>, request: real) returns (t: map<nat, real>)
    ensures t == Targets(us, request)
  {
    var on := OnIndices(us);
    OnIndicesProps(us);
    t := map[];
    if |on| > 0 {
      var mode := Mode(us, on, request);
      t := InitialAssign(us, on, request);
      if mode == 2 {
        t := RaiseWhileUnder(us, on, t, request);
        t := LowerWhileOver(us, on, t, request);
      }
    }
  }

  /** The apply loop at the end of `step`. */
  method ApplyAll(us: seq<HydroUnit>, t: map<nat, real>) returns (r: seq<HydroUnit>)
    ensures r == ApplyTargets(us, t)
  {
    r := us;
    for i := 0 to |us|
      invariant |r| == |us|
      invariant forall j :: 0 <= j < i ==> r[j] == ApplyTargets(us, t)[j]
      invariant forall j :: i <= j < |us| ==> r[j] == us[j]
    {
      if r[i].state == On {
        r := r[i := r[i].(targetMw := if i in t then t[i] else r[i].minMw)];
      } else {
        r := r[i := r[i].(targetMw := 0.0)];
      }
    }
  }

  // ---------------------------------------------------------------- the fleet object

  class HydroTurbineFleet {
    const name: string
    const startupCost: real
    var units: seq<HydroUnit>
    var totalStartupCost: real
    var cmdPowerMw: real
    var currentPowerMw: real

    function Snapshot(): Fleet
      reads this
    {
      Fleet(units, totalStartupCost, cmdPowerMw, currentPowerMw)
    }

    /** `n_units` units with one shared parameter set, all OFF; no cost, no command, no output. */
    constructor (name: string, nUnits: nat, minMw: real, maxMw: real, rampMwPerMin: real,
                 startupTimeS: real, shutdownTimeS: real, startupCost: real)
      ensures this.name == name && this.startupCost == startupCost
      ensures Snapshot() == Fleet(MakeUnits(nUnits, minMw, maxMw, rampMwPerMin, startupTimeS, shutdownTimeS),
                                  0.0, 0.0, 0.0)
    {
      this.name := name;
      this.startupCost := startupCost;
      units := MakeUnits(nUnits, minMw, maxMw, rampMwPerMin, startupTimeS, shutdownTimeS);
      totalStartupCost := 0.0;
      cmdPowerMw := 0.0;
      currentPowerMw := 0.0;
    }

    /** `command_power`: the stored command is never negative. */
    method CommandPower(powerMw: real)
      modifies this
      ensures Snapshot() == old(Snapshot()).(cmdPowerMw := Max(0.0, powerMw))
    {
      cmdPowerMw := Max(0.0, powerMw);
    }

    /** `_start_one_off_unit`. */
    method StartOneOffUnit() returns (started: Option<nat>)
      modifies this
      ensures (units, totalStartupCost, started) == StartOneOff(old(units), old(totalStartupCost), startupCost)
      ensures cmdPowerMw == old(cmdPowerMw) && currentPowerMw == old(currentPowerMw)
    {
      for i := 0 to |units|
        invariant forall j :: 0 <= j < i ==> units[j].state != Off
        invariant units == old(units) && totalStartupCost == old(totalStartupCost)
      {
        if units[i].state == Off {
          assert FirstOff(units) == Some(i);
          units := units[i := Start(units[i])];
          totalStartupCost := totalStartupCost + startupCost;
          return Some(i);
        }
      }
      return None;
    }

    /** The start loop of `step`: `total_max` is recomputed after every start. */
    method StartWhileShort(request: real)
      modifies this
      ensures (units, totalStartupCost) == StartPhase(old(units), old(totalStartupCost), startupCost, request)
      ensures cmdPowerMw == old(cmdPowerMw) && currentPowerMw == old(currentPowerMw)
    {
      var totalMax := SumMaxOn(units);
      CountOffPositive(units);
      while request > totalMax && exists i :: 0 <= i < |units| && units[i].state == Off
        invariant totalMax == SumMaxOn(units)
        invariant StartPhase(old(units), old(totalStartupCost), startupCost, request) ==
                  StartPhase(units, totalStartupCost, startupCost, request)
        invariant cmdPowerMw == old(cmdPowerMw) && currentPowerMw == old(currentPowerMw)
        decreases CountOff(units)
      {
        CountOffPositive(units);
        StartOneOffEffect(units, totalStartupCost, startupCost);
        var _ := StartOneOffUnit();
        totalMax := SumMaxOn(units);
        CountOffPositive(units);
      }
      CountOffPositive(units);
    }

    /** `_schedule_shutdown_of_one`. */
    method ScheduleShutdownOfOne() returns (stopped: Option<nat>)
      modifies this
      ensures (units, stopped) == ShutdownOne(old(units))
      ensures totalStartupCost == old(totalStartupCost) && cmdPowerMw == old(cmdPowerMw)
      ensures currentPowerMw == old(currentPowerMw)
    {
      var candidates := LeastPower(units, On);
      if candidates.None? {
        candidates := LeastPower(units, Starting);
      }
      if candidates.Some? {
        var i := candidates.value;
        units := units[i := Shutdown(units[i])];
        return Some(i);
      }
      return None;
    }

    /** `step(now, dt_s)`; the wall-clock argument is unused and left out. */
    method Step(dtS: real) returns (p: real)
      modifies this
      ensures Snapshot() == FleetStep(old(Snapshot()), startupCost, dtS)
      ensures p == currentPowerMw
    {
      units := StepAll(units, dtS);
      var request := cmdPowerMw;
      StartWhileShort(request);
      var nOn := |OnIndices(units)|;
      if request < SumMinOn(units) && nOn > 0 {
        if request == 0.0 || nOn > 1 {
          var _ := ScheduleShutdownOfOne();
        }
      }
      var targets := AssignTargets(units, request);
      units := ApplyAll(units, targets);
      currentPowerMw := SumPower(units);
      p := currentPowerMw;
    }
  }
}
