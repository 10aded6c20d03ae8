/**
 * The time-stepped loops shared by the two simulation scripts: the
 * cubic-ramp wind curve filled sample by sample, and the battery SOC
 * simulation that fills the SOC and battery-power arrays index by index.
 * Each script instantiates them with its own constants.
 */
module ScriptSimulation {
  import opened Numerics
  import opened Components
  import opened Network

  /**
   * The scripts' wind curve: nothing outside [cut-in, cut-out], rated power
   * from the rated speed up to cut-out, and a cubic ramp in between.
   */
  function RampWindPower(v: real, cutIn: real, ratedSpeed: real, cutOut: real, windRated: real): (r: real)
    ensures v < cutIn || v > cutOut ==> r == 0.0
    ensures cutIn <= v <= cutOut && ratedSpeed <= v ==> r == windRated
    ensures v == cutIn && cutIn < ratedSpeed ==> r == 0.0
    ensures windRated >= 0.0 ==> 0.0 <= r <= windRated
  {
    if v < cutIn || v > cutOut then 0.0
    else if v >= ratedSpeed then windRated
    else
      ScaledFractionBounds(RampCube(v, cutIn, ratedSpeed), windRated);
      windRated * RampCube(v, cutIn, ratedSpeed)
  }

  /** The cube of the fraction of the way from cut-in to rated speed. */
  function RampCube(v: real, cutIn: real, ratedSpeed: real): (c: real)
    requires cutIn <= v < ratedSpeed
    ensures 0.0 <= c < 1.0
    ensures v == cutIn ==> c == 0.0
  {
    var x := (v - cutIn) / (ratedSpeed - cutIn);
    RampFraction(v, cutIn, ratedSpeed);
    CubeMonotone(0.0, x);
    CubeBelowOne(x);
    x * x * x
  }

  lemma CubeBelowOne(x: real)
    requires 0.0 <= x < 1.0
    ensures x * x * x < 1.0
  {
    assert x * x <= x;
    assert x * x * x <= x * x;
  }

  lemma RampFraction(v: real, cutIn: real, ratedSpeed: real)
    requires cutIn <= v < ratedSpeed
    ensures 0.0 <= (v - cutIn) / (ratedSpeed - cutIn) < 1.0
  {
    var d := ratedSpeed - cutIn;
    var x := (v - cutIn) / d;
    assert x * d == v - cutIn;
    if x >= 1.0 {
      MulNonNegative(x - 1.0, d);
    }
    if x < 0.0 {
      MulNonNegative(-x, d);
    }
  }

  lemma DivMonotone(a: real, b: real, d: real)
    requires d > 0.0 && a <= b
    ensures a / d <= b / d
  {
  }

  lemma ScaledFractionBounds(c: real, w: real)
    requires 0.0 <= c <= 1.0
    ensures w >= 0.0 ==> 0.0 <= w * c <= w
    ensures c == 0.0 ==> w * c == 0.0
  {
    if w >= 0.0 {
      MulNonNegative(w, c);
      MulNonNegative(w, 1.0 - c);
    }
  }

  /** The ramp never falls as the wind rises on [cut-in, cut-out]. */
  lemma {:induction false} RampWindMonotone(v1: real, v2: real, cutIn: real, ratedSpeed: real, cutOut: real,
                                            windRated: real)
    requires windRated >= 0.0
    requires cutIn <= v1 <= v2 <= cutOut
    ensures RampWindPower(v1, cutIn, ratedSpeed, cutOut, windRated)
              <= RampWindPower(v2, cutIn, ratedSpeed, cutOut, windRated)
  {
    if v2 < ratedSpeed {
      RampRegion(v1, cutIn, ratedSpeed, cutOut, windRated);
      RampRegion(v2, cutIn, ratedSpeed, cutOut, windRated);
      RampCubeMonotone(v1, v2, cutIn, ratedSpeed);
      ScaledOrder(RampWindPower(v1, cutIn, ratedSpeed, cutOut, windRated),
                  RampWindPower(v2, cutIn, ratedSpeed, cutOut, windRated),
                  windRated, RampCube(v1, cutIn, ratedSpeed), RampCube(v2, cutIn, ratedSpeed));
    } else {
      RampBoundedByRated(v1, v2, cutIn, ratedSpeed, cutOut, windRated);
    }
  }

  /** From the rated speed up to cut-out the curve sits at its ceiling. */
  lemma RampBoundedByRated(v1: real, v2: real, cutIn: real, ratedSpeed: real, cutOut: real, windRated: real)
    requires windRated >= 0.0
    requires cutIn <= v1 <= v2 <= cutOut && ratedSpeed <= v2
    ensures RampWindPower(v1, cutIn, ratedSpeed, cutOut, windRated)
              <= RampWindPower(v2, cutIn, ratedSpeed, cutOut, windRated)
  {
    var r1 := RampWindPower(v1, cutIn, ratedSpeed, cutOut, windRated);
    var r2 := RampWindPower(v2, cutIn, ratedSpeed, cutOut, windRated);
    assert r1 <= windRated;
    assert r2 == windRated;
  }

  /** Between cut-in and the rated speed the curve is the scaled cubic ramp. */
  lemma RampRegion(v: real, cutIn: real, ratedSpeed: real, cutOut: real, windRated: real)
    requires cutIn <= v < ratedSpeed && v <= cutOut
    ensures RampWindPower(v, cutIn, ratedSpeed, cutOut, windRated) == windRated * RampCube(v, cutIn, ratedSpeed)
  {
  }

  lemma RampCubeMonotone(v1: real, v2: real, cutIn: real, ratedSpeed: real)
    requires cutIn <= v1 <= v2 < ratedSpeed
    ensures RampCube(v1, cutIn, ratedSpeed) <= RampCube(v2, cutIn, ratedSpeed)
  {
    var x1 := (v1 - cutIn) / (ratedSpeed - cutIn);
    var x2 := (v2 - cutIn) / (ratedSpeed - cutIn);
    RampFraction(v1, cutIn, ratedSpeed);
    DivMonotone(v1 - cutIn, v2 - cutIn, ratedSpeed - cutIn);
    CubeMonotone(x1, x2);
  }

  lemma ScaledOrder(r1: real, r2: real, w: real, c1: real, c2: real)
    requires r1 == w * c1 && r2 == w * c2 && w >= 0.0 && c1 <= c2
    ensures r1 <= r2
  {
    ScaleMonotone(w, c1, c2);
  }

  lemma ScaleMonotone(w: real, a: real, b: real)
    requires w >= 0.0 && a <= b
    ensures w * a <= w * b
  {
    MulNonNegative(w, b - a);
    assert w * (b - a) == w * b - w * a;
  }

  /**
   * The scripts' PV series: the panel formula applied sample by sample and
   * capped at the rated power (`np.minimum(P_pv, PV_rated)`).
   */
  function PvSeries(panel: PVParams, irradiance: seq<real>, temperature: seq<real>): (pPv: seq<real>)
    requires |irradiance| == |temperature|
    ensures |pPv| == |irradiance|
    ensures forall i :: 0 <= i < |pPv| ==> pPv[i] <= panel.ratedPower
    ensures forall i :: 0 <= i < |pPv| ==>
              pPv[i] == panel.ratedPower || pPv[i] == UncappedPVPower(panel, irradiance[i], temperature[i])
    ensures forall i :: 0 <= i < |pPv| ==> pPv[i] <= UncappedPVPower(panel, irradiance[i], temperature[i])
    ensures panel.ratedPower >= 0.0 ==>
              forall i :: 0 <= i < |pPv| && irradiance[i] == 0.0 ==> pPv[i] == 0.0
  {
    seq(|irradiance|, i requires 0 <= i < |irradiance| => PVPower(panel, irradiance[i], temperature[i]))
  }

  /** The scripts' wind series: the ramp curve at every sample. */
  function WindSeries(windSpeed: seq<real>, cutIn: real, ratedSpeed: real, cutOut: real, windRated: real)
    : (pWind: seq<real>)
    ensures |pWind| == |windSpeed|
    ensures windRated >= 0.0 ==> forall i :: 0 <= i < |pWind| ==> 0.0 <= pWind[i] <= windRated
    ensures forall i :: 0 <= i < |pWind| && (windSpeed[i] < cutIn || windSpeed[i] > cutOut) ==>
              pWind[i] == 0.0
    ensures forall i :: 0 <= i < |pWind| && cutIn <= windSpeed[i] && ratedSpeed <= windSpeed[i] <= cutOut ==>
              pWind[i] == windRated
  {
    seq(|windSpeed|, i requires 0 <= i < |windSpeed| =>
      RampWindPower(windSpeed[i], cutIn, ratedSpeed, cutOut, windRated))
  }

  /** `P_wind = np.zeros_like(wind_speed)`, then one sample at a time. */
  method FillWindPower(windSpeed: seq<real>, cutIn: real, ratedSpeed: real, cutOut: real, windRated: real)
    returns (pWind: array<real>)
    ensures pWind.Length == |windSpeed|
    ensures forall i :: 0 <= i < |windSpeed| ==>
              pWind[i] == RampWindPower(windSpeed[i], cutIn, ratedSpeed, cutOut, windRated)
  {
    pWind := new real[|windSpeed|](_ => 0.0);
    for i := 0 to |windSpeed|
      invariant forall k :: 0 <= k < i ==>
                  pWind[k] == RampWindPower(windSpeed[k], cutIn, ratedSpeed, cutOut, windRated)
    {
      var v := windSpeed[i];
      if v < cutIn || v > cutOut {
        pWind[i] := 0.0;
      } else if v >= ratedSpeed {
        pWind[i] := windRated;
      } else {
        var x := (v - cutIn) / (ratedSpeed - cutIn);
        pWind[i] := windRated * (x * x * x);
      }
    }
  }

  /**
   * One step of the scripts' battery rule: the network's dispatch, with the
   * battery power recorded negative on discharge and positive on charge.
   */
  function ScriptStep(p: BatteryParams, soc: real, deficit: real, dt: real): Step
    requires WellFormed(p) && dt > 0.0
  {
    var s := Dispatch(p, soc, deficit, dt);
    Step(if deficit > 0.0 then -s.power else s.power, s.soc)
  }

  /** Rate limits and SOC bounds that a well-configured script battery satisfies. */
  predicate ScriptBattery(p: BatteryParams)
  {
    WellFormed(p) && p.maxChargeRate >= 0.0 && p.maxDischargeRate >= 0.0 && p.minSoc <= p.maxSoc
  }

  /**
   * From an SOC inside the band a step stays inside it; the battery power is
   * non-positive when discharging, non-negative when charging, bounded by the
   * rate limits, zero on a balanced step, and a step that would cross a
   * bound lands exactly on it.
   */
  lemma ScriptStepBounds(p: BatteryParams, soc: real, deficit: real, dt: real)
    requires ScriptBattery(p) && dt > 0.0
    requires p.minSoc <= soc <= p.maxSoc
    ensures var r := ScriptStep(p, soc, deficit, dt);
      && p.minSoc <= r.soc <= p.maxSoc
      && -p.maxDischargeRate <= r.power <= p.maxChargeRate
      && (deficit > 0.0 ==> r.power <= 0.0)
      && (deficit < 0.0 ==> r.power >= 0.0)
      && (deficit == 0.0 ==> r == Step(0.0, soc))
      && (deficit > 0.0 && DischargedSoc(p, soc, Min(deficit, p.maxDischargeRate), dt) < p.minSoc ==>
            r.soc == p.minSoc)
      && (deficit < 0.0 && ChargedSoc(p, soc, Min(-deficit, p.maxChargeRate), dt) > p.maxSoc ==>
            r.soc == p.maxSoc)
  {
    DispatchStaysInBand(p, soc, deficit, dt);
  }

  /**
   * The SOC movement a recorded battery power stands for: a positive
   * (charging) power stores power x dt x efficiency, a negative
   * (discharging) one draws |power| x dt / efficiency.
   */
  function SocChange(p: BatteryParams, power: real, dt: real): real
    requires WellFormed(p)
  {
    if power > 0.0 then power * dt * p.efficiency / p.capacity
    else if power < 0.0 then power * dt / p.efficiency / p.capacity
    else 0.0
  }

  /** Every step moves the SOC by exactly what its recorded battery power stands for. */
  lemma ScriptStepLedger(p: BatteryParams, soc: real, deficit: real, dt: real)
    requires ScriptBattery(p) && dt > 0.0
    requires p.minSoc <= soc <= p.maxSoc
    ensures var r := ScriptStep(p, soc, deficit, dt);
      r.soc == soc + SocChange(p, r.power, dt)
  {
    if deficit > 0.0 {
      DischargeLedger(p, soc, deficit, dt);
    } else if deficit < 0.0 {
      ChargeLedger(p, soc, -deficit, dt);
    }
  }

  lemma DischargeLedger(p: BatteryParams, soc: real, deficit: real, dt: real)
    requires ScriptBattery(p) && dt > 0.0 && deficit > 0.0
    requires p.minSoc <= soc <= p.maxSoc
    ensures var s := DischargeStep(p, soc, deficit, dt);
      s.soc == soc + SocChange(p, -s.power, dt)
  {
    var s := DischargeStep(p, soc, deficit, dt);
    DischargedSocChange(p, soc, s.power, dt);
  }

  /** Discharging `x >= 0` kW moves the SOC by the change a recorded power of `-x` stands for. */
  lemma DischargedSocChange(p: BatteryParams, soc: real, x: real, dt: real)
    requires WellFormed(p) && x >= 0.0
    ensures DischargedSoc(p, soc, x, dt) == soc + SocChange(p, -x, dt)
  {
    if x > 0.0 {
      NegatedScale(x, dt, p.efficiency, p.capacity);
    }
  }

  lemma NegatedScale(x: real, a: real, b: real, c: real)
    requires b != 0.0 && c != 0.0
    ensures (-x) * a / b / c == -(x * a / b / c)
  {
    assert (-x) * a == -(x * a);
    assert (-(x * a)) / b == -(x * a / b);
    assert (-(x * a / b)) / c == -(x * a / b / c);
  }

  lemma ChargeLedger(p: BatteryParams, soc: real, surplus: real, dt: real)
    requires ScriptBattery(p) && dt > 0.0 && surplus > 0.0
    requires p.minSoc <= soc <= p.maxSoc
    ensures var s := ChargeStep(p, soc, surplus, dt);
      s.soc == soc + SocChange(p, s.power, dt)
  {
    var s := ChargeStep(p, soc, surplus, dt);
    ChargedSocChange(p, soc, s.power, dt);
  }

  /** Charging `x >= 0` kW moves the SOC by the change a recorded power of `x` stands for. */
  lemma ChargedSocChange(p: BatteryParams, soc: real, x: real, dt: real)
    requires WellFormed(p) && x >= 0.0
    ensures ChargedSoc(p, soc, x, dt) == soc + SocChange(p, x, dt)
  {
  }

  /** The SOC change a whole run of battery powers accounts for, step by step. */
  function Ledger(p: BatteryParams, pBattery: seq<real>, dt: real): real
    requires WellFormed(p)
  {
    if pBattery == [] then 0.0
    else Ledger(p, pBattery[..|pBattery| - 1], dt) + SocChange(p, pBattery[|pBattery| - 1], dt)
  }

  /** The step-by-step ledger agrees with its closed form. */
  lemma {:induction false} LedgerClosedForm(p: BatteryParams, s: seq<real>, dt: real)
    requires WellFormed(p)
    ensures Ledger(p, s, dt) == ClosedLedger(p, s, dt)
  {
    if s != [] {
      var s' := s[..|s| - 1];
      var x := s[|s| - 1];
      LedgerClosedForm(p, s', dt);
      ClosedLedgerAppend(p, s, dt);
      Chain(Ledger(p, s, dt), Ledger(p, s', dt), SocChange(p, x, dt), ClosedLedger(p, s, dt), ClosedLedger(p, s', dt));
    }
  }

  lemma ClosedLedgerAppend(p: BatteryParams, s: seq<real>, dt: real)
    requires WellFormed(p) && s != []
    ensures ClosedLedger(p, s, dt) == ClosedLedger(p, s[..|s| - 1], dt) + SocChange(p, s[|s| - 1], dt)
  {
    var s' := s[..|s| - 1];
    var x := s[|s| - 1];
    SocChangeUnfold(p, x, dt);
    LedgerStep(p.efficiency, p.capacity, SumPositive(s'), SumNegative(s'), SumPositive(s), SumNegative(s), x, dt,
               SocChange(p, x, dt));
  }

  /** The closed form: (efficiency x charged - discharged / efficiency) x dt / capacity. */
  function ClosedLedger(p: BatteryParams, s: seq<real>, dt: real): real
    requires WellFormed(p)
  {
    LedgerOf(p.efficiency, p.capacity, SumPositive(s), SumNegative(s), dt)
  }

  function LedgerOf(e: real, c: real, charged: real, discharged: real, dt: real): real
    requires e > 0.0 && c > 0.0
  {
    (e * charged - discharged / e) * dt / c
  }

  lemma Chain(l: real, l': real, d: real, f: real, f': real)
    requires l == l' + d && l' == f' && f == f' + d
    ensures l == f
  {
  }

  lemma SocChangeUnfold(p: BatteryParams, x: real, dt: real)
    requires WellFormed(p)
    ensures SocChange(p, x, dt) ==
        (if x > 0.0 then x * dt * p.efficiency / p.capacity else if x < 0.0 then x * dt / p.efficiency / p.capacity else 0.0)
  {
  }

  lemma LedgerStep(e: real, c: real, P: real, N: real, P2: real, N2: real, x: real, dt: real, d: real)
    requires e > 0.0 && c > 0.0
    requires P2 == P + (if x > 0.0 then x else 0.0)
    requires N2 == N + (if x < 0.0 then -x else 0.0)
    requires d == (if x > 0.0 then x * dt * e / c else if x < 0.0 then x * dt / e / c else 0.0)
    ensures LedgerOf(e, c, P2, N2, dt) == LedgerOf(e, c, P, N, dt) + d
  {
    if x > 0.0 {
      LedgerCharged(e, c, P, N, x, dt);
    } else if x < 0.0 {
      LedgerDischarged(e, c, P, N, x, dt);
    }
  }

  lemma LedgerCharged(e: real, c: real, P: real, N: real, x: real, dt: real)
    requires e > 0.0 && c > 0.0
    ensures (e * (P + x) - N / e) * dt / c == (e * P - N / e) * dt / c + x * dt * e / c
  {
    assert (e * (P + x) - N / e) * dt == (e * P - N / e) * dt + x * dt * e;
  }

  lemma LedgerDischarged(e: real, c: real, P: real, N: real, x: real, dt: real)
    requires e > 0.0 && c > 0.0
    ensures (e * P - (N - x) / e) * dt / c == (e * P - N / e) * dt / c + x * dt / e / c
  {
    assert (N - x) / e == N / e - x / e;
    assert (e * P - (N - x) / e) * dt == (e * P - N / e) * dt + x / e * dt;
    assert x / e * dt == x * dt / e;
  }

  /**
   * Over a whole run whose steps each obey the ledger, the final SOC is the
   * initial SOC plus the run's Ledger.
   */
  lemma {:induction false} SocLedger(p: BatteryParams, soc: seq<real>, pBattery: seq<real>, dt: real)
    requires WellFormed(p)
    requires |soc| == |pBattery| >= 1 && pBattery[0] == 0.0
    requires forall i :: 1 <= i < |soc| ==> soc[i] == soc[i - 1] + SocChange(p, pBattery[i], dt)
    ensures soc[|soc| - 1] == soc[0] + Ledger(p, pBattery, dt)
  {
    var n := |soc|;
    if n > 1 {
      SocLedger(p, soc[..n - 1], pBattery[..n - 1], dt);
    }
  }

  /**
   * A run that ends at its starting SOC reports a battery efficiency of
   * efficiency squared: every kWh discharged cost 1/efficiency^2 kWh charged.
   */
  lemma BalancedRunEfficiency(p: BatteryParams, pBattery: seq<real>, dt: real)
    requires WellFormed(p) && dt > 0.0
    requires Ledger(p, pBattery, dt) == 0.0 && SumPositive(pBattery) > 0.0
    ensures Percent(DischargedEnergy(pBattery, dt), ChargedEnergy(pBattery, dt))
              == p.efficiency * p.efficiency * 100.0
  {
    var e, P, N := p.efficiency, SumPositive(pBattery), SumNegative(pBattery);
    LedgerClosedForm(p, pBattery, dt);
    ZeroScaled(e * P - N / e, dt, p.capacity);
    EfficiencyAlgebra(e, P, N, dt);
    assert ChargedEnergy(pBattery, dt) == P * dt;
    assert DischargedEnergy(pBattery, dt) == N * dt;
    assert P * dt > 0.0;
    assert GuardedRatio(N * dt, P * dt) == (N * dt) / (P * dt);
  }

  lemma ZeroScaled(x: real, a: real, b: real)
    requires a > 0.0 && b > 0.0 && x * a / b == 0.0
    ensures x == 0.0
  {
    assert x * a == 0.0;
  }

  lemma EfficiencyAlgebra(e: real, P: real, N: real, dt: real)
    requires e > 0.0 && P > 0.0 && dt > 0.0 && e * P - N / e == 0.0
    ensures (N * dt) / (P * dt) == e * e
  {
    assert N / e == e * P;
    assert N == e * e * P;
    assert (N * dt) / (P * dt) == N / P;
  }

  /**
   * What the loop records at one index: the step the scripts' rule takes
   * from the previous SOC, the SOC movement its power stands for, and the
   * rate limits.
   */
  predicate Recorded(p: BatteryParams, prevSoc: real, deficit: real, dt: real, power: real, newSoc: real)
    requires WellFormed(p) && dt > 0.0
  {
    && Step(power, newSoc) == ScriptStep(p, prevSoc, deficit, dt)
    && newSoc == prevSoc + SocChange(p, power, dt)
    && -p.maxDischargeRate <= power <= p.maxChargeRate
  }

  /**
   * The battery simulation loop: SOC starts at `socInit`, step `i` reads
   * `SOC[i-1]`, and the arrays are written index by index.
   */
  method SimulateBattery(p: BatteryParams, pPv: seq<real>, pWind: seq<real>, pLoad: seq<real>,
                         socInit: real, dtHours: real)
    returns (soc: array<real>, pBattery: array<real>)
    requires ScriptBattery(p) && dtHours > 0.0
    requires |pLoad| >= 1 && |pPv| == |pLoad| && |pWind| == |pLoad|
    requires p.minSoc <= socInit <= p.maxSoc
    ensures soc.Length == |pLoad| && pBattery.Length == |pLoad|
    ensures soc[0] == socInit && pBattery[0] == 0.0
    ensures forall i :: 1 <= i < |pLoad| ==>
              Recorded(p, soc[i - 1], pLoad[i] - (pPv[i] + pWind[i]), dtHours, pBattery[i], soc[i])
    ensures forall i :: 0 <= i < |pLoad| ==> p.minSoc <= soc[i] <= p.maxSoc
    ensures forall i :: 0 <= i < |pLoad| ==> -p.maxDischargeRate <= pBattery[i] <= p.maxChargeRate
  {
    var n := |pLoad|;
    soc := new real[n](_ => 0.0);
    pBattery := new real[n](_ => 0.0);
    soc[0] := socInit;
    RunSteps(p, pPv, pWind, pLoad, dtHours, soc, pBattery);
    assert RecordedUpTo(p, pPv, pWind, pLoad, dtHours, soc[..], pBattery[..], n);
  }

  /** The loop of the battery simulation, filling steps 1 .. n-1 of both arrays. */
  method RunSteps(p: BatteryParams, pPv: seq<real>, pWind: seq<real>, pLoad: seq<real>, dtHours: real,
                  soc: array<real>, pBattery: array<real>)
    requires ScriptBattery(p) && dtHours > 0.0
    requires soc != pBattery && soc.Length == pBattery.Length == |pLoad| >= 1
    requires |pPv| == |pLoad| && |pWind| == |pLoad|
    requires p.minSoc <= soc[0] <= p.maxSoc
    modifies soc, pBattery
    ensures soc[0] == old(soc[0]) && pBattery[0] == old(pBattery[0])
    ensures RecordedUpTo(p, pPv, pWind, pLoad, dtHours, soc[..], pBattery[..], |pLoad|)
  {
    for i := 1 to |pLoad|
      invariant soc[0] == old(soc[0]) && pBattery[0] == old(pBattery[0])
      invariant RecordedUpTo(p, pPv, pWind, pLoad, dtHours, soc[..], pBattery[..], i)
    {
      var pGen := pPv[i] + pWind[i];
      var pDeficit := pLoad[i] - pGen;
      var pBatt, newSoc := BatteryStep(p, soc[i - 1], pDeficit, dtHours);
      ghost var socBefore, powerBefore := soc[..], pBattery[..];
      pBattery[i] := pBatt;
      soc[i] := newSoc;
      ExtendRecorded(p, pPv, pWind, pLoad, dtHours, socBefore, powerBefore, i, pBatt, newSoc);
      assert soc[..] == socBefore[i := newSoc] && pBattery[..] == powerBefore[i := pBatt];
    }
  }

  /**
   * The loop invariant of the battery simulation on snapshots of the two
   * arrays: steps 1 .. i-1 are recorded and every SOC so far is in band.
   */
  ghost predicate RecordedUpTo(p: BatteryParams, pPv: seq<real>, pWind: seq<real>, pLoad: seq<real>, dt: real,
                               soc: seq<real>, power: seq<real>, i: nat)
    requires WellFormed(p) && dt > 0.0
  {
    && i <= |soc| == |power| == |pLoad| == |pPv| == |pWind|
    && (forall k :: 0 <= k < i ==> p.minSoc <= soc[k] <= p.maxSoc)
    && (forall k :: 1 <= k < i ==> Recorded(p, soc[k - 1], pLoad[k] - (pPv[k] + pWind[k]), dt, power[k], soc[k]))
    && (forall k :: 1 <= k < i ==> -p.maxDischargeRate <= power[k] <= p.maxChargeRate)
  }

  /** Writing step i into both snapshots extends the invariant by one step. */
  lemma ExtendRecorded(p: BatteryParams, pPv: seq<real>, pWind: seq<real>, pLoad: seq<real>, dt: real,
                       soc: seq<real>, power: seq<real>, i: nat, pBatt: real, newSoc: real)
    requires WellFormed(p) && dt > 0.0
    requires RecordedUpTo(p, pPv, pWind, pLoad, dt, soc, power, i) && 1 <= i < |soc|
    requires Recorded(p, soc[i - 1], pLoad[i] - (pPv[i] + pWind[i]), dt, pBatt, newSoc)
    requires p.minSoc <= newSoc <= p.maxSoc
    ensures RecordedUpTo(p, pPv, pWind, pLoad, dt, soc[i := newSoc], power[i := pBatt], i + 1)
  {
  }

  /** The body of one iteration of the battery loop, branch by branch. */
  method BatteryStep(p: BatteryParams, prevSoc: real, pDeficit: real, dtHours: real)
    returns (pBatt: real, newSoc: real)
    requires ScriptBattery(p) && dtHours > 0.0
    requires p.minSoc <= prevSoc <= p.maxSoc
    ensures Recorded(p, prevSoc, pDeficit, dtHours, pBatt, newSoc)
    ensures p.minSoc <= newSoc <= p.maxSoc
  {
    ScriptStepBounds(p, prevSoc, pDeficit, dtHours);
    ScriptStepLedger(p, prevSoc, pDeficit, dtHours);
    if pDeficit > 0.0 {
      var discharge;
      discharge, newSoc := DischargeBranch(p, prevSoc, pDeficit, dtHours);
      pBatt := -discharge;
    } else if pDeficit < 0.0 {
      pBatt, newSoc := ChargeBranch(p, prevSoc, -pDeficit, dtHours);
    } else {
      pBatt := 0.0;
      newSoc := prevSoc;
    }
  }

  /** The discharge branch of the loop body: rate limit, then clamp at SOC_min. */
  method DischargeBranch(p: BatteryParams, prevSoc: real, deficit: real, dtHours: real)
    returns (pBatt: real, newSoc: real)
    requires WellFormed(p) && dtHours > 0.0
    ensures Step(pBatt, newSoc) == DischargeStep(p, prevSoc, deficit, dtHours)
  {
    pBatt := Min(deficit, p.maxDischargeRate);
    newSoc := DischargedSoc(p, prevSoc, pBatt, dtHours);
    if newSoc < p.minSoc {
      pBatt := (prevSoc - p.minSoc) * p.capacity * p.efficiency / dtHours;
      newSoc := p.minSoc;
    }
  }

  /** The charge branch of the loop body: rate limit, then clamp at SOC_max. */
  method ChargeBranch(p: BatteryParams, prevSoc: real, surplus: real, dtHours: real)
    returns (pBatt: real, newSoc: real)
    requires WellFormed(p) && dtHours > 0.0
    ensures Step(pBatt, newSoc) == ChargeStep(p, prevSoc, surplus, dtHours)
  {
    pBatt := Min(surplus, p.maxChargeRate);
    newSoc := ChargedSoc(p, prevSoc, pBatt, dtHours);
    if newSoc > p.maxSoc {
      pBatt := (p.maxSoc - prevSoc) * p.capacity / (dtHours * p.efficiency);
      newSoc := p.maxSoc;
    }
  }

  /** Energy over a power series sampled every `dt` hours: `np.sum(P) * dt`. */
  function Energy(series: seq<real>, dt: real): real
  {
    Sum(series) * dt
  }

  /** Energy charged into the battery: the positive battery powers times dt. */
  function ChargedEnergy(pBattery: seq<real>, dt: real): (e: real)
    ensures dt >= 0.0 ==> e >= 0.0
  {
    SumPositiveNonNegative(pBattery);
    MulNonNegative(SumPositive(pBattery), Max(dt, 0.0));
    SumPositive(pBattery) * dt
  }

  /** Energy drawn from the battery: the magnitudes of the negative battery powers times dt. */
  function DischargedEnergy(pBattery: seq<real>, dt: real): (e: real)
    ensures dt >= 0.0 ==> e >= 0.0
  {
    SumNegativeNonNegative(pBattery);
    MulNonNegative(SumNegative(pBattery), Max(dt, 0.0));
    SumNegative(pBattery) * dt
  }

  /** `(num / den) * 100 if den > 0 else 0`. */
  function Percent(num: real, den: real): (r: real)
    ensures den <= 0.0 ==> r == 0.0
    ensures den > 0.0 ==> r * den == num * 100.0
  {
    GuardedRatio(num, den) * 100.0
  }
}
