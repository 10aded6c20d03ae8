/**
 * The DC microgrid's component models: the photovoltaic array, the wind
 * turbine, the battery energy storage system and the loads.  Quantities are
 * kW, kWh, hours, m/s, W/m^2 and degrees Celsius, as in the source; floats
 * are modelled as `real`.
 */
module Components {
  import opened Numerics

  // ---------------------------------------------------------------------
  // Photovoltaic system
  // ---------------------------------------------------------------------

  datatype PVParams = PVParams(ratedPower: real, efficiency: real, tempCoefficient: real, panelArea: real)

  /** Temperature at which the panel delivers its nominal efficiency (deg C). */
  const ReferenceTemp: real := 25.0

  /** The constructor's `config.get(...)` defaults. */
  function PVParamsOf(config: map<string, real>): PVParams
  {
    PVParams(Lookup(config, "rated_power", 50.0), Lookup(config, "efficiency", 0.18),
             Lookup(config, "temperature_coefficient", -0.004), Lookup(config, "panel_area", 278.0))
  }

  /** The linear irradiance/temperature expression before the rated-power cap. */
  function UncappedPVPower(p: PVParams, irradiance: real, temperature: real): real
  {
    var tempFactor := 1.0 + p.tempCoefficient * (temperature - ReferenceTemp);
    (irradiance / 1000.0) * p.panelArea * p.efficiency * tempFactor
  }

  /** PV output in kW: the linear expression capped at the rated power. */
  function PVPower(p: PVParams, irradiance: real, temperature: real): (r: real)
    ensures r <= p.ratedPower
    ensures r <= UncappedPVPower(p, irradiance, temperature)
    ensures r == p.ratedPower || r == UncappedPVPower(p, irradiance, temperature)
    ensures irradiance == 0.0 && p.ratedPower >= 0.0 ==> r == 0.0
  {
    DarkPanel(p, temperature);
    Min(UncappedPVPower(p, irradiance, temperature), p.ratedPower)
  }

  lemma DarkPanel(p: PVParams, temperature: real)
    ensures UncappedPVPower(p, 0.0, temperature) == 0.0
  {
  }

  /**
   * Where the temperature factor is non-negative, more irradiance never
   * yields less PV power.
   */
  lemma PVPowerMonotone(p: PVParams, g1: real, g2: real, temperature: real)
    requires p.panelArea >= 0.0 && p.efficiency >= 0.0
    requires 1.0 + p.tempCoefficient * (temperature - ReferenceTemp) >= 0.0
    requires g1 <= g2
    ensures PVPower(p, g1, temperature) <= PVPower(p, g2, temperature)
  {
    var k := p.panelArea * p.efficiency * (1.0 + p.tempCoefficient * (temperature - ReferenceTemp));
    assert k >= 0.0 by {
      MulNonNegative(p.panelArea, p.efficiency);
      MulNonNegative(p.panelArea * p.efficiency, 1.0 + p.tempCoefficient * (temperature - ReferenceTemp));
    }
    assert UncappedPVPower(p, g1, temperature) == (g1 / 1000.0) * k;
    assert UncappedPVPower(p, g2, temperature) == (g2 / 1000.0) * k;
    assert (g1 / 1000.0) * k <= (g2 / 1000.0) * k by {
      MulNonNegative(g2 / 1000.0 - g1 / 1000.0, k);
    }
  }

  // ---------------------------------------------------------------------
  // Wind turbine
  // ---------------------------------------------------------------------

  datatype WindParams = WindParams(ratedPower: real, cutInSpeed: real, ratedSpeed: real,
                                   cutOutSpeed: real, rotorDiameter: real)

  const AirDensity: real := 1.225        // kg/m^3
  const PowerCoefficient: real := 0.4
  /** The double-precision value of pi used for the swept area. */
  const Pi: real := 3.141592653589793

  function WindParamsOf(config: map<string, real>): WindParams
  {
    WindParams(Lookup(config, "rated_power", 30.0), Lookup(config, "cut_in_speed", 3.0),
               Lookup(config, "rated_speed", 12.0), Lookup(config, "cut_out_speed", 25.0),
               Lookup(config, "rotor_diameter", 8.0))
  }

  function SweptArea(p: WindParams): real
  {
    Pi * (p.rotorDiameter / 2.0) * (p.rotorDiameter / 2.0)
  }

  /** The aerodynamic power `0.5 rho A Cp v^3`, converted to kW. */
  function AeroPowerKw(p: WindParams, v: real): real
  {
    0.5 * AirDensity * SweptArea(p) * PowerCoefficient * (v * v * v) / 1000.0
  }

  /** Parameters for which the power curve is physically meaningful. */
  predicate ValidWind(p: WindParams)
  {
    p.ratedPower >= 0.0 && p.cutInSpeed >= 0.0
  }

  /**
   * The three-region power curve: nothing outside [cut-in, cut-out], the
   * rated power from the rated speed up to cut-out (inclusive), and the
   * aerodynamic power capped at rated in between.
   */
  function WindPower(p: WindParams, v: real): (r: real)
    ensures v < p.cutInSpeed || v > p.cutOutSpeed ==> r == 0.0
    ensures p.cutInSpeed <= v <= p.cutOutSpeed && p.ratedSpeed <= v ==> r == p.ratedPower
    ensures p.cutInSpeed <= v <= p.cutOutSpeed && v < p.ratedSpeed ==>
              r == Min(AeroPowerKw(p, v), p.ratedPower)
    ensures ValidWind(p) ==> 0.0 <= r <= p.ratedPower
  {
    if v < p.cutInSpeed || v > p.cutOutSpeed then 0.0
    else if v >= p.ratedSpeed then p.ratedPower
    else
      AeroPowerNonNegative(p, v);
      Min(AeroPowerKw(p, v), p.ratedPower)
  }

  lemma AeroPowerNonNegative(p: WindParams, v: real)
    ensures v >= 0.0 ==> AeroPowerKw(p, v) >= 0.0
  {
    if v >= 0.0 {
      MulNonNegative(v, v);
      MulNonNegative(v * v, v);
      var d := p.rotorDiameter / 2.0;
      assert d * d >= 0.0;
      assert SweptArea(p) == Pi * (d * d);
      MulNonNegative(Pi, d * d);
      var c := 0.5 * AirDensity * SweptArea(p) * PowerCoefficient;
      assert c >= 0.0;
      MulNonNegative(c, v * v * v);
    }
  }

  lemma {:induction false} CubeMonotone(a: real, b: real)
    requires 0.0 <= a <= b
    ensures a * a * a <= b * b * b
  {
    assert a * a <= b * b by {
      assert a * a <= a * b;
      assert a * b <= b * b;
    }
    assert a * a * a <= b * b * a;
    assert b * b * a <= b * b * b;
  }

  /**
   * On the operating envelope the curve never falls as the wind rises.
   */
  lemma WindPowerMonotone(p: WindParams, v1: real, v2: real)
    requires ValidWind(p)
    requires p.cutInSpeed <= v1 <= v2 <= p.cutOutSpeed
    ensures WindPower(p, v1) <= WindPower(p, v2)
  {
    if v2 < p.ratedSpeed {
      CubeMonotone(v1, v2);
      var c := 0.5 * AirDensity * SweptArea(p) * PowerCoefficient;
      assert c >= 0.0;
      assert c * (v1 * v1 * v1) <= c * (v2 * v2 * v2);
      assert AeroPowerKw(p, v1) <= AeroPowerKw(p, v2);
    }
  }

  /** The tip speed ratio `(omega D/2) / v`, defined as 0 in still air. */
  function TipSpeedRatio(p: WindParams, windSpeed: real, rotorSpeed: real): (r: real)
    ensures windSpeed == 0.0 ==> r == 0.0
    ensures windSpeed != 0.0 ==> r * windSpeed == rotorSpeed * p.rotorDiameter / 2.0
  {
    if windSpeed == 0.0 then 0.0 else (rotorSpeed * p.rotorDiameter / 2.0) / windSpeed
  }

  // ---------------------------------------------------------------------
  // Battery energy storage: the SOC clamp rule
  // ---------------------------------------------------------------------

  datatype BatteryParams = BatteryParams(capacity: real, maxChargeRate: real, maxDischargeRate: real,
                                         efficiency: real, minSoc: real, maxSoc: real)

  /** The battery divides by its capacity and its efficiency. */
  predicate WellFormed(p: BatteryParams)
  {
    p.capacity > 0.0 && p.efficiency > 0.0
  }

  /** The outcome of one charge or discharge: delivered power and resulting SOC. */
  datatype Step = Step(power: real, soc: real)

  /** SOC after charging `power` kW for `dt` hours: stored energy is scaled by the efficiency. */
  function ChargedSoc(p: BatteryParams, soc: real, power: real, dt: real): real
    requires WellFormed(p)
  {
    soc + power * dt * p.efficiency / p.capacity
  }

  /** SOC after discharging `power` kW for `dt` hours: drawn energy is divided by the efficiency. */
  function DischargedSoc(p: BatteryParams, soc: real, power: real, dt: real): real
    requires WellFormed(p)
  {
    soc - power * dt / p.efficiency / p.capacity
  }

  /**
   * Charging: the request is rate-limited; if the resulting SOC would pass
   * max_soc it is clamped there and the delivered power recomputed.
   */
  function ChargeStep(p: BatteryParams, soc: real, power: real, dt: real): (r: Step)
    requires WellFormed(p) && dt > 0.0
    // the clamp only ever lowers the rate-limited request
    ensures r.power <= Min(power, p.maxChargeRate)
    // the delivered power is exactly what moved the SOC
    ensures r.soc == ChargedSoc(p, soc, r.power, dt)
    ensures ChargedSoc(p, soc, Min(power, p.maxChargeRate), dt) <= p.maxSoc ==>
              r.power == Min(power, p.maxChargeRate)
    ensures ChargedSoc(p, soc, Min(power, p.maxChargeRate), dt) > p.maxSoc ==> r.soc == p.maxSoc
    ensures soc <= p.maxSoc ==> r.soc <= p.maxSoc
    ensures soc <= p.maxSoc && power >= 0.0 && p.maxChargeRate >= 0.0 ==>
              r.power >= 0.0 && r.soc >= soc
  {
    var requested := Min(power, p.maxChargeRate);
    if ChargedSoc(p, soc, requested, dt) > p.maxSoc then
      var actual := (p.maxSoc - soc) * p.capacity / (dt * p.efficiency);
      ChargeClampFacts(p, soc, requested, dt);
      Step(actual, p.maxSoc)
    else
      ChargeUnclampedFacts(p, soc, requested, dt);
      Step(requested, ChargedSoc(p, soc, requested, dt))
  }

  lemma ChargeClampFacts(p: BatteryParams, soc: real, requested: real, dt: real)
    requires WellFormed(p) && dt > 0.0
    requires ChargedSoc(p, soc, requested, dt) > p.maxSoc
    ensures var actual := (p.maxSoc - soc) * p.capacity / (dt * p.efficiency);
      && ChargedSoc(p, soc, actual, dt) == p.maxSoc
      && actual < requested
      && (soc <= p.maxSoc ==> actual >= 0.0)
  {
    ChargeClampAlgebra(soc, p.maxSoc, requested, dt, p.efficiency, p.capacity);
  }

  lemma ChargeClampAlgebra(soc: real, maxSoc: real, requested: real, dt: real, e: real, c: real)
    requires dt > 0.0 && e > 0.0 && c > 0.0
    requires soc + requested * dt * e / c > maxSoc
    ensures var actual := (maxSoc - soc) * c / (dt * e);
      && soc + actual * dt * e / c == maxSoc
      && actual < requested
      && (soc <= maxSoc ==> actual >= 0.0)
  {
    var k := dt * e / c;
    assert k > 0.0;
    var actual := (maxSoc - soc) * c / (dt * e);
    assert actual == (maxSoc - soc) / k;
    assert actual * k == maxSoc - soc;
    assert actual * dt * e / c == actual * k;
    assert requested * dt * e / c == requested * k;
    CancelFactor(actual, requested, k);
  }

  lemma ChargeUnclampedFacts(p: BatteryParams, soc: real, requested: real, dt: real)
    requires WellFormed(p) && dt > 0.0
    ensures requested >= 0.0 ==> ChargedSoc(p, soc, requested, dt) >= soc
  {
    if requested >= 0.0 {
      assert requested * dt >= 0.0;
      assert requested * dt * p.efficiency >= 0.0;
    }
  }

  /**
   * Discharging: the request is rate-limited; if the resulting SOC would
   * fall below min_soc it is clamped there and the delivered power recomputed.
   */
  function DischargeStep(p: BatteryParams, soc: real, power: real, dt: real): (r: Step)
    requires WellFormed(p) && dt > 0.0
    ensures r.power <= Min(power, p.maxDischargeRate)
    ensures r.soc == DischargedSoc(p, soc, r.power, dt)
    ensures DischargedSoc(p, soc, Min(power, p.maxDischargeRate), dt) >= p.minSoc ==>
              r.power == Min(power, p.maxDischargeRate)
    ensures DischargedSoc(p, soc, Min(power, p.maxDischargeRate), dt) < p.minSoc ==> r.soc == p.minSoc
    ensures soc >= p.minSoc ==> r.soc >= p.minSoc
    ensures soc >= p.minSoc && power >= 0.0 && p.maxDischargeRate >= 0.0 ==>
              r.power >= 0.0 && r.soc <= soc
  {
    var requested := Min(power, p.maxDischargeRate);
    if DischargedSoc(p, soc, requested, dt) < p.minSoc then
      var actual := (soc - p.minSoc) * p.capacity * p.efficiency / dt;
      DischargeClampFacts(p, soc, requested, dt);
      Step(actual, p.minSoc)
    else
      DischargeUnclampedFacts(p, soc, requested, dt);
      Step(requested, DischargedSoc(p, soc, requested, dt))
  }

  lemma DischargeClampFacts(p: BatteryParams, soc: real, requested: real, dt: real)
    requires WellFormed(p) && dt > 0.0
    requires DischargedSoc(p, soc, requested, dt) < p.minSoc
    ensures var actual := (soc - p.minSoc) * p.capacity * p.efficiency / dt;
      && DischargedSoc(p, soc, actual, dt) == p.minSoc
      && actual < requested
      && (soc >= p.minSoc ==> actual >= 0.0)
  {
    DischargeClampAlgebra(soc, p.minSoc, requested, dt, p.efficiency, p.capacity);
  }

  lemma DischargeClampAlgebra(soc: real, minSoc: real, requested: real, dt: real, e: real, c: real)
    requires dt > 0.0 && e > 0.0 && c > 0.0
    requires soc - requested * dt / e / c < minSoc
    ensures var actual := (soc - minSoc) * c * e / dt;
      && soc - actual * dt / e / c == minSoc
      && actual < requested
      && (soc >= minSoc ==> actual >= 0.0)
  {
    var k := dt / e / c;
    assert k > 0.0;
    var actual := (soc - minSoc) * c * e / dt;
    assert actual == (soc - minSoc) / k;
    assert actual * k == soc - minSoc;
    assert actual * dt / e / c == actual * k;
    assert requested * dt / e / c == requested * k;
    CancelFactor(actual, requested, k);
  }

  lemma DischargeUnclampedFacts(p: BatteryParams, soc: real, requested: real, dt: real)
    requires WellFormed(p) && dt > 0.0
    ensures requested >= 0.0 ==> DischargedSoc(p, soc, requested, dt) <= soc
  {
    if requested >= 0.0 {
      assert requested * dt >= 0.0;
      assert requested * dt / p.efficiency >= 0.0;
    }
  }

  /**
   * Round-trip loss: charging and then discharging the same power for the
   * same time, with neither step clamped, leaves the SOC lower by
   * `P dt (1/eff - eff) / capacity`, which is strictly positive when eff < 1.
   */
  lemma RoundTripLoss(p: BatteryParams, soc: real, power: real, dt: real)
    requires WellFormed(p) && dt > 0.0 && p.efficiency < 1.0 && power > 0.0
    requires ChargeStep(p, soc, power, dt).power == power
    requires DischargeStep(p, ChargeStep(p, soc, power, dt).soc, power, dt).power == power
    ensures DischargeStep(p, ChargeStep(p, soc, power, dt).soc, power, dt).soc
              == soc - power * dt * (1.0 / p.efficiency - p.efficiency) / p.capacity
    ensures DischargeStep(p, ChargeStep(p, soc, power, dt).soc, power, dt).soc < soc
  {
    var charged := ChargeStep(p, soc, power, dt).soc;
    assert charged == ChargedSoc(p, soc, power, dt);
    RoundTripSoc(p, soc, power, dt);
  }

  lemma RoundTripSoc(p: BatteryParams, soc: real, power: real, dt: real)
    requires WellFormed(p) && dt > 0.0 && p.efficiency < 1.0 && power > 0.0
    ensures DischargedSoc(p, ChargedSoc(p, soc, power, dt), power, dt)
              == soc - power * dt * (1.0 / p.efficiency - p.efficiency) / p.capacity
    ensures soc - power * dt * (1.0 / p.efficiency - p.efficiency) / p.capacity < soc
  {
    RoundTripAlgebra(soc, power * dt, p.efficiency, p.capacity);
  }

  lemma RoundTripAlgebra(soc: real, e: real, eff: real, cap: real)
    requires e > 0.0 && 0.0 < eff < 1.0 && cap > 0.0
    ensures soc + e * eff / cap - e / eff / cap == soc - e * (1.0 / eff - eff) / cap
    ensures soc - e * (1.0 / eff - eff) / cap < soc
  {
    assert 1.0 / eff > 1.0 by {
      assert (1.0 / eff) * eff == 1.0;
    }
    assert e * (1.0 / eff - eff) > 0.0;
  }

  // ---------------------------------------------------------------------
  // Battery energy storage: the stateful object
  // ---------------------------------------------------------------------

  function BatteryParamsOf(config: map<string, real>): BatteryParams
  {
    BatteryParams(Lookup(config, "capacity", 100.0), Lookup(config, "max_charge_rate", 50.0),
                  Lookup(config, "max_discharge_rate", 50.0), Lookup(config, "efficiency", 0.90),
                  Lookup(config, "min_soc", 0.2), Lookup(config, "max_soc", 0.95))
  }

  lemma SignOfScaled(x: real, c: real)
    ensures c > 0.0 ==> (x * c >= 0.0 <==> x >= 0.0)
  {
    if c > 0.0 && x < 0.0 {
      assert x * c < 0.0;
    }
  }

  lemma SplitRange(lo: real, x: real, hi: real, c: real)
    ensures (hi - x) * c + (x - lo) * c == (hi - lo) * c
  {
  }

  class BatteryStorage {
    const capacity: real            // kWh
    const maxChargeRate: real       // kW
    const maxDischargeRate: real    // kW
    const efficiency: real
    const minSoc: real
    const maxSoc: real
    /** Declared for capacity fade; no operation reads it. */
    const capacityFadeRate: real
    var soc: real
    var cycleCount: real

    function Params(): BatteryParams
    {
      BatteryParams(capacity, maxChargeRate, maxDischargeRate, efficiency, minSoc, maxSoc)
    }

    predicate Valid()
    {
      WellFormed(Params())
    }

    constructor (config: map<string, real>)
      requires WellFormed(BatteryParamsOf(config))
      ensures Valid() && Params() == BatteryParamsOf(config)
      ensures soc == Lookup(config, "initial_soc", 0.5) && cycleCount == 0.0
    {
      var p := BatteryParamsOf(config);
      capacity := p.capacity;
      maxChargeRate := p.maxChargeRate;
      maxDischargeRate := p.maxDischargeRate;
      efficiency := p.efficiency;
      minSoc := p.minSoc;
      maxSoc := p.maxSoc;
      soc := Lookup(config, "initial_soc", 0.5);
      cycleCount := 0.0;
      capacityFadeRate := 0.0001;
    }

    /** Charge with `power` kW for `dt` hours; returns (delivered power, new SOC). */
    method Charge(power: real, dt: real) returns (actualPower: real, newSoc: real)
      requires Valid() && dt > 0.0
      modifies this
      ensures Step(actualPower, newSoc) == ChargeStep(Params(), old(soc), power, dt)
      ensures soc == newSoc && cycleCount == old(cycleCount)
    {
      actualPower := Min(power, maxChargeRate);
      newSoc := ChargedSoc(Params(), soc, actualPower, dt);
      if newSoc > maxSoc {
        actualPower := (maxSoc - soc) * capacity / (dt * efficiency);
        newSoc := maxSoc;
      }
      soc := newSoc;
    }

    /**
     * Discharge with `power` kW for `dt` hours; returns (delivered power,
     * new SOC) and counts `dt / 2` half cycles.
     */
    method Discharge(power: real, dt: real) returns (actualPower: real, newSoc: real)
      requires Valid() && dt > 0.0
      modifies this
      ensures Step(actualPower, newSoc) == DischargeStep(Params(), old(soc), power, dt)
      ensures soc == newSoc && cycleCount == old(cycleCount) + dt / 2.0
    {
      actualPower := Min(power, maxDischargeRate);
      newSoc := DischargedSoc(Params(), soc, actualPower, dt);
      if newSoc < minSoc {
        actualPower := (soc - minSoc) * capacity * efficiency / dt;
        newSoc := minSoc;
      }
      soc := newSoc;
      cycleCount := cycleCount + dt / 2.0;
    }

    /** Energy that can still be drawn before min_soc (kWh). */
    function AvailableCapacity(): (r: real)
      reads this
      ensures Valid() ==> (r >= 0.0 <==> soc >= minSoc)
    {
      SignOfScaled(soc - minSoc, capacity);
      (soc - minSoc) * capacity
    }

    /** Energy that can still be stored before max_soc (kWh). */
    function RemainingCapacity(): (r: real)
      reads this
      ensures Valid() ==> (r >= 0.0 <==> soc <= maxSoc)
      ensures r + AvailableCapacity() == (maxSoc - minSoc) * capacity
    {
      SignOfScaled(maxSoc - soc, capacity);
      SplitRange(minSoc, soc, maxSoc, capacity);
      (maxSoc - soc) * capacity
    }
  }

  // ---------------------------------------------------------------------
  // Loads
  // ---------------------------------------------------------------------

  datatype LoadParams = LoadParams(power: real, priority: real, powerFactor: real, voltageDependency: real)

  function LoadParamsOf(config: map<string, real>): LoadParams
  {
    LoadParams(Lookup(config, "power", 50.0), Lookup(config, "priority", 2.0),
               Lookup(config, "power_factor", 0.95), Lookup(config, "voltage_dependency", 1.5))
  }

  /** Load current in A from the rated power in kW; 0 at zero voltage. */
  function LoadCurrent(l: LoadParams, voltage: real): (r: real)
    ensures voltage == 0.0 ==> r == 0.0
    ensures voltage != 0.0 ==> r * voltage == l.power * 1000.0
  {
    if voltage == 0.0 then 0.0 else (l.power * 1000.0) / voltage
  }

  /** Priority 1 marks a critical load; 2 (the default) a non-critical one. */
  function IsCritical(l: LoadParams): (critical: bool)
    ensures critical <==> l.priority == 1.0
  {
    l.priority == 1.0
  }

  /**
   * A load built from its configuration is critical exactly when the
   * configuration sets priority 1; without a priority (default 2) it is not.
   */
  lemma ConfiguredCritical(config: map<string, real>)
    ensures IsCritical(LoadParamsOf(config)) <==> "priority" in config && config["priority"] == 1.0
  {
  }
}
