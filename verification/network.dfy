/**
 * The DC microgrid network: combines PV, wind, battery and loads into a
 * power balance each time step, classifies stability against the
 * protection thresholds and computes reliability indices.
 */
module Network {
  import opened Wrappers
  import opened Numerics
  import opened Components

  datatype ProtectionConfig = ProtectionConfig(undervoltageThreshold: real, overvoltageThreshold: real,
                                               overcurrentThreshold: real)

  /**
   * The system configuration: a component section is `Some` exactly when it
   * is enabled; `loads` lists the load sections in configuration order.
   */
  datatype NetworkConfig = NetworkConfig(voltageLevel: real, frequency: real,
                                         photovoltaic: Option<map<string, real>>,
                                         windTurbine: Option<map<string, real>>,
                                         bess: Option<map<string, real>>,
                                         loads: seq<map<string, real>>,
                                         protection: ProtectionConfig)

  /** Accumulated energy metrics; reliability events are given by their durations. */
  datatype Metrics = Metrics(energyGenerated: real, energyConsumed: real, energyStored: real,
                             energyLosses: real, reliabilityEvents: seq<real>)

  const InitialMetrics: Metrics := Metrics(0.0, 0.0, 0.0, 0.0, [])

  datatype PowerBalance = PowerBalance(pvPower: real, windPower: real, totalGeneration: real,
                                       totalLoad: real, batteryPower: real, batterySoc: real,
                                       netPower: real, voltage: real, powerDeficit: real)

  datatype Stability = Stability(stable: bool, voltagePu: real, undervoltage: bool, overvoltage: bool,
                                 overcurrent: bool, totalCurrent: real)

  datatype Reliability = Reliability(saifi: real, saidi: real, caidi: real)

  /** Current assumed as rated for the overcurrent check (A). */
  const RatedCurrent: real := 100.0

  /** Sum of the configured load powers. */
  function TotalLoad(loads: seq<LoadParams>): real
  {
    if loads == [] then 0.0 else TotalLoad(loads[..|loads| - 1]) + loads[|loads| - 1].power
  }

  /**
   * The battery's answer to a power deficit: discharge on a deficit, charge
   * with the surplus, and stay idle when the two balance exactly.  The step's
   * power is the (non-negative) power delivered in either direction.
   */
  function Dispatch(p: BatteryParams, soc: real, deficit: real, dt: real): Step
    requires WellFormed(p) && dt > 0.0
  {
    if deficit > 0.0 then DischargeStep(p, soc, deficit, dt)
    else if deficit < 0.0 then ChargeStep(p, soc, -deficit, dt)
    else Step(0.0, soc)
  }

  /** The energy metrics after one step: generation and consumption grow by power x dt. */
  function Accumulate(m: Metrics, totalGeneration: real, totalLoad: real, dt: real): Metrics
  {
    m.(energyGenerated := m.energyGenerated + totalGeneration * dt,
       energyConsumed := m.energyConsumed + totalLoad * dt)
  }

  /** Signed net power: positive is surplus, negative is deficit. */
  function NetPower(totalGeneration: real, batteryPower: real, totalLoad: real): real
  {
    totalGeneration + batteryPower - totalLoad
  }

  /**
   * Dispatch keeps the SOC inside [min_soc, max_soc] and delivers a power
   * between 0 and the rate limit of the direction it runs in.
   */
  lemma DispatchStaysInBand(p: BatteryParams, soc: real, deficit: real, dt: real)
    requires WellFormed(p) && dt > 0.0
    requires p.maxChargeRate >= 0.0 && p.maxDischargeRate >= 0.0
    requires p.minSoc <= soc <= p.maxSoc
    ensures p.minSoc <= Dispatch(p, soc, deficit, dt).soc <= p.maxSoc
    ensures deficit > 0.0 ==> 0.0 <= Dispatch(p, soc, deficit, dt).power <= p.maxDischargeRate
    ensures deficit < 0.0 ==> 0.0 <= Dispatch(p, soc, deficit, dt).power <= p.maxChargeRate
    ensures deficit == 0.0 ==> Dispatch(p, soc, deficit, dt) == Step(0.0, soc)
  {
    var r := Dispatch(p, soc, deficit, dt);
    if deficit > 0.0 {
      assert r == DischargeStep(p, soc, deficit, dt);
      assert r.soc <= soc;
    } else if deficit < 0.0 {
      assert r == ChargeStep(p, soc, -deficit, dt);
      assert r.soc >= soc;
    }
  }

  /**
   * The sign convention of `net_power`: the battery power is added on both
   * branches, so an unclamped discharge balances the bus exactly, while an
   * unclamped charge doubles the reported surplus.
   */
  lemma NetPowerByBranch(p: BatteryParams, soc: real, generation: real, load: real, dt: real)
    requires WellFormed(p) && dt > 0.0
    ensures var s := Dispatch(p, soc, load - generation, dt);
      && (load - generation > 0.0 && s.power == load - generation ==> NetPower(generation, s.power, load) == 0.0)
      && (load - generation < 0.0 && s.power == generation - load ==>
            NetPower(generation, s.power, load) == 2.0 * (generation - load))
      && (load == generation ==> NetPower(generation, s.power, load) == 0.0)
  {
  }

  class DCMicrogrid {
    const voltageLevel: real
    const frequency: real
    const pvSystem: Option<PVParams>
    const windTurbine: Option<WindParams>
    const battery: BatteryStorage?
    const loads: seq<LoadParams>
    const protection: ProtectionConfig
    var currentVoltage: real
    var gridConnected: bool
    var metrics: Metrics

    /** No operation moves the bus voltage away from its nominal level. */
    ghost predicate Valid()
      reads this
    {
      && voltageLevel != 0.0
      && currentVoltage == voltageLevel
      && (battery != null ==> battery.Valid())
    }

    constructor (config: NetworkConfig)
      requires config.voltageLevel != 0.0
      requires config.bess.Some? ==> WellFormed(BatteryParamsOf(config.bess.value))
      ensures Valid()
      ensures voltageLevel == config.voltageLevel && frequency == config.frequency
      ensures pvSystem == (if config.photovoltaic.Some? then Some(PVParamsOf(config.photovoltaic.value)) else None)
      ensures windTurbine == (if config.windTurbine.Some? then Some(WindParamsOf(config.windTurbine.value)) else None)
      ensures config.bess.Some? <==> battery != null
      ensures battery != null ==> fresh(battery) && battery.Params() == BatteryParamsOf(config.bess.value)
      ensures |loads| == |config.loads|
      ensures forall i :: 0 <= i < |loads| ==> loads[i] == LoadParamsOf(config.loads[i])
      ensures protection == config.protection && !gridConnected && metrics == InitialMetrics
    {
      voltageLevel := config.voltageLevel;
      frequency := config.frequency;
      pvSystem := if config.photovoltaic.Some? then Some(PVParamsOf(config.photovoltaic.value)) else None;
      windTurbine := if config.windTurbine.Some? then Some(WindParamsOf(config.windTurbine.value)) else None;
      if config.bess.Some? {
        battery := new BatteryStorage(config.bess.value);
      } else {
        battery := null;
      }
      loads := seq(|config.loads|, i requires 0 <= i < |config.loads| => LoadParamsOf(config.loads[i]));
      protection := config.protection;
      currentVoltage := config.voltageLevel;
      gridConnected := false;
      metrics := InitialMetrics;
    }

    /**
     * One power-balance step over `dt` hours: generation from the enabled
     * sources, the total load, battery dispatch on the deficit, the net
     * power, and the energy metrics.
     */
    method CalculatePowerBalance(irradiance: real, temperature: real, windSpeed: real, dt: real)
      returns (r: PowerBalance)
      requires Valid() && dt > 0.0
      modifies this`metrics, battery
      ensures Valid()
      ensures r.pvPower == (if pvSystem.Some? then PVPower(pvSystem.value, irradiance, temperature) else 0.0)
      ensures r.windPower == (if windTurbine.Some? then WindPower(windTurbine.value, windSpeed) else 0.0)
      ensures r.totalGeneration == r.pvPower + r.windPower
      ensures r.totalLoad == TotalLoad(loads)
      ensures r.powerDeficit == r.totalLoad - r.totalGeneration
      ensures battery == null ==> r.batteryPower == 0.0 && r.batterySoc == 0.0
      ensures battery != null ==>
                && Step(r.batteryPower, r.batterySoc) == Dispatch(battery.Params(), old(battery.soc), r.powerDeficit, dt)
                && battery.soc == r.batterySoc
                && battery.cycleCount == old(battery.cycleCount) + (if r.powerDeficit > 0.0 then dt / 2.0 else 0.0)
      ensures r.netPower == NetPower(r.totalGeneration, r.batteryPower, r.totalLoad)
      ensures r.voltage == currentVoltage
      ensures metrics == Accumulate(old(metrics), r.totalGeneration, r.totalLoad, dt)
    {
      var pvPower := 0.0;
      if pvSystem.Some? {
        pvPower := PVPower(pvSystem.value, irradiance, temperature);
      }
      var windPower := 0.0;
      if windTurbine.Some? {
        windPower := WindPower(windTurbine.value, windSpeed);
      }
      var totalGeneration := pvPower + windPower;
      var totalLoad := TotalLoad(loads);
      var powerDeficit := totalLoad - totalGeneration;

      var batteryPower := 0.0;
      var batterySoc := 0.0;
      if battery != null {
        batteryPower, batterySoc := OperateBattery(battery, powerDeficit, dt);
      }

      var netPower := totalGeneration + batteryPower - totalLoad;
      metrics := Accumulate(metrics, totalGeneration, totalLoad, dt);
      r := PowerBalance(pvPower, windPower, totalGeneration, totalLoad, batteryPower, batterySoc,
                        netPower, currentVoltage, powerDeficit);
    }

    /**
     * Classify the bus against the protection thresholds: per-unit voltage
     * bands and a current derived from the net power.
     */
    function CheckSystemStability(pb: PowerBalance): (r: Stability)
      reads this
      requires Valid()
      ensures r.stable <==> !r.undervoltage && !r.overvoltage && !r.overcurrent
      ensures r.voltagePu == 1.0
      ensures r.undervoltage <==> 1.0 < protection.undervoltageThreshold
      ensures r.overvoltage <==> 1.0 > protection.overvoltageThreshold
      ensures r.totalCurrent >= 0.0 && r.totalCurrent * Abs(currentVoltage) == Abs(pb.netPower) * 1000.0
      ensures r.overcurrent <==> r.totalCurrent > RatedCurrent * protection.overcurrentThreshold
    {
      var voltagePu := currentVoltage / voltageLevel;
      UnitRatio(voltageLevel);
      var undervoltage := voltagePu < protection.undervoltageThreshold;
      var overvoltage := voltagePu > protection.overvoltageThreshold;
      var totalCurrent := Abs(pb.netPower * 1000.0 / currentVoltage);
      CurrentFromPower(pb.netPower * 1000.0, currentVoltage);
      var overcurrent := totalCurrent > RatedCurrent * protection.overcurrentThreshold;
      Stability(!(undervoltage || overvoltage || overcurrent), voltagePu, undervoltage, overvoltage,
                overcurrent, totalCurrent)
    }

    /** SAIFI, SAIDI and CAIDI over the recorded interruption events. */
    function CalculateReliabilityMetrics(): (r: Reliability)
      reads this
      ensures metrics.reliabilityEvents == [] ==> r == Reliability(0.0, 0.0, 0.0)
      ensures |loads| == 0 ==> r.saifi == 0.0 && r.saidi == 0.0
      ensures metrics.reliabilityEvents != [] && |loads| > 0 ==> r.saidi == r.saifi * r.caidi
      ensures metrics.reliabilityEvents != [] ==>
                r.caidi * (|metrics.reliabilityEvents| as real) == Sum(metrics.reliabilityEvents)
      ensures |loads| > 0 ==> r.saifi * (|loads| as real) == |metrics.reliabilityEvents| as real
    {
      var events := metrics.reliabilityEvents;
      if events == [] then Reliability(0.0, 0.0, 0.0)
      else
        var totalCustomers := |loads| as real;
        var totalInterruptions := |events| as real;
        var totalDuration := Sum(events);
        var saifi := if totalCustomers > 0.0 then totalInterruptions / totalCustomers else 0.0;
        var saidi := if totalCustomers > 0.0 then totalDuration / totalCustomers else 0.0;
        var caidi := if totalInterruptions > 0.0 then totalDuration / totalInterruptions else 0.0;
        IndexProduct(totalInterruptions, totalDuration, totalCustomers);
        Reliability(saifi, saidi, caidi)
    }

    method ResetMetrics()
      modifies this`metrics
      ensures metrics == InitialMetrics
    {
      metrics := InitialMetrics;
    }
  }

  /** The battery branch of a power-balance step. */
  method OperateBattery(battery: BatteryStorage, powerDeficit: real, dt: real)
    returns (batteryPower: real, batterySoc: real)
    requires battery.Valid() && dt > 0.0
    modifies battery
    ensures Step(batteryPower, batterySoc) == Dispatch(battery.Params(), old(battery.soc), powerDeficit, dt)
    ensures battery.soc == batterySoc
    ensures battery.cycleCount == old(battery.cycleCount) + (if powerDeficit > 0.0 then dt / 2.0 else 0.0)
  {
    if powerDeficit > 0.0 {
      batteryPower, batterySoc := battery.Discharge(powerDeficit, dt);
    } else if powerDeficit < 0.0 {
      batteryPower, batterySoc := battery.Charge(-powerDeficit, dt);
    } else {
      batteryPower, batterySoc := 0.0, battery.soc;
    }
  }

  lemma UnitRatio(v: real)
    requires v != 0.0
    ensures v / v == 1.0
  {
  }

  lemma CurrentFromPower(w: real, v: real)
    requires v != 0.0
    ensures Abs(w / v) * Abs(v) == Abs(w)
  {
    assert (w / v) * v == w;
  }

  /** SAIDI = SAIFI x CAIDI: the customer count cancels. */
  lemma IndexProduct(interruptions: real, duration: real, customers: real)
    requires interruptions > 0.0
    ensures customers > 0.0 ==> duration / customers == (interruptions / customers) * (duration / interruptions)
  {
  }
}
