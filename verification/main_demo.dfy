/**
 * The demo script: a 24-hour run at one-minute steps with its own PV panel,
 * the cubic-ramp wind curve, the battery loop with the demo's limits, and
 * the energy summary it reports.
 */
module MainDemo {
  import opened Numerics
  import opened Components
  import opened ScriptSimulation

  const PvEfficiency: real := 0.18
  const PanelArea: real := 600.0
  const TempCoefficient: real := -0.004
  const CutInSpeed: real := 3.0
  const RatedSpeed: real := 12.0
  const CutOutSpeed: real := 25.0
  const SocInit: real := 0.5
  const SocMin: real := 0.2
  const SocMax: real := 0.9
  const BattEfficiency: real := 0.95
  const MaxCharge: real := 50.0
  const MaxDischarge: real := 50.0
  /** One-minute steps, in hours. */
  const DtHours: real := 60.0 / 3600.0

  function DemoPanel(pvRated: real): PVParams
  {
    PVParams(pvRated, PvEfficiency, TempCoefficient, PanelArea)
  }

  function DemoBattery(capacity: real): BatteryParams
  {
    BatteryParams(capacity, MaxCharge, MaxDischarge, BattEfficiency, SocMin, SocMax)
  }

  /** The energy figures the demo prints. */
  datatype Summary = Summary(
    ePv: real, eWind: real, eGen: real, eLoad: real,
    eBattCharge: real, eBattDischarge: real,
    renewablePenetration: real, battEfficiencyActual: real)

  /**
   * Energies are power sums times the step; penetration is generation over
   * load and the battery's efficiency is discharged over charged, each in
   * percent and zero when its denominator is not positive.
   */
  function Summarize(pPv: seq<real>, pWind: seq<real>, pLoad: seq<real>, pBattery: seq<real>): (r: Summary)
    ensures r.eGen == r.ePv + r.eWind
    ensures r.eBattCharge >= 0.0 && r.eBattDischarge >= 0.0
    ensures r.eBattCharge - r.eBattDischarge == Energy(pBattery, DtHours)
    ensures r.eLoad > 0.0 ==> r.renewablePenetration * r.eLoad == r.eGen * 100.0
    ensures r.eLoad <= 0.0 ==> r.renewablePenetration == 0.0
    ensures r.eBattCharge > 0.0 ==> r.battEfficiencyActual * r.eBattCharge == r.eBattDischarge * 100.0
    ensures r.eBattCharge <= 0.0 ==> r.battEfficiencyActual == 0.0
  {
    var ePv := Energy(pPv, DtHours);
    var eWind := Energy(pWind, DtHours);
    var eGen := ePv + eWind;
    var eLoad := Energy(pLoad, DtHours);
    var eCharge := ChargedEnergy(pBattery, DtHours);
    var eDischarge := DischargedEnergy(pBattery, DtHours);
    SumSplitsBySign(pBattery);
    assert eCharge - eDischarge == (SumPositive(pBattery) - SumNegative(pBattery)) * DtHours;
    Summary(ePv, eWind, eGen, eLoad, eCharge, eDischarge,
            Percent(eGen, eLoad), Percent(eDischarge, eCharge))
  }

  /**
   * The demo from the input series on: PV, wind, the battery loop and the
   * summary. The SOC stays within [0.2, 0.9], the battery power within the
   * 50 kW limits, and the final SOC is the initial one plus the run's ledger.
   */
  method Run(irradiance: seq<real>, temperature: seq<real>, windSpeed: seq<real>, pLoad: seq<real>,
             pvRated: real, windRated: real, bessCapacity: real)
    returns (summary: Summary, soc: array<real>, pBattery: array<real>)
    requires |pLoad| >= 1 && |irradiance| == |pLoad| && |temperature| == |pLoad| && |windSpeed| == |pLoad|
    requires bessCapacity > 0.0
    ensures soc.Length == |pLoad| && pBattery.Length == |pLoad|
    ensures forall i :: 0 <= i < |pLoad| ==> SocMin <= soc[i] <= SocMax
    ensures forall i :: 0 <= i < |pLoad| ==> -MaxDischarge <= pBattery[i] <= MaxCharge
    ensures soc[0] == SocInit && pBattery[0] == 0.0
    // every later step follows the clamp rule from the previous SOC and the deficit
    ensures forall i :: 1 <= i < |pLoad| ==>
              Recorded(DemoBattery(bessCapacity), soc[i - 1],
                       pLoad[i] - (PvSeries(DemoPanel(pvRated), irradiance, temperature)[i]
                                   + WindSeries(windSpeed, CutInSpeed, RatedSpeed, CutOutSpeed, windRated)[i]),
                       DtHours, pBattery[i], soc[i])
    ensures soc[|pLoad| - 1] == SocInit + Ledger(DemoBattery(bessCapacity), pBattery[..], DtHours)
    ensures summary == Summarize(PvSeries(DemoPanel(pvRated), irradiance, temperature),
                                 WindSeries(windSpeed, CutInSpeed, RatedSpeed, CutOutSpeed, windRated), pLoad, pBattery[..])
  {
    var p := DemoBattery(bessCapacity);
    var pPv := PvSeries(DemoPanel(pvRated), irradiance, temperature);
    var pWind := FillWindPower(windSpeed, CutInSpeed, RatedSpeed, CutOutSpeed, windRated);
    soc, pBattery := SimulateBattery(p, pPv, pWind[..], pLoad, SocInit, DtHours);
    SocLedger(p, soc[..], pBattery[..], DtHours);
    assert pWind[..] == WindSeries(windSpeed, CutInSpeed, RatedSpeed, CutOutSpeed, windRated);
    summary := Summarize(pPv, pWind[..], pLoad, pBattery[..]);
  }

  /**
   * A demo run that returns the battery to its starting SOC reports a
   * battery efficiency of 0.95^2 = 90.25 %.
   */
  lemma BalancedRunReports(bessCapacity: real, pPv: seq<real>, pWind: seq<real>, pLoad: seq<real>,
                           pBattery: seq<real>)
    requires bessCapacity > 0.0
    requires Ledger(DemoBattery(bessCapacity), pBattery, DtHours) == 0.0
    requires Summarize(pPv, pWind, pLoad, pBattery).eBattCharge > 0.0
    ensures Summarize(pPv, pWind, pLoad, pBattery).battEfficiencyActual == 90.25
  {
    SumPositiveNonNegative(pBattery);
    BalancedRunEfficiency(DemoBattery(bessCapacity), pBattery, DtHours);
  }
}
