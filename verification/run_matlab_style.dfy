/**
 * The MATLAB-style script: the same loops as the demo with the documented
 * 278 m^2 panel, an SOC band of [0.2, 0.95], a 0.90 battery efficiency,
 * and a summary that adds system efficiency and the average SOC.
 */
module MatlabStyle {
  import opened Numerics
  import opened Components
  import opened ScriptSimulation

  const PvEfficiency: real := 0.18
  const PanelArea: real := 278.0
  const TempCoefficient: real := -0.004
  const CutInSpeed: real := 3.0
  const RatedSpeed: real := 12.0
  const CutOutSpeed: real := 25.0
  const ChargeMax: real := 50.0
  const DischargeMax: real := 50.0
  const SocInit: real := 0.5
  const SocMin: real := 0.2
  const SocMax: real := 0.95
  const BattEfficiency: real := 0.90
  /** One-minute steps, in hours. */
  const DtHours: real := 60.0 / 3600.0

  function Panel(pvRated: real): PVParams
  {
    PVParams(pvRated, PvEfficiency, TempCoefficient, PanelArea)
  }

  function Battery(capacity: real): BatteryParams
  {
    BatteryParams(capacity, ChargeMax, DischargeMax, BattEfficiency, SocMin, SocMax)
  }

  /** The performance figures the script reports. */
  datatype Summary = Summary(
    ePv: real, eWind: real, eGen: real, eLoad: real,
    systemEfficiency: real, renewablePenetration: real, avgSoc: real,
    eBattCharge: real, eBattDischarge: real)

  /**
   * System efficiency is load over generation and penetration generation
   * over load, each in percent and zero when its denominator is not
   * positive; the average SOC is the mean of the SOC series.
   */
  function Summarize(pPv: seq<real>, pWind: seq<real>, pLoad: seq<real>, soc: seq<real>, pBattery: seq<real>)
    : (r: Summary)
    requires |soc| > 0
    ensures r.eGen == r.ePv + r.eWind
    ensures r.eGen > 0.0 ==> r.systemEfficiency * r.eGen == r.eLoad * 100.0
    ensures r.eGen <= 0.0 ==> r.systemEfficiency == 0.0
    ensures r.eLoad > 0.0 ==> r.renewablePenetration * r.eLoad == r.eGen * 100.0
    ensures r.eLoad <= 0.0 ==> r.renewablePenetration == 0.0
    ensures r.avgSoc * (|soc| as real) == Sum(soc)
    ensures r.eBattCharge >= 0.0 && r.eBattDischarge >= 0.0
  {
    var ePv := Energy(pPv, DtHours);
    var eWind := Energy(pWind, DtHours);
    var eGen := ePv + eWind;
    var eLoad := Energy(pLoad, DtHours);
    Summary(ePv, eWind, eGen, eLoad, Percent(eLoad, eGen), Percent(eGen, eLoad), Mean(soc),
            ChargedEnergy(pBattery, DtHours), DischargedEnergy(pBattery, DtHours))
  }

  /**
   * With both generation and load positive, system efficiency and
   * renewable penetration are reciprocal percentages.
   */
  lemma EfficiencyTimesPenetration(pPv: seq<real>, pWind: seq<real>, pLoad: seq<real>, soc: seq<real>,
                                   pBattery: seq<real>)
    requires |soc| > 0
    requires Summarize(pPv, pWind, pLoad, soc, pBattery).eGen > 0.0
    requires Summarize(pPv, pWind, pLoad, soc, pBattery).eLoad > 0.0
    ensures var r := Summarize(pPv, pWind, pLoad, soc, pBattery);
      r.systemEfficiency * r.renewablePenetration == 10000.0
  {
    var r := Summarize(pPv, pWind, pLoad, soc, pBattery);
    ReciprocalPercents(r.systemEfficiency, r.renewablePenetration, r.eGen, r.eLoad);
  }

  lemma ReciprocalPercents(a: real, b: real, g: real, l: real)
    requires g > 0.0 && l > 0.0
    requires a * g == l * 100.0 && b * l == g * 100.0
    ensures a * b == 10000.0
  {
    var gl := g * l;
    assert gl > 0.0;
    assert (a * b) * gl == (a * g) * (b * l);
    assert (l * 100.0) * (g * 100.0) == 10000.0 * gl;
    CancelEqual(a * b, 10000.0, gl);
  }

  /**
   * The script from the input series on. The load series is an input: the
   * script's own load expression names variables it never defines. The SOC
   * stays within [0.2, 0.95], so does its average, and the final SOC is the
   * initial one plus the run's ledger.
   */
  method Run(irradiance: seq<real>, temperature: seq<real>, windSpeed: seq<real>, pLoad: seq<real>,
             pvRated: real, windRated: real, battCapacity: real)
    returns (summary: Summary, soc: array<real>, pBattery: array<real>)
    requires |pLoad| >= 1 && |irradiance| == |pLoad| && |temperature| == |pLoad| && |windSpeed| == |pLoad|
    requires battCapacity > 0.0
    ensures soc.Length == |pLoad| && pBattery.Length == |pLoad|
    ensures forall i :: 0 <= i < |pLoad| ==> SocMin <= soc[i] <= SocMax
    ensures forall i :: 0 <= i < |pLoad| ==> -DischargeMax <= pBattery[i] <= ChargeMax
    ensures soc[0] == SocInit && pBattery[0] == 0.0
    // every later step follows the clamp rule from the previous SOC and the deficit
    ensures forall i :: 1 <= i < |pLoad| ==>
              Recorded(Battery(battCapacity), soc[i - 1],
                       pLoad[i] - (PvSeries(Panel(pvRated), irradiance, temperature)[i]
                                   + WindSeries(windSpeed, CutInSpeed, RatedSpeed, CutOutSpeed, windRated)[i]),
                       DtHours, pBattery[i], soc[i])
    ensures soc[|pLoad| - 1] == SocInit + Ledger(Battery(battCapacity), pBattery[..], DtHours)
    ensures SocMin <= summary.avgSoc <= SocMax
    ensures summary == Summarize(PvSeries(Panel(pvRated), irradiance, temperature),
                                 WindSeries(windSpeed, CutInSpeed, RatedSpeed, CutOutSpeed, windRated),
                                 pLoad, soc[..], pBattery[..])
  {
    var p := Battery(battCapacity);
    var pPv := PvSeries(Panel(pvRated), irradiance, temperature);
    var pWind := FillWindPower(windSpeed, CutInSpeed, RatedSpeed, CutOutSpeed, windRated);
    soc, pBattery := SimulateBattery(p, pPv, pWind[..], pLoad, SocInit, DtHours);
    SocLedger(p, soc[..], pBattery[..], DtHours);
    MeanWithin(soc[..], SocMin, SocMax);
    assert pWind[..] == WindSeries(windSpeed, CutInSpeed, RatedSpeed, CutOutSpeed, windRated);
    summary := Summarize(pPv, pWind[..], pLoad, soc[..], pBattery[..]);
  }

  /**
   * A run that returns the battery to its starting SOC discharged exactly
   * 0.90^2 = 81 % of what it charged.
   */
  lemma BalancedRunDischarge(battCapacity: real, pBattery: seq<real>)
    requires battCapacity > 0.0
    requires Ledger(Battery(battCapacity), pBattery, DtHours) == 0.0
    requires ChargedEnergy(pBattery, DtHours) > 0.0
    ensures DischargedEnergy(pBattery, DtHours) == 0.81 * ChargedEnergy(pBattery, DtHours)
  {
    BalancedRunEfficiency(Battery(battCapacity), pBattery, DtHours);
  }
}
