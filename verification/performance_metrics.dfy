/**
 * The performance metrics of a simulation run: energy totals, the
 * zero-guarded efficiency and penetration ratios, the average SOC,
 * equivalent battery cycles and the capped THD estimate. The FFT of the
 * net power is an input.
 */
module PerformanceMetrics {
  import opened Wrappers
  import opened Numerics

  /** `sum(abs(diff(s)))`: the total movement of a series between consecutive samples. */
  function SumAbsDiff(s: seq<real>): (t: real)
    ensures t >= 0.0
  {
    if |s| < 2 then 0.0 else SumAbsDiff(s[..|s| - 1]) + Abs(s[|s| - 1] - s[|s| - 2])
  }

  /** Equivalent full cycles: half the total SOC movement, never negative. */
  function BatteryCycles(soc: seq<real>): (c: real)
    ensures c >= 0.0
    ensures c * 2.0 == SumAbsDiff(soc)
  {
    SumAbsDiff(soc) / 2.0
  }

  /** A constant SOC series has done no cycling. */
  lemma {:induction false} ConstantSocNoCycles(soc: seq<real>)
    requires forall i, j :: 0 <= i < j < |soc| ==> soc[i] == soc[j]
    ensures BatteryCycles(soc) == 0.0
  {
    ConstantNoMovement(soc);
  }

  lemma {:induction false} ConstantNoMovement(s: seq<real>)
    requires forall i, j :: 0 <= i < j < |s| ==> s[i] == s[j]
    ensures SumAbsDiff(s) == 0.0
  {
    if |s| >= 2 {
      ConstantNoMovement(s[..|s| - 1]);
    }
  }

  /** The series moved at least as far as its net change: cycles >= |last - first| / 2. */
  lemma {:induction false} CyclesCoverNetChange(soc: seq<real>)
    requires |soc| >= 1
    ensures BatteryCycles(soc) * 2.0 >= Abs(soc[|soc| - 1] - soc[0])
  {
    NetChangeBound(soc);
  }

  lemma {:induction false} NetChangeBound(s: seq<real>)
    requires |s| >= 1
    ensures SumAbsDiff(s) >= Abs(s[|s| - 1] - s[0])
  {
    if |s| >= 2 {
      NetChangeBound(s[..|s| - 1]);
    }
  }

  /** The harmonics the estimate uses: FFT bins 2 to 10, as far as the spectrum goes. */
  function Harmonics(magnitudes: seq<real>): seq<real>
  {
    if |magnitudes| <= 2 then [] else magnitudes[2..if |magnitudes| < 11 then |magnitudes| else 11]
  }

  /**
   * THD in percent: 0 for fewer than 10 samples or a zero fundamental
   * (bin 1), otherwise the harmonics' root-sum-square over the fundamental,
   * capped at 100. `magnitudes` are the FFT magnitudes of the samples and
   * `rootSumSquares` the square root of the harmonics' sum of squares.
   */
  function EstimateThd(magnitudes: seq<real>, rootSumSquares: real): (thd: real)
    requires forall i :: 0 <= i < |magnitudes| ==> magnitudes[i] >= 0.0
    requires rootSumSquares >= 0.0 && rootSumSquares * rootSumSquares == SumSquares(Harmonics(magnitudes))
    ensures |magnitudes| < 10 ==> thd == 0.0
    ensures |magnitudes| >= 10 && magnitudes[1] == 0.0 ==> thd == 0.0
    ensures 0.0 <= thd <= 100.0
    ensures |magnitudes| >= 10 && magnitudes[1] > 0.0 && thd < 100.0 ==>
              thd * magnitudes[1] == rootSumSquares * 100.0
    ensures |magnitudes| >= 10 && magnitudes[1] > 0.0 ==> (thd < 100.0 <==> rootSumSquares < magnitudes[1])
  {
    if |magnitudes| < 10 then 0.0
    else
      var fundamental := magnitudes[1];
      if fundamental == 0.0 then 0.0
      else
        var ratio := rootSumSquares / fundamental;
        assert ratio >= 0.0;
        var thd := ratio * 100.0;
        Min(thd, 100.0)
  }

  /** A spectrum with no harmonic content has no distortion. */
  lemma PureToneNoDistortion(magnitudes: seq<real>, rootSumSquares: real)
    requires forall i :: 0 <= i < |magnitudes| ==> magnitudes[i] >= 0.0
    requires rootSumSquares >= 0.0 && rootSumSquares * rootSumSquares == SumSquares(Harmonics(magnitudes))
    requires forall i :: 2 <= i < |magnitudes| ==> magnitudes[i] == 0.0
    ensures EstimateThd(magnitudes, rootSumSquares) == 0.0
  {
    ZeroSquares(Harmonics(magnitudes));
    SquareZero(rootSumSquares, rootSumSquares * rootSumSquares);
    if |magnitudes| >= 10 && magnitudes[1] != 0.0 {
      assert rootSumSquares / magnitudes[1] * 100.0 == 0.0;
    }
  }

  lemma SquareZero(x: real, square: real)
    requires x >= 0.0 && square == x * x
    ensures square == 0.0 ==> x == 0.0
  {
    if x > 0.0 {
      assert square / x == x;
    }
  }

  lemma {:induction false} ZeroSquares(s: seq<real>)
    requires forall i :: 0 <= i < |s| ==> s[i] == 0.0
    ensures SumSquares(s) == 0.0
  {
    if s != [] {
      ZeroSquares(s[..|s| - 1]);
    }
  }

  /** The series a simulation run records, sampled every output interval. */
  datatype SimulationResults = SimulationResults(
    pvPower: seq<real>, windPower: seq<real>, totalLoad: seq<real>, batterySoc: seq<real>)

  datatype Metrics = Metrics(
    totalGeneration: real, totalConsumption: real, avgBatterySoc: Option<real>,
    batteryCycles: real, systemEfficiency: real, renewablePenetration: real, thd: real)

  /**
   * Efficiency is consumption over generation and penetration generation
   * over consumption, each 0 when its denominator is not positive.
   */
  predicate RatiosOfEnergies(m: Metrics)
  {
    && (m.totalGeneration > 0.0 ==> m.systemEfficiency * m.totalGeneration == m.totalConsumption)
    && (m.totalGeneration <= 0.0 ==> m.systemEfficiency == 0.0)
    && (m.totalConsumption > 0.0 ==> m.renewablePenetration * m.totalConsumption == m.totalGeneration)
    && (m.totalConsumption <= 0.0 ==> m.renewablePenetration == 0.0)
  }

  /**
   * All metrics of a run. Energies are sums times the interval in hours;
   * efficiency is consumption over generation and penetration generation
   * over consumption, each 0 when its denominator is not positive; the
   * average SOC is absent for an empty series.
   */
  function CalculateAllMetrics(results: SimulationResults, outputInterval: real,
                               netPowerSpectrum: seq<real>, rootSumSquares: real): (m: Metrics)
    requires forall i :: 0 <= i < |netPowerSpectrum| ==> netPowerSpectrum[i] >= 0.0
    requires rootSumSquares >= 0.0 && rootSumSquares * rootSumSquares == SumSquares(Harmonics(netPowerSpectrum))
    ensures m.totalGeneration == IntervalEnergy(Sum(results.pvPower) + Sum(results.windPower), outputInterval)
    ensures m.totalConsumption == IntervalEnergy(Sum(results.totalLoad), outputInterval)
    ensures RatiosOfEnergies(m)
    ensures m.avgBatterySoc == AverageSoc(results.batterySoc)
    ensures m.batteryCycles * 2.0 == SumAbsDiff(results.batterySoc)
    ensures m.thd == EstimateThd(netPowerSpectrum, rootSumSquares) && 0.0 <= m.thd <= 100.0
  {
    var generation := IntervalEnergy(Sum(results.pvPower) + Sum(results.windPower), outputInterval);
    var consumption := IntervalEnergy(Sum(results.totalLoad), outputInterval);
    Assemble(generation, consumption, AverageSoc(results.batterySoc), BatteryCycles(results.batterySoc),
             EstimateThd(netPowerSpectrum, rootSumSquares))
  }

  /** The metrics record: the two ratios are taken between the two energies. */
  function Assemble(generation: real, consumption: real, avgSoc: Option<real>, cycles: real, thd: real): (m: Metrics)
    ensures m.totalGeneration == generation && m.totalConsumption == consumption
    ensures m.avgBatterySoc == avgSoc && m.batteryCycles == cycles && m.thd == thd
    ensures RatiosOfEnergies(m)
  {
    Metrics(generation, consumption, avgSoc, cycles,
            GuardedRatio(consumption, generation), GuardedRatio(generation, consumption), thd)
  }

  /** The mean SOC, absent for an empty series. */
  function AverageSoc(soc: seq<real>): (avg: Option<real>)
    ensures avg.None? <==> soc == []
    ensures avg.Some? ==> avg.value * (|soc| as real) == Sum(soc)
  {
    if soc == [] then None else Some(Mean(soc))
  }

  /** Energy in kWh of a summed power series sampled every `outputInterval` seconds. */
  function IntervalEnergy(total: real, outputInterval: real): (e: real)
    ensures e * 3600.0 == total * outputInterval
    ensures outputInterval == 3600.0 ==> e == total
    ensures total >= 0.0 && outputInterval >= 0.0 ==> e >= 0.0
  {
    var hours := outputInterval / 3600.0;
    if total >= 0.0 && hours >= 0.0 then MulNonNegative(total, hours); total * hours
    else total * hours
  }

  /**
   * When both totals are positive, efficiency and penetration are
   * reciprocals. This holds for every metrics record whose ratios are taken
   * between its energies, as CalculateAllMetrics ensures of its result.
   */
  lemma EfficiencyReciprocal(m: Metrics)
    requires RatiosOfEnergies(m) && m.totalGeneration > 0.0 && m.totalConsumption > 0.0
    ensures m.systemEfficiency * m.renewablePenetration == 1.0
  {
    RatioReciprocal(m.systemEfficiency, m.renewablePenetration, m.totalGeneration, m.totalConsumption);
  }

  lemma RatioReciprocal(a: real, b: real, g: real, l: real)
    requires g > 0.0 && l > 0.0 && a * g == l && b * l == g
    ensures a * b == 1.0
  {
    assert a == l / g;
    assert b == g / l;
  }
}
