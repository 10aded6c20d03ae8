/**
 * The rule-based parts of the anomaly detector: post-processing of the
 * isolation forest's predictions, severity banding of its scores,
 * extraction of the cyber-attack features, rule-based attack
 * classification, and the sliding-window enumeration of continuous
 * monitoring. The forest itself and the scaler are inputs.
 */
module AnomalyDetection {
  import opened Wrappers
  import opened Numerics

  datatype Severity = Low | Medium | High | Critical

  /** Severity order: low < medium < high < critical. */
  function Rank(s: Severity): nat
  {
    match s
    case Low => 0
    case Medium => 1
    case High => 2
    case Critical => 3
  }

  /** The band the minimum score falls in. */
  function SeverityOf(minScore: real): (s: Severity)
    ensures s == Critical <==> minScore < -0.5
    ensures s == High <==> -0.5 <= minScore < -0.3
    ensures s == Medium <==> -0.3 <= minScore < -0.1
    ensures s == Low <==> -0.1 <= minScore
  {
    if minScore < -0.5 then Critical
    else if minScore < -0.3 then High
    else if minScore < -0.1 then Medium
    else Low
  }

  /** Severity of a batch of scores: the band of its minimum. */
  function CalculateSeverity(scores: seq<real>): (s: Severity)
    requires |scores| > 0
    ensures exists i :: 0 <= i < |scores| && s == SeverityOf(scores[i])
    ensures forall i :: 0 <= i < |scores| ==> Rank(SeverityOf(scores[i])) <= Rank(s)
  {
    var m := MinOf(scores);
    forall i | 0 <= i < |scores|
      ensures Rank(SeverityOf(scores[i])) <= Rank(SeverityOf(m))
    {
      SeverityMonotone(m, scores[i]);
    }
    SeverityOf(m)
  }

  /** A lower minimum score never yields a less severe level. */
  lemma SeverityMonotone(lower: real, higher: real)
    requires lower <= higher
    ensures Rank(SeverityOf(higher)) <= Rank(SeverityOf(lower))
  {
  }

  /** The positions of a prediction vector marked -1 (anomalous), in order. */
  function AnomalyIndices(predictions: seq<int>): (idx: seq<nat>)
    ensures forall k :: 0 <= k < |idx| ==> idx[k] < |predictions| && predictions[idx[k]] == -1
    ensures forall i :: 0 <= i < |predictions| && predictions[i] == -1 ==> i in idx
    ensures forall k, l :: 0 <= k < l < |idx| ==> idx[k] < idx[l]
  {
    if predictions == [] then []
    else
      var init := predictions[..|predictions| - 1];
      var rest := AnomalyIndices(init);
      assert forall k :: 0 <= k < |rest| ==> predictions[rest[k]] == init[rest[k]];
      rest + (if predictions[|predictions| - 1] == -1 then [|predictions| - 1] else [])
  }

  /** `np.sum(predictions == -1)`: how many predictions are -1. */
  function CountAnomalies(predictions: seq<int>): nat
  {
    if predictions == [] then 0
    else CountAnomalies(predictions[..|predictions| - 1]) + (if predictions[|predictions| - 1] == -1 then 1 else 0)
  }

  /** The count and the index list agree. */
  lemma {:induction false} CountMatchesIndices(predictions: seq<int>)
    ensures CountAnomalies(predictions) == |AnomalyIndices(predictions)|
  {
    if predictions != [] {
      CountMatchesIndices(predictions[..|predictions| - 1]);
    }
  }

  /** The result of one prediction. */
  datatype Detection = Detection(
    anomaliesDetected: bool, nAnomalies: nat, anomalyIndices: seq<nat>,
    anomalyScores: seq<real>, severity: Severity)

  /**
   * Post-processing of the forest's output: the anomalous positions, their
   * number, whether there are any, and the severity of the scores.
   */
  function Predict(predictions: seq<int>, scores: seq<real>): (r: Detection)
    requires |scores| > 0
    ensures r.anomaliesDetected <==> r.nAnomalies > 0
    ensures r.nAnomalies == |r.anomalyIndices| == CountAnomalies(predictions)
    ensures forall i :: 0 <= i < |predictions| ==> (i in r.anomalyIndices <==> predictions[i] == -1)
    ensures forall k :: 0 <= k < |r.anomalyIndices| ==> r.anomalyIndices[k] < |predictions|
    ensures forall k, l :: 0 <= k < l < |r.anomalyIndices| ==> r.anomalyIndices[k] < r.anomalyIndices[l]
    ensures r.anomalyScores == scores
    ensures r.severity == SeverityOf(MinOf(scores))
  {
    var n := CountAnomalies(predictions);
    CountMatchesIndices(predictions);
    Detection(n > 0, n, AnomalyIndices(predictions), scores, CalculateSeverity(scores))
  }

  /** The cyber features, in the order the detector reads them. */
  const CyberFeatureKeys: seq<string> :=
    ["packet_rate", "connection_count", "failed_login_attempts", "cpu_usage", "memory_usage", "command_frequency"]

  /** The six cyber features of a network-data map, appended one at a time, each 0 when absent. */
  method ExtractCyberFeatures(data: map<string, real>) returns (features: seq<real>)
    ensures |features| == |CyberFeatureKeys|
    ensures forall i :: 0 <= i < |features| ==>
              (CyberFeatureKeys[i] in data ==> features[i] == data[CyberFeatureKeys[i]])
              && (CyberFeatureKeys[i] !in data ==> features[i] == 0.0)
  {
    features := [];
    features := features + [Lookup(data, "packet_rate", 0.0)];
    features := features + [Lookup(data, "connection_count", 0.0)];
    features := features + [Lookup(data, "failed_login_attempts", 0.0)];
    features := features + [Lookup(data, "cpu_usage", 0.0)];
    features := features + [Lookup(data, "memory_usage", 0.0)];
    features := features + [Lookup(data, "command_frequency", 0.0)];
  }

  datatype Attack = DDoS | BruteForce | CommandInjection | Unknown

  /** The order in which the rules are tried. */
  function RuleOrder(a: Attack): nat
  {
    match a
    case DDoS => 0
    case BruteForce => 1
    case CommandInjection => 2
    case Unknown => 3
  }

  /**
   * The classification rules: a packet rate over 1000 suggests DDoS, more
   * than 5 failed logins brute force, a command frequency over 100 command
   * injection, and Unknown stands alone when no rule fires. The attacks are
   * listed in rule order.
   */
  predicate FollowsRules(attacks: seq<Attack>, packetRate: real, failedLogins: real, commandFrequency: real)
  {
    && (DDoS in attacks <==> packetRate > 1000.0)
    && (BruteForce in attacks <==> failedLogins > 5.0)
    && (CommandInjection in attacks <==> commandFrequency > 100.0)
    && (Unknown in attacks <==> !(packetRate > 1000.0 || failedLogins > 5.0 || commandFrequency > 100.0))
    && |attacks| > 0
    && (Unknown in attacks ==> attacks == [Unknown])
    && (forall i, j :: 0 <= i < j < |attacks| ==> RuleOrder(attacks[i]) < RuleOrder(attacks[j]))
  }

  /** The rules applied to the packet rate, failed logins and command frequency features. */
  method ClassifyAttackTypes(features: seq<real>) returns (attacks: seq<Attack>)
    requires |features| >= 6
    ensures FollowsRules(attacks, features[0], features[2], features[5])
  {
    attacks := [];
    if features[0] > 1000.0 {
      attacks := attacks + [DDoS];
    }
    if features[2] > 5.0 {
      attacks := attacks + [BruteForce];
    }
    if features[5] > 100.0 {
      attacks := attacks + [CommandInjection];
    }
    if attacks == [] {
      attacks := attacks + [Unknown];
    }
  }

  /** A cyber-attack check: the detection, with the suspected attacks when anything was detected. */
  datatype CyberResult = CyberResult(detection: Detection, potentialAttacks: Option<seq<Attack>>)

  /**
   * Extract the features, post-process the forest's verdict on them and,
   * only when an anomaly was found, classify the attack.
   */
  method DetectCyberAttacks(data: map<string, real>, predictions: seq<int>, scores: seq<real>)
    returns (r: CyberResult)
    requires |scores| > 0
    ensures r.detection == Predict(predictions, scores)
    ensures r.potentialAttacks.Some? <==> r.detection.anomaliesDetected
    ensures r.potentialAttacks.Some? ==>
              FollowsRules(r.potentialAttacks.value, Lookup(data, "packet_rate", 0.0),
                           Lookup(data, "failed_login_attempts", 0.0), Lookup(data, "command_frequency", 0.0))
  {
    var features := ExtractCyberFeatures(data);
    var detection := Predict(predictions, scores);
    if detection.anomaliesDetected {
      var attacks := ClassifyAttackTypes(features);
      r := CyberResult(detection, Some(attacks));
    } else {
      r := CyberResult(detection, None);
    }
  }

  /** One monitoring window: its start and the verdict on it. */
  datatype WindowResult<D> = WindowResult(windowIndex: nat, result: D)

  datatype MonitoringError = ZeroStep

  /**
   * Slide a window of `windowSize` samples over the stream in steps of
   * `windowSize // 2`. A step of zero (window size 0 or 1) is an error, as
   * `range` refuses it; a negative step yields no windows.
   */
  method ContinuousMonitoring<T, D>(stream: seq<T>, windowSize: int, detect: seq<T> -> D)
    returns (r: Result<seq<WindowResult<D>>, MonitoringError>)
    ensures r.Err? <==> windowSize / 2 == 0
    ensures r.Ok? && windowSize < 0 ==> r.value == []
    ensures r.Ok? && windowSize > 0 ==>
              var step := windowSize / 2;
              && |r.value| == (if |stream| >= windowSize then (|stream| - windowSize) / step + 1 else 0)
              && forall k :: 0 <= k < |r.value| ==>
                   && r.value[k].windowIndex == k * step
                   && r.value[k].windowIndex + windowSize <= |stream|
                   && r.value[k].result == detect(stream[k * step..k * step + windowSize])
  {
    var step := windowSize / 2;
    if step == 0 {
      return Err(ZeroStep);
    }
    if step < 0 {
      return Ok([]);
    }
    var results := SlideWindows(stream, windowSize, step, detect);
    return Ok(results);
  }

  /** The sliding loop itself, for a positive step no longer than the window. */
  method SlideWindows<T, D>(stream: seq<T>, windowSize: int, step: int, detect: seq<T> -> D)
    returns (results: seq<WindowResult<D>>)
    requires 0 < step <= windowSize
    ensures |results| == (if |stream| >= windowSize then (|stream| - windowSize) / step + 1 else 0)
    ensures forall k :: 0 <= k < |results| ==>
              && results[k].windowIndex == k * step
              && results[k].windowIndex + windowSize <= |stream|
              && results[k].result == detect(stream[k * step..k * step + windowSize])
  {
    results := [];
    var n := |stream|;
    var i := 0;
    while i < n - windowSize + 1
      invariant i == |results| * step
      invariant forall k :: 0 <= k < |results| ==>
                  && results[k].windowIndex == k * step
                  && results[k].windowIndex + windowSize <= n
                  && results[k].result == detect(stream[k * step..k * step + windowSize])
      invariant |results| > 0 ==> (|results| - 1) * step + windowSize <= n
      invariant |results| == 0 || n >= windowSize
      decreases n - windowSize + 1 - i
    {
      var window := stream[i..i + windowSize];
      results := results + [WindowResult(i, detect(window))];
      i := i + step;
    }
    WindowCount(n, windowSize, step, |results|);
  }

  /**
   * The sliding loop ran once per start `k * step` that fits: exactly
   * `(n - w) / step + 1` times when the stream holds a window, else never.
   */
  lemma WindowCount(n: int, w: int, step: int, count: nat)
    requires w > 0 && step > 0 && step <= w
    requires count * step >= n - w + 1
    requires count > 0 ==> (count - 1) * step + w <= n
    requires count == 0 || n >= w
    ensures count == (if n >= w then (n - w) / step + 1 else 0)
  {
    if n >= w {
      var q := (n - w) / step;
      var m := (n - w) % step;
      assert n - w == q * step + m && 0 <= m < step;
      assert count > 0;
      CancelStep(q, count, step);
      CancelStep(count - 1, q + 1, step);
    }
  }

  /** Multiplying by a positive step preserves strict order both ways. */
  lemma CancelStep(a: int, b: int, step: int)
    requires step > 0 && a * step < b * step
    ensures a < b
  {
    var d := b - a;
    assert d * step == b * step - a * step;
    PositiveFactor(d, step);
  }

  lemma PositiveFactor(d: int, step: int)
    requires step > 0 && d * step > 0
    ensures d > 0
  {
  }
}
