/**
 * The decision rule of the fault detector: enough rows, then the most
 * probable fault class, reported as a fault only when it is not `no_fault`
 * and its probability reaches the confidence threshold. The classifier's
 * probability vector is an input.
 */
module FaultDetection {
  import opened Wrappers
  import opened Numerics

  datatype FaultType =
    | NoFault | ShortCircuit | OpenCircuit | GroundFault | Overcurrent | Undervoltage | Overvoltage

  /** The class labels, in the classifier's class order: `no_fault` first. */
  const FaultTypes: seq<FaultType> :=
    [NoFault, ShortCircuit, OpenCircuit, GroundFault, Overcurrent, Undervoltage, Overvoltage]

  /** Every fault type has exactly one class index. */
  lemma FaultTypesDistinct()
    ensures |FaultTypes| == 7
    ensures forall i, j :: 0 <= i < j < |FaultTypes| ==> FaultTypes[i] != FaultTypes[j]
    ensures forall t: FaultType :: t in FaultTypes
  {
    forall t: FaultType
      ensures t in FaultTypes
    {
      match t
      case NoFault => assert FaultTypes[0] == t;
      case ShortCircuit => assert FaultTypes[1] == t;
      case OpenCircuit => assert FaultTypes[2] == t;
      case GroundFault => assert FaultTypes[3] == t;
      case Overcurrent => assert FaultTypes[4] == t;
      case Undervoltage => assert FaultTypes[5] == t;
      case Overvoltage => assert FaultTypes[6] == t;
    }
  }

  /** The detector's settings: rows needed per decision and the confidence threshold. */
  datatype DetectorConfig = DetectorConfig(sequenceLength: real, confidenceThreshold: real)

  function DetectorConfigOf(config: map<string, real>): (c: DetectorConfig)
    ensures "sequence_length" !in config ==> c.sequenceLength == 100.0
    ensures "confidence_threshold" !in config ==> c.confidenceThreshold == 0.85
  {
    DetectorConfig(Lookup(config, "sequence_length", 100.0), Lookup(config, "confidence_threshold", 0.85))
  }

  datatype FaultResult = FaultResult(
    faultDetected: bool, faultType: FaultType, confidence: real,
    allProbabilities: Option<seq<(FaultType, real)>>, message: Option<string>)

  const InsufficientData: string := "Insufficient data for detection"

  /**
   * Decide on a window of `rows` samples given the classifier's class
   * probabilities. Too few rows gives no fault with confidence 0. Otherwise
   * the first most probable class is reported with its probability, and a
   * fault is detected exactly when that class is not `no_fault` and its
   * probability reaches the threshold.
   */
  function DetectFault(c: DetectorConfig, rows: nat, probabilities: seq<real>): (r: FaultResult)
    requires |probabilities| == |FaultTypes|
    ensures (rows as real) < c.sequenceLength ==>
              r == FaultResult(false, NoFault, 0.0, None, Some(InsufficientData))
    ensures (rows as real) >= c.sequenceLength ==>
              && (forall j :: 0 <= j < |probabilities| ==> probabilities[j] <= r.confidence)
              && (exists i :: 0 <= i < |probabilities| && r.faultType == FaultTypes[i]
                                                       && r.confidence == probabilities[i]
                                                       && (forall j :: 0 <= j < i ==> probabilities[j] < probabilities[i]))
              && (r.faultDetected <==> r.faultType != NoFault && r.confidence >= c.confidenceThreshold)
              && r.allProbabilities.Some?
              && |r.allProbabilities.value| == |FaultTypes|
              && (forall i :: 0 <= i < |FaultTypes| ==>
                    r.allProbabilities.value[i] == (FaultTypes[i], probabilities[i]))
              && r.message.None?
  {
    if (rows as real) < c.sequenceLength then
      FaultResult(false, NoFault, 0.0, None, Some(InsufficientData))
    else
      var faultIdx := ArgMax(probabilities);
      var confidence := probabilities[faultIdx];
      var detected := faultIdx != 0 && confidence >= c.confidenceThreshold;
      var pairs := seq(|FaultTypes|, i requires 0 <= i < |FaultTypes| => (FaultTypes[i], probabilities[i]));
      FaultResult(detected, FaultTypes[faultIdx], confidence, Some(pairs), None)
  }

  /** A detected fault always reached the threshold and is never `no_fault`. */
  lemma DetectedMeansConfident(c: DetectorConfig, rows: nat, probabilities: seq<real>)
    requires |probabilities| == |FaultTypes|
    ensures var r := DetectFault(c, rows, probabilities);
      r.faultDetected ==>
        r.faultType != NoFault && r.confidence >= c.confidenceThreshold && (rows as real) >= c.sequenceLength
  {
  }

  /** A tie with `no_fault` at the top goes to `no_fault`, so no fault is reported. */
  lemma TieGoesToNoFault(c: DetectorConfig, rows: nat, probabilities: seq<real>)
    requires |probabilities| == |FaultTypes|
    requires forall j :: 0 <= j < |probabilities| ==> probabilities[j] <= probabilities[0]
    ensures DetectFault(c, rows, probabilities).faultType == NoFault
    ensures !DetectFault(c, rows, probabilities).faultDetected
  {
  }
}
