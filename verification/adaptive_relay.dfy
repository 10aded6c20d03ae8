/**
 * Adaptive relay coordination by tabular Q-learning: the state is
 * discretised into bucket indices, the greedy policy picks the best action
 * of the state's Q row, the Q-learning rule updates one cell and decays the
 * exploration rate, and each action maps to a fixed relay command.
 */
module AdaptiveRelay {
  import opened Wrappers
  import opened Numerics

  /** trip relay 1, trip relay 2, adjust settings, no action */
  const ActionSize: nat := 4
  const EpsilonDecay: real := 0.995
  const EpsilonMin: real := 0.01

  /** A Q-table key: the bucket index of each state feature, in feature order. */
  type StateKey = seq<nat>
  type QTable = map<StateKey, seq<real>>

  /** `np.linspace(lo, hi, count)`: `count` evenly spaced edges from lo to hi. */
  datatype Bucket = Bucket(lo: real, hi: real, count: nat)

  /**
   * The buckets of voltage, current, power, battery SOC, fault severity,
   * fault location, time of day and load priority, in that order.
   */
  const Buckets: seq<Bucket> := [
    Bucket(0.0, 1.5, 10), Bucket(0.0, 2.0, 10), Bucket(0.0, 2.0, 10), Bucket(0.0, 1.0, 5),
    Bucket(0.0, 1.0, 3), Bucket(0.0, 1.0, 3), Bucket(0.0, 1.0, 6), Bucket(0.0, 1.0, 3)]

  /** The k-th edge of a bucket: lo plus k steps of (hi - lo) / (count - 1). */
  function EdgeAt(b: Bucket, k: int): real
    requires b.count >= 2
  {
    b.lo + (k as real) * ((b.hi - b.lo) / ((b.count - 1) as real))
  }

  /** The edges of a bucket: the first is lo and the last hi. */
  function Edges(b: Bucket): (edges: seq<real>)
    requires b.count >= 2
    ensures |edges| == b.count
    ensures edges[0] == b.lo && edges[b.count - 1] == b.hi
  {
    var edges := seq(b.count, k => EdgeAt(b, k));
    LastEdge(b);
    edges
  }

  lemma LastEdge(b: Bucket)
    requires b.count >= 2
    ensures EdgeAt(b, b.count - 1) == b.hi
  {
    var d := (b.count - 1) as real;
    assert d * ((b.hi - b.lo) / d) == b.hi - b.lo;
  }

  /** Edges of a bucket with lo < hi strictly increase. */
  lemma EdgesIncrease(b: Bucket)
    requires b.count >= 2 && b.lo < b.hi
    ensures var edges := Edges(b);
      forall i, j :: 0 <= i < j < |edges| ==> edges[i] < edges[j]
  {
    var step := (b.hi - b.lo) / ((b.count - 1) as real);
    var edges := Edges(b);
    forall i, j | 0 <= i < j < |edges|
      ensures edges[i] < edges[j]
    {
      assert edges[i] == EdgeAt(b, i) && edges[j] == EdgeAt(b, j);
      assert EdgeAt(b, j) - EdgeAt(b, i) == ((j - i) as real) * step;
    }
  }

  /** `np.digitize(x, edges)`: how many edges lie at or below x. */
  function Digitize(x: real, edges: seq<real>): (idx: nat)
    ensures idx <= |edges|
  {
    if edges == [] then 0
    else Digitize(x, edges[..|edges| - 1]) + (if edges[|edges| - 1] <= x then 1 else 0)
  }

  /**
   * For increasing edges the index brackets x: `edges[idx-1] <= x < edges[idx]`,
   * with 0 below the first edge and `|edges|` from the last edge on.
   */
  lemma {:induction false} DigitizeBrackets(x: real, edges: seq<real>)
    requires forall i, j :: 0 <= i < j < |edges| ==> edges[i] < edges[j]
    ensures var idx := Digitize(x, edges);
      && (idx > 0 ==> edges[idx - 1] <= x)
      && (idx < |edges| ==> x < edges[idx])
  {
    if edges != [] {
      var init := edges[..|edges| - 1];
      DigitizeBrackets(x, init);
    }
  }

  /** The Q-table key of a state: one bucket index per feature, up to eight features. */
  function KeyOf(state: seq<real>): (key: StateKey)
    ensures |key| == if |state| < |Buckets| then |state| else |Buckets|
    ensures forall i :: 0 <= i < |key| ==> key[i] <= Buckets[i].count
  {
    var n := if |state| < |Buckets| then |state| else |Buckets|;
    seq(n, i requires 0 <= i < n => Digitize(state[i], Edges(Buckets[i])))
  }

  /** A fresh Q row: `np.zeros(action_size)`. */
  const ZeroRow: seq<real> := [0.0, 0.0, 0.0, 0.0]

  /** Reading a row of the defaultdict: a missing key reads as zeros. */
  function RowOf(t: QTable, key: StateKey): seq<real>
  {
    if key in t then t[key] else ZeroRow
  }

  /** A defaultdict read inserts the zero row for a missing key. */
  function Touched(t: QTable, key: StateKey): (t': QTable)
    ensures key in t'
    ensures forall k :: k in t' <==> k in t || k == key
    ensures forall k :: RowOf(t', k) == RowOf(t, k)
  {
    if key in t then t else t[key := ZeroRow]
  }

  /** Every row has one entry per action. */
  ghost predicate WellShaped(t: QTable)
  {
    forall k :: k in t ==> |t[k]| == ActionSize
  }

  /** The Q-learning rule for one cell. */
  function QUpdate(q: real, learningRate: real, reward: real, discountFactor: real, nextMax: real): real
  {
    q + learningRate * (reward + discountFactor * nextMax - q)
  }

  /** With a learning rate in [0, 1] the new value lies between the old value and the target. */
  lemma QUpdateBetween(q: real, learningRate: real, reward: real, discountFactor: real, nextMax: real)
    requires 0.0 <= learningRate <= 1.0
    ensures var target := reward + discountFactor * nextMax;
      var q' := QUpdate(q, learningRate, reward, discountFactor, nextMax);
      Min(q, target) <= q' <= Max(q, target)
  {
    MovesTowards(q, learningRate, reward + discountFactor * nextMax);
  }

  lemma MovesTowards(q: real, f: real, target: real)
    requires 0.0 <= f <= 1.0
    ensures Min(q, target) <= q + f * (target - q) <= Max(q, target)
  {
    var r := q + f * (target - q);
    if q <= target {
      StepUp(q, f, target, r);
    } else {
      StepDown(q, f, target, r);
    }
    Between(Min(q, target), r, Max(q, target), q, target);
  }

  lemma StepUp(q: real, f: real, target: real, r: real)
    requires 0.0 <= f <= 1.0 && q <= target && r == q + f * (target - q)
    ensures q <= r <= target
  {
    var d := target - q;
    assert d - f * d == (1.0 - f) * d;
    MulNonNegative(1.0 - f, d);
    MulNonNegative(f, d);
  }

  lemma StepDown(q: real, f: real, target: real, r: real)
    requires 0.0 <= f <= 1.0 && target <= q && r == q + f * (target - q)
    ensures target <= r <= q
  {
    var d := q - target;
    assert f * (target - q) == -(f * d);
    assert d - f * d == (1.0 - f) * d;
    MulNonNegative(1.0 - f, d);
    MulNonNegative(f, d);
  }

  lemma Between(lo: real, r: real, hi: real, a: real, b: real)
    requires lo == Min(a, b) && hi == Max(a, b)
    requires a <= r <= b || b <= r <= a
    ensures lo <= r <= hi
  {
  }

  /** The exploration rate after an update: decayed only while above the floor. */
  function DecayedEpsilon(epsilon: real): (e: real)
    ensures e <= epsilon
    ensures epsilon > EpsilonMin ==> e == epsilon * EpsilonDecay && e < epsilon
    ensures epsilon <= EpsilonMin ==> e == epsilon
  {
    if epsilon > EpsilonMin then epsilon * EpsilonDecay else epsilon
  }

  /** Once above the floor, the decayed rate never drops below 0.995 of the floor. */
  lemma DecayStaysNearFloor(epsilon: real)
    requires epsilon >= EpsilonMin * EpsilonDecay
    ensures DecayedEpsilon(epsilon) >= EpsilonMin * EpsilonDecay
  {
  }

  /**
   * The table after a Q-learning update: the state's row is read (and
   * inserted if missing), then the next state's row, then the state's cell
   * for the action is rewritten.
   */
  function UpdatedTable(t: QTable, stateKey: StateKey, nextKey: StateKey, action: nat,
                        learningRate: real, reward: real, discountFactor: real): (t': QTable)
    requires WellShaped(t) && action < ActionSize
    ensures WellShaped(t')
  {
    var t1 := Touched(t, stateKey);
    var currentQ := t1[stateKey][action];
    var t2 := Touched(t1, nextKey);
    var nextMaxQ := MaxOf(t2[nextKey]);
    t2[stateKey := t2[stateKey][action := QUpdate(currentQ, learningRate, reward, discountFactor, nextMaxQ)]]
  }

  /**
   * The update changes exactly one cell: the state's cell for the action
   * takes the Q-learning value computed from the rows as they were, every
   * other cell reads as before, rows keep their width, and only the two
   * keys read can be new.
   */
  lemma UpdateChangesOneCell(t: QTable, stateKey: StateKey, nextKey: StateKey, action: nat,
                             learningRate: real, reward: real, discountFactor: real)
    requires WellShaped(t) && action < ActionSize
    ensures var t' := UpdatedTable(t, stateKey, nextKey, action, learningRate, reward, discountFactor);
      && (forall k :: k in t' <==> k in t || k == stateKey || k == nextKey)
      && RowOf(t', stateKey)[action]
           == QUpdate(RowOf(t, stateKey)[action], learningRate, reward, discountFactor, MaxOf(RowOf(t, nextKey)))
      && (forall k, j :: 0 <= j < ActionSize && (k != stateKey || j != action) ==>
            RowOf(t', k)[j] == RowOf(t, k)[j])
  {
    var t1 := Touched(t, stateKey);
    var t2 := Touched(t1, nextKey);
    assert RowOf(t2, nextKey) == RowOf(t, nextKey);
    assert RowOf(t1, stateKey) == RowOf(t, stateKey);
  }

  /** The system state the reward reads: its numeric entries and the critical-load flag. */
  datatype SystemState = SystemState(values: map<string, real>, criticalLoadProtected: Option<bool>)

  /** Voltage term: +10 inside [0.95, 1.05] per unit, otherwise -20 |v - 1|. */
  function VoltageTerm(voltagePu: real): (t: real)
    ensures 0.95 <= voltagePu <= 1.05 ==> t == 10.0
    ensures !(0.95 <= voltagePu <= 1.05) ==> t < -1.0
  {
    if 0.95 <= voltagePu <= 1.05 then 10.0 else -Abs(voltagePu - 1.0) * 20.0
  }

  /** Outside the band the penalty grows with the distance from 1 per unit. */
  lemma VoltagePenaltyGrows(near: real, far: real)
    requires !(0.95 <= near <= 1.05) && !(0.95 <= far <= 1.05)
    requires Abs(near - 1.0) <= Abs(far - 1.0)
    ensures VoltageTerm(far) <= VoltageTerm(near)
  {
  }

  /**
   * The reward as a sum of independent terms: fault clearing, unnecessary
   * trips, voltage, critical loads and excessive relay operations.
   */
  function RewardSpec(action: nat, s: SystemState, faultCleared: bool): real
  {
    var operations := Lookup(s.values, "relay_operations", 0.0);
    (if faultCleared then 100.0 else 0.0)
    + (if action <= 1 && !faultCleared then -50.0 else 0.0)
    + VoltageTerm(Lookup(s.values, "voltage", 380.0) / 380.0)
    + (if s.criticalLoadProtected.GetOr(true) then 20.0 else -100.0)
    + (if operations > 3.0 then -(operations * 10.0) else 0.0)
  }

  /** A cleared fault adds exactly 100, and for a trip action also removes the 50 trip penalty. */
  lemma ClearingBonus(action: nat, s: SystemState)
    ensures RewardSpec(action, s, true) == RewardSpec(action, s, false) + (if action <= 1 then 150.0 else 100.0)
  {
  }

  /**
   * A voltage outside [0.95, 1.05] per unit costs exactly 20 |v - 1|, measured
   * against the same state at the nominal 380 V, which earns the in-band 10.
   */
  lemma OffBandVoltagePenalty(action: nat, s: SystemState, faultCleared: bool)
    requires var v := Lookup(s.values, "voltage", 380.0) / 380.0; !(0.95 <= v <= 1.05)
    ensures var v := Lookup(s.values, "voltage", 380.0) / 380.0;
      RewardSpec(action, s, faultCleared) + 10.0 + 20.0 * Abs(v - 1.0)
        == RewardSpec(action, s.(values := s.values["voltage" := 380.0]), faultCleared)
  {
  }

  /** With the fault not cleared, a trip action scores exactly 50 less than adjusting or waiting. */
  lemma TripPenalty(trip: nat, other: nat, s: SystemState)
    requires trip <= 1 && 2 <= other
    ensures RewardSpec(trip, s, false) == RewardSpec(other, s, false) - 50.0
  {
  }

  /** Relay operations count against the reward only above three. */
  lemma FewOperationsFree(action: nat, s: SystemState, faultCleared: bool)
    requires Lookup(s.values, "relay_operations", 0.0) <= 3.0
    ensures RewardSpec(action, s, faultCleared)
              == RewardSpec(action, s.(values := s.values["relay_operations" := 0.0]), faultCleared)
  {
  }

  /** No action, state or outcome earns more than 100 + 10 + 20. */
  lemma RewardAtMost(action: nat, s: SystemState, faultCleared: bool)
    ensures RewardSpec(action, s, faultCleared) <= 130.0
  {
  }

  /** Which relay an action commands. */
  datatype RelayTarget = Relay1 | Relay2 | AllRelays | NoRelay
  datatype Command = Trip | AdjustSettings | Monitor

  /** A relay coordination decision (its confidence figure is not modelled). */
  datatype Decision = Decision(relay: RelayTarget, command: Command, timeDelay: real, actionIndex: nat)

  /** The fixed action-to-command map. */
  function ActionMap(action: nat): (d: Decision)
    requires action < ActionSize
    ensures d.actionIndex == action
    ensures action == 0 <==> d.relay == Relay1
    ensures action == 1 <==> d.relay == Relay2
    ensures action == 2 <==> d.relay == AllRelays
    ensures action == 2 <==> d.command == AdjustSettings
    ensures action == 3 <==> d.command == Monitor
    // only trips wait, and relay 1 is tripped faster than relay 2
    ensures d.timeDelay > 0.0 <==> d.command == Trip
    ensures d.command == Trip <==> d.relay == Relay1 || d.relay == Relay2
    ensures d.relay == Relay1 ==> d.timeDelay == 0.05
    ensures d.relay == Relay2 ==> d.timeDelay == 0.1
  {
    match action
    case 0 => Decision(Relay1, Trip, 0.05, 0)
    case 1 => Decision(Relay2, Trip, 0.1, 1)
    case 2 => Decision(AllRelays, AdjustSettings, 0.0, 2)
    case _ => Decision(NoRelay, Monitor, 0.0, 3)
  }

  /**
   * On a state the table has never seen, the row is all zeros, so the first
   * best action is 0: an untrained coordinator trips relay 1 after 0.05 s.
   */
  lemma UnseenStateTripsRelay1(t: QTable, key: StateKey, action: nat)
    requires key !in t && action < ActionSize
    requires forall j :: 0 <= j < action ==> RowOf(t, key)[j] < RowOf(t, key)[action]
    ensures action == 0
    ensures ActionMap(action) == Decision(Relay1, Trip, 0.05, 0)
  {
    assert RowOf(t, key) == ZeroRow;
    ZeroRowFirstBest(action);
  }

  /** In the zero row every action ties with action 0, so only 0 is first best. */
  lemma ZeroRowFirstBest(action: nat)
    requires action < ActionSize
    ensures (forall j :: 0 <= j < action ==> ZeroRow[j] < ZeroRow[action]) ==> action == 0
  {
    if action > 0 {
      assert ZeroRow[0] == ZeroRow[action];
    }
  }

  /**
   * The state vector of a system-data map: voltage over 380, current and
   * power over 100, time of day over 24, the rest as given, each with its
   * default when absent.
   */
  function GetState(data: map<string, real>): (state: seq<real>)
    ensures |state| == 8
    ensures "voltage" !in data ==> state[0] == 1.0
    ensures "voltage" in data ==> state[0] * 380.0 == data["voltage"]
    ensures "time_of_day" in data ==> state[6] * 24.0 == data["time_of_day"]
  {
    [Lookup(data, "voltage", 380.0) / 380.0,
     Lookup(data, "current", 0.0) / 100.0,
     Lookup(data, "power", 0.0) / 100.0,
     Lookup(data, "battery_soc", 0.5),
     Lookup(data, "fault_severity", 0.0),
     Lookup(data, "fault_location", 0.0),
     Lookup(data, "time_of_day", 12.0) / 24.0,
     Lookup(data, "load_priority", 0.5)]
  }

  /** Missing data reads as the nominal state: 1 p.u., no current or power, half SOC, noon. */
  lemma EmptyDataIsNominal()
    ensures GetState(map[]) == [1.0, 0.0, 0.0, 0.5, 0.0, 0.0, 0.5, 0.5]
  {
  }

  class AdaptiveRelayCoordinator {
    const learningRate: real
    const discountFactor: real
    var epsilon: real
    var qTable: QTable

    ghost predicate Valid()
      reads this
    {
      WellShaped(qTable)
    }

    constructor (config: map<string, real>)
      ensures learningRate == Lookup(config, "learning_rate", 0.1)
      ensures discountFactor == Lookup(config, "discount_factor", 0.95)
      ensures epsilon == Lookup(config, "epsilon", 0.1)
      ensures qTable == map[]
      ensures Valid()
    {
      learningRate := Lookup(config, "learning_rate", 0.1);
      discountFactor := Lookup(config, "discount_factor", 0.95);
      epsilon := Lookup(config, "epsilon", 0.1);
      qTable := map[];
    }

    /** Digitise each feature against its bucket edges, building the key one feature at a time. */
    method DiscretizeState(state: seq<real>) returns (key: StateKey)
      ensures key == KeyOf(state)
    {
      key := [];
      var n := if |state| < |Buckets| then |state| else |Buckets|;
      for i := 0 to n
        invariant |key| == i
        invariant forall j :: 0 <= j < i ==> key[j] == Digitize(state[j], Edges(Buckets[j]))
      {
        key := key + [Digitize(state[i], Edges(Buckets[i]))];
      }
    }

    /**
     * The greedy path of the epsilon-greedy policy: the first best action of
     * the state's row. Reading the row inserts it into the table if missing.
     */
    method SelectAction(state: seq<real>) returns (action: nat)
      requires Valid()
      modifies this`qTable
      ensures Valid()
      ensures qTable == Touched(old(qTable), KeyOf(state))
      ensures action < ActionSize
      ensures var row := RowOf(old(qTable), KeyOf(state));
        (forall j :: 0 <= j < ActionSize ==> row[j] <= row[action])
        && (forall j :: 0 <= j < action ==> row[j] < row[action])
    {
      var key := DiscretizeState(state);
      qTable := Touched(qTable, key);
      action := ArgMax(qTable[key]);
    }

    /**
     * The Q-learning update: only the cell of the state and action changes,
     * to `q + lr (r + gamma max Q[s'] - q)`; both rows read are inserted if
     * missing; epsilon decays while above its floor.
     */
    method UpdateQTable(state: seq<real>, action: nat, reward: real, nextState: seq<real>)
      requires Valid() && action < ActionSize
      modifies this`qTable, this`epsilon
      ensures Valid()
      ensures qTable == UpdatedTable(old(qTable), KeyOf(state), KeyOf(nextState), action,
                                     learningRate, reward, discountFactor)
      ensures epsilon == DecayedEpsilon(old(epsilon))
    {
      var stateKey := DiscretizeState(state);
      var nextKey := DiscretizeState(nextState);
      var table := Touched(qTable, stateKey);
      var currentQ := table[stateKey][action];
      table := Touched(table, nextKey);
      var nextMaxQ := MaxOf(table[nextKey]);
      var newQ := QUpdate(currentQ, learningRate, reward, discountFactor, nextMaxQ);
      qTable := table[stateKey := table[stateKey][action := newQ]];
      if epsilon > EpsilonMin {
        epsilon := epsilon * EpsilonDecay;
      }
    }

    /** The reward, accumulated term by term as the coordinator does. */
    method CalculateReward(action: nat, s: SystemState, faultCleared: bool) returns (reward: real)
      ensures reward == RewardSpec(action, s, faultCleared)
    {
      reward := 0.0;
      if faultCleared {
        reward := reward + 100.0;
      }
      if action in {0, 1} && !faultCleared {
        reward := reward - 50.0;
      }
      var voltagePu := Lookup(s.values, "voltage", 380.0) / 380.0;
      if 0.95 <= voltagePu <= 1.05 {
        reward := reward + 10.0;
      } else {
        reward := reward - Abs(voltagePu - 1.0) * 20.0;
      }
      if s.criticalLoadProtected.GetOr(true) {
        reward := reward + 20.0;
      } else {
        reward := reward - 100.0;
      }
      var relayOperations := Lookup(s.values, "relay_operations", 0.0);
      if relayOperations > 3.0 {
        reward := reward - relayOperations * 10.0;
      }
    }

    /**
     * Coordinate the relays for a fault: merge the fault data with the
     * system state (system state wins), take the greedy action and map it
     * to its relay command.
     */
    method CoordinateRelays(faultData: map<string, real>, systemState: map<string, real>)
      returns (decision: Decision)
      requires Valid()
      modifies this`qTable
      ensures Valid()
      ensures var key := KeyOf(GetState(faultData + systemState));
        && qTable == Touched(old(qTable), key)
        && decision.actionIndex < ActionSize
        && decision == ActionMap(decision.actionIndex)
        && (forall j :: 0 <= j < ActionSize ==>
              RowOf(old(qTable), key)[j] <= RowOf(old(qTable), key)[decision.actionIndex])
        && (forall j :: 0 <= j < decision.actionIndex ==>
              RowOf(old(qTable), key)[j] < RowOf(old(qTable), key)[decision.actionIndex])
    {
      var state := GetState(faultData + systemState);
      var action := SelectAction(state);
      decision := ActionMap(action);
    }
  }
}
