# DC microgrid simulator — a Dafny model

This project models the rule-based core of a Python simulator of a 400 V DC
microgrid. The microgrid has a PV array, a wind turbine, a battery energy
storage system (BESS) and a set of loads, plus AI-assisted protection logic.
The Dafny modules mirror the source files:

- `Components` (`src/microgrid_model/components.py`):
  - the PV output, capped at its rating;
  - the three-region wind power curve and the tip-speed ratio;
  - the `BatteryStorage` class, whose `Charge`/`Discharge` methods update
    `soc` and `cycleCount` in place. Their clamp rule is defined once, as the
    pure functions `ChargeStep`/`DischargeStep`;
  - the load current and criticality.
- `Network` (`src/microgrid_model/network.py`): the `DCMicrogrid` class.
  - Power balance with sign-based battery dispatch and energy accounting.
  - The stability classifier and the SAIFI/SAIDI/CAIDI reliability indices.
  - Metric reset.
- `ScriptSimulation`: what `main_demo.py` and `run_matlab_style.py` share.
  - The cubic-ramp wind loop and the SOC-clamping battery loop, which fill
    arrays index by index.
  - The SOC ledger that ties the final SOC to the charged and discharged
    energies.
  - `MainDemo` and `MatlabStyle` instantiate it with each script's own
    constants and summaries.
- `PowerFlow` (`src/microgrid_model/power_flow.py`):
  - the injection and mismatch computation;
  - the Jacobian;
  - the Newton iteration loop, with the linear solver as a parameter;
  - line losses;
  - voltage-stability analysis.
- `AdaptiveRelay` (`src/ai_protection/adaptive_relay.py`): the
  Q-learning relay coordinator.
  - State discretisation into bucket indices.
  - Greedy action selection.
  - The one-cell Q update with epsilon decay.
  - The reward function.
  - The fixed action → relay/command/delay map.
- `AnomalyDetection` (`src/ai_protection/anomaly_detection.py`):
  - severity banding;
  - post-processing of the detector's predictions;
  - cyber feature extraction;
  - rule-based attack classification;
  - sliding-window monitoring.
- `FaultDetection` (`src/ai_protection/fault_detection.py`): the decision
  rule of `detect_fault` over the classifier's probability vector, i.e. the
  length guard, the argmax and the confidence threshold.
- `PerformanceMetrics` (`src/utils/performance_metrics.py`): energy
  totals, zero-guarded ratios, battery cycle counting and the capped THD
  estimate.
- `Numerics` and `Wrappers` hold the shared helpers: sums, min/max/argmax,
  the zero-guarded ratio, configuration lookups with defaults, and
  `Option`/`Result`.

Floats are modelled as `real`. Randomness, the scikit-learn models, the FFT,
square roots and `np.linalg.solve` become inputs or function parameters.

Some behaviours of the code are reproduced as written:

- `net_power` adds the battery power on the charge branch too, so an
  unclamped charge step reports twice the surplus (`Network.NetPowerByBranch`).
- `get_state` divides the voltage by 380 V, not by the 400 V bus level.
- A Q-table read of an unknown state inserts a zero row, because the table
  is a `defaultdict` (`AdaptiveRelay.Touched`).

The code has no relay trip state machine, fault-event log or bus-voltage
dynamics, so neither does the model.

## Model

| member | source | states |
|---|---|---|
| Components.PVPower | src/microgrid_model/components.py:31-49 | PV output never exceeds the rating or the uncapped linear expression, and equals one of them; zero irradiance gives 0 for a non-negative rating |
| Components.DarkPanel | src/microgrid_model/components.py:43-46 | with zero irradiance the uncapped output is 0 whatever the temperature |
| Components.PVPowerMonotone | src/microgrid_model/components.py:43-49 | with a non-negative area, efficiency and temperature factor, more irradiance never gives less power |
| Components.WindPower | src/microgrid_model/components.py:83-104 | 0 strictly outside [cut-in, cut-out]; the rating from rated speed up to and including cut-out; min(aerodynamic power, rating) in between; hence always within [0, rating] |
| Components.AeroPowerNonNegative | src/microgrid_model/components.py:100-102 | the aerodynamic power is non-negative for a non-negative wind speed |
| Components.WindPowerMonotone | src/microgrid_model/components.py:93-104 | on [cut-in, cut-out] the power curve is non-decreasing in wind speed |
| Components.TipSpeedRatio | src/microgrid_model/components.py:106-119 | 0 at zero wind; otherwise ratio × wind speed = rotor speed × radius |
| Components.ChargeStep | src/microgrid_model/components.py:155-165 | delivered power ≤ min(request, max rate); the SOC moves by exactly the delivered power; the rate-limited request is kept when it fits, else the SOC lands on max_soc; SOC ≤ max_soc is preserved; a non-negative request never lowers the SOC |
| Components.ChargeClampFacts | src/microgrid_model/components.py:163-165 | the recomputed clamp power brings the SOC exactly to max_soc, is below the request, and is non-negative when the SOC started in range |
| Components.ChargeUnclampedFacts | src/microgrid_model/components.py:159-160 | charging a non-negative power never lowers the SOC |
| Components.DischargeStep | src/microgrid_model/components.py:181-191 | the mirror of ChargeStep at min_soc: delivered ≤ min(request, max rate), SOC ≥ min_soc preserved, SOC never rises for a non-negative request |
| Components.DischargeClampFacts | src/microgrid_model/components.py:189-191 | the recomputed clamp power brings the SOC exactly to min_soc, is below the request, and is non-negative when the SOC started in range |
| Components.DischargeUnclampedFacts | src/microgrid_model/components.py:185-186 | discharging a non-negative power never raises the SOC |
| Components.RoundTripLoss | src/microgrid_model/components.py:156-191 | charging then discharging the same unclamped power over the same dt lowers the SOC by power·dt·(1/η − η)/capacity, strictly when η < 1 |
| Components.RoundTripSoc | src/microgrid_model/components.py:159-186 | the same round-trip loss on the unclamped SOC formulas |
| Components.BatteryStorage.constructor | src/microgrid_model/components.py:125-142 | parameters from the configuration with their defaults, SOC from `initial_soc` (default 0.5), cycle count 0 |
| Components.BatteryStorage.Charge | src/microgrid_model/components.py:144-168 | returns and stores exactly ChargeStep of the old SOC; cycle count unchanged |
| Components.BatteryStorage.Discharge | src/microgrid_model/components.py:170-196 | returns and stores exactly DischargeStep of the old SOC; cycle count grows by dt/2 |
| Components.BatteryStorage.AvailableCapacity | src/microgrid_model/components.py:198-205 | non-negative iff SOC ≥ min_soc |
| Components.BatteryStorage.RemainingCapacity | src/microgrid_model/components.py:207-214 | non-negative iff SOC ≤ max_soc; available + remaining = (max_soc − min_soc) × capacity |
| Components.LoadCurrent | src/microgrid_model/components.py:246-258 | 0 at zero voltage, otherwise current × voltage = 1000 × power |
| Components.IsCritical | src/microgrid_model/components.py:260-267 | a load is critical iff its priority is 1 |
| Components.ConfiguredCritical | src/microgrid_model/components.py:237-267 | a load built from its configuration is critical iff the configuration sets priority 1; without a priority (default 2) it is not |
| Network.DCMicrogrid.constructor | src/microgrid_model/network.py:17-70 | a component exists exactly when its section is enabled, built from that section; one load per load section; zero metrics; not grid connected |
| Network.DCMicrogrid.CalculatePowerBalance | src/microgrid_model/network.py:72-140 | generation = PV + wind of the present components; load = sum of load powers; deficit = load − generation; battery dispatched by the sign of the deficit (0/0 without a battery); net power = generation + battery power − load; only the two energy metrics grow, by generation·dt and load·dt |
| Network.OperateBattery | src/microgrid_model/network.py:115-121 | positive deficit → discharge(deficit), negative → charge(−deficit), zero → battery untouched with power 0 and the current SOC; the cycle count grows only on discharge |
| Network.DispatchStaysInBand | src/microgrid_model/network.py:115-121 | from an SOC in band the dispatched SOC stays in band, the power is within the relevant rate limit, and a zero deficit is Step(0, soc) |
| Network.NetPowerByBranch | src/microgrid_model/network.py:115-124 | net power is 0 when an unclamped discharge covers the deficit, twice the surplus when an unclamped charge absorbs it, and 0 when balanced |
| Network.DCMicrogrid.CheckSystemStability | src/microgrid_model/network.py:142-174 | stable iff none of under-, over-voltage or overcurrent; per-unit voltage 1; current = abs(net power)·1000/abs(voltage); overcurrent iff above 100 A × threshold |
| Network.DCMicrogrid.CalculateReliabilityMetrics | src/microgrid_model/network.py:176-204 | all zero with no events; SAIFI and SAIDI zero with no loads; SAIFI × loads = events, CAIDI × events = total duration, SAIDI = SAIFI × CAIDI |
| Network.DCMicrogrid.ResetMetrics | src/microgrid_model/network.py:221-229 | metrics back to their initial zero values |
| ScriptSimulation.RampWindPower | main_demo.py:78-85 | 0 strictly outside [cut-in, cut-out]; the rating from rated speed to cut-out; 0 at cut-in; within [0, rating] |
| ScriptSimulation.RampCube | main_demo.py:85 | the cubic ramp factor lies in [0, 1) below rated speed and is 0 at cut-in |
| ScriptSimulation.RampWindMonotone | main_demo.py:80-85 | the ramp curve is non-decreasing on [cut-in, cut-out] |
| ScriptSimulation.WindSeries | main_demo.py:78-85 | one value per sample, each within [0, rating], 0 outside the operating range and rated at or above rated speed |
| ScriptSimulation.FillWindPower | run_matlab_style.py:104-111 | the array written index by index equals the ramp curve at every sample |
| ScriptSimulation.PvSeries | run_matlab_style.py:98-100 | every PV sample is at most the rating and the uncapped value, equals one of them, and is 0 at zero irradiance |
| ScriptSimulation.ScriptStepBounds | main_demo.py:113-141 | from an SOC in band one loop step keeps it in band; battery power ≤ 0 when discharging, ≥ 0 when charging, within the rate limits, exactly 0 with the SOC kept on a zero deficit; a crossing step lands exactly on the bound |
| ScriptSimulation.ScriptStepLedger | main_demo.py:117-139 | each step moves the SOC by the signed battery power's charge (×η) or discharge (÷η) energy over the capacity |
| ScriptSimulation.DischargeLedger | main_demo.py:117-127 | the discharge branch's SOC change is that of the negated recorded power |
| ScriptSimulation.ChargeLedger | main_demo.py:129-139 | the charge branch's SOC change is that of the recorded power |
| ScriptSimulation.BatteryStep | main_demo.py:114-141 | the loop body, branch by branch, produces the recorded step and keeps the SOC in band |
| ScriptSimulation.DischargeBranch | main_demo.py:117-127 | the script's discharge branch computes exactly the battery's DischargeStep |
| ScriptSimulation.ChargeBranch | main_demo.py:129-139 | the script's charge branch computes exactly the battery's ChargeStep |
| ScriptSimulation.SimulateBattery | run_matlab_style.py:119-154 | SOC[0] is the initial SOC and P_battery[0] = 0; every later step is the clamped step from SOC[i−1] for the deficit load − (PV + wind); every SOC stays in [SOC_min, SOC_max]; every battery power is within the rate limits |
| ScriptSimulation.RunSteps | run_matlab_style.py:126-154 | the loop fills steps 1 … n−1 of both arrays under the recorded-steps invariant, leaving index 0 alone |
| ScriptSimulation.ExtendRecorded | run_matlab_style.py:126-154 | writing step i into both arrays extends the loop invariant by one step |
| ScriptSimulation.SocLedger | main_demo.py:113-141 | the final SOC equals the initial SOC plus the ledger of all recorded battery powers |
| ScriptSimulation.LedgerClosedForm | main_demo.py:153-154 | the step-by-step ledger equals (η·charged − discharged/η)·dt/capacity, in terms of the charged and discharged sums |
| ScriptSimulation.ClosedLedgerAppend | main_demo.py:153-154 | appending one step to the series adds that step's SOC change to the closed-form ledger |
| ScriptSimulation.BalancedRunEfficiency | main_demo.py:153-157 | when a run ends at its starting SOC after charging something, discharged/charged energy is exactly η² (in percent) |
| ScriptSimulation.ChargedEnergy | main_demo.py:153 | charged energy is non-negative |
| ScriptSimulation.DischargedEnergy | main_demo.py:154 | discharged energy is non-negative |
| ScriptSimulation.Percent | main_demo.py:156-157 | 0 when the denominator is not positive; otherwise percent × denominator = 100 × numerator |
| MainDemo.Summarize | main_demo.py:149-157 | generation = PV + wind energy; charged and discharged energies are non-negative and differ by the net battery energy; penetration and battery efficiency are zero-guarded percentages |
| MainDemo.Run | main_demo.py:65-157 | every SOC in [0.2, 0.9] from 0.5; P_battery[0] = 0; every later step follows the clamp rule from the previous SOC and that sample's deficit (load − PV − wind); every battery power within ±50 kW; final SOC = 0.5 + ledger; the summary is that of the PV, wind, load and battery series |
| MainDemo.BalancedRunReports | main_demo.py:153-157 | a run that returns to its starting SOC after charging reports a battery efficiency of 90.25 % (0.95²) |
| MatlabStyle.Summarize | run_matlab_style.py:163-170 | generation = PV + wind; efficiency and penetration are zero-guarded percentages; the average SOC is the mean; battery energies are non-negative |
| MatlabStyle.EfficiencyTimesPenetration | run_matlab_style.py:168-169 | with both energies positive, efficiency × penetration = 10000 |
| MatlabStyle.Run | run_matlab_style.py:96-170 | every SOC in [0.2, 0.95] from 0.5; P_battery[0] = 0; every later step follows the clamp rule from the previous SOC and that sample's deficit (load − PV − wind); every battery power within ±50 kW; final SOC = 0.5 + ledger; average SOC in band; the summary is that of the computed series |
| MatlabStyle.BalancedRunDischarge | run_matlab_style.py:304-305 | a balanced run discharges exactly 0.81 (0.90²) of what it charged |
| PowerFlow.Injections | src/microgrid_model/power_flow.py:52-55 | one injection per bus |
| PowerFlow.DiagonalIrrelevant | src/microgrid_model/power_flow.py:55 | the diagonal admittance never contributes to a bus's injection |
| PowerFlow.FlatVoltagesNoFlow | src/microgrid_model/power_flow.py:52-55 | equal voltages at all buses give zero injections |
| PowerFlow.RowInjection | src/microgrid_model/power_flow.py:54-55 | the inner loop accumulates Σ_j Y[i][j]·(V[i] − V[j]) |
| PowerFlow.CalculateInjections | src/microgrid_model/power_flow.py:52-55 | the computed array equals the injections of the current voltages |
| PowerFlow.Mismatch | src/microgrid_model/power_flow.py:57 | mismatch[i] = P[i] − P_calc[i] |
| PowerFlow.ConvergedMeansEveryBus | src/microgrid_model/power_flow.py:60 | the max-abs-mismatch test holds iff every bus's mismatch is below the tolerance |
| PowerFlow.JacobianOf | src/microgrid_model/power_flow.py:87-97 | diagonal = row sum of Y; off-diagonal = −Y[i][j] |
| PowerFlow.JacobianRowSum | src/microgrid_model/power_flow.py:90-95 | each Jacobian row sums to the diagonal admittance Y[i][i] |
| PowerFlow.CalculateJacobian | src/microgrid_model/power_flow.py:72-97 | the fresh n×n array equals JacobianOf entry by entry |
| PowerFlow.NewtonStep | src/microgrid_model/power_flow.py:65-67 | a successful solve yields a voltage vector of the same size |
| PowerFlow.FailedBeforeEach | src/microgrid_model/power_flow.py:50-62 | before the stopping iteration every iterate exists and fails the convergence test |
| PowerFlow.StoppedStays | src/microgrid_model/power_flow.py:50-70 | once the iteration stops, more budget changes nothing |
| PowerFlow.RunMeaning | src/microgrid_model/power_flow.py:50-70 | still running after k steps means k failed tests; converged means an earlier iterate passed after all previous ones failed; solver failure means the next solve returned nothing |
| PowerFlow.RunReaches | src/microgrid_model/power_flow.py:50-67 | k failed tests with iterate v mean the run is still going at v |
| PowerFlow.FinalIsTheOutcome | src/microgrid_model/power_flow.py:50-70 | the independent description of the solver's outcome holds iff (V, status) is the computed final result |
| PowerFlow.ConvergedWithinTolerance | src/microgrid_model/power_flow.py:50-62 | reported convergence happened within max_iterations and every bus mismatch of the result is below tolerance |
| PowerFlow.ApplyCorrection | src/microgrid_model/power_flow.py:67 | V += ΔV element-wise, in place |
| PowerFlow.NewtonIteration | src/microgrid_model/power_flow.py:51-67 | one loop body advances the run by exactly one step, stopping or updating V in place |
| PowerFlow.CopyVoltages | src/microgrid_model/power_flow.py:47 | a fresh copy of the caller's voltages |
| PowerFlow.NewtonLoop | src/microgrid_model/power_flow.py:50-70 | the loop ends with the final voltages and status of the step-by-step run function |
| PowerFlow.CalculateDcPowerFlow | src/microgrid_model/power_flow.py:26-70 | the caller's array is untouched; the result is fresh and equals the specified outcome (converged, not converged, or solver failure) |
| PowerFlow.RecordLine | src/microgrid_model/power_flow.py:119-124 | recording line (i, j) keeps the entries valid, ordered and covering, and adds its loss to the total |
| PowerFlow.SkipLine | src/microgrid_model/power_flow.py:119-120 | skipping a zero admittance keeps the coverage invariant |
| PowerFlow.NextRow | src/microgrid_model/power_flow.py:118-119 | finishing row i gives the invariant for row i + 1 |
| PowerFlow.RowLosses | src/microgrid_model/power_flow.py:119-124 | the inner loop records exactly the nonzero lines (i, j > i) in order and keeps the total equal to the sum |
| PowerFlow.CalculateLineLosses | src/microgrid_model/power_flow.py:99-130 | entries are exactly the lines i < j with nonzero admittance, each once, in loop order, with loss Y·(ΔV)²; the total is their sum; the percentage is relative to Σ V² |
| PowerFlow.LossPercentage | src/microgrid_model/power_flow.py:129 | absent iff Σ V² = 0; otherwise percentage × Σ V² = 100 × losses |
| PowerFlow.PerUnit | src/microgrid_model/power_flow.py:176 | per-unit value × base = voltage at every bus |
| PowerFlow.MaxDeviation | src/microgrid_model/power_flow.py:179-180 | the maximum deviation from 1 p.u. bounds every bus and is attained |
| PowerFlow.AnalyzeVoltageStability | src/microgrid_model/power_flow.py:161-194 | per-unit voltages; the attained maximum deviation; margin = 1 − deviation; stable iff margin > 0.1 |
| PowerFlow.StableIffWithinBand | src/microgrid_model/power_flow.py:176-193 | stable iff every bus voltage lies strictly between 0.1 and 1.9 times the base |
| PowerFlow.BusInBand | src/microgrid_model/power_flow.py:176-179 | one bus deviates by less than 0.9 p.u. iff its voltage is strictly inside (0.1, 1.9) × base |
| AdaptiveRelay.Edges | src/ai_protection/adaptive_relay.py:62-71 | `linspace` edges: count of them, first is the low end, last is the high end |
| AdaptiveRelay.EdgesIncrease | src/ai_protection/adaptive_relay.py:62-71 | the edges strictly increase |
| AdaptiveRelay.Digitize | src/ai_protection/adaptive_relay.py:76 | the bucket index is at most the number of edges |
| AdaptiveRelay.DigitizeBrackets | src/ai_protection/adaptive_relay.py:76 | for increasing edges, index k means edges[k−1] ≤ x < edges[k] (`np.digitize`) |
| AdaptiveRelay.KeyOf | src/ai_protection/adaptive_relay.py:51-79 | one index per feature (zip stops at the shorter), each at most its bucket count |
| AdaptiveRelay.AdaptiveRelayCoordinator.DiscretizeState | src/ai_protection/adaptive_relay.py:51-79 | the loop builds exactly KeyOf(state) |
| AdaptiveRelay.Touched | src/ai_protection/adaptive_relay.py:47 | reading a key adds it (with a zero row if new) and leaves every row's value unchanged |
| AdaptiveRelay.QUpdateBetween | src/ai_protection/adaptive_relay.py:144-149 | for a learning rate in [0, 1] the new Q value lies between the old one and the target r + γ·max Q[s'] |
| AdaptiveRelay.MovesTowards | src/ai_protection/adaptive_relay.py:147-149 | q + f·(target − q) lies between q and target for f in [0, 1] |
| AdaptiveRelay.UpdatedTable | src/ai_protection/adaptive_relay.py:140-151 | the updated table keeps four-entry rows |
| AdaptiveRelay.UpdateChangesOneCell | src/ai_protection/adaptive_relay.py:140-151 | only Q[s][a] changes, to the Q-learning value; the keys are the old ones plus s and s' |
| AdaptiveRelay.DecayedEpsilon | src/ai_protection/adaptive_relay.py:153-155 | epsilon never increases; it is multiplied by 0.995 exactly while above 0.01 |
| AdaptiveRelay.DecayStaysNearFloor | src/ai_protection/adaptive_relay.py:153-155 | decay never takes epsilon below 0.01 × 0.995 |
| AdaptiveRelay.AdaptiveRelayCoordinator.UpdateQTable | src/ai_protection/adaptive_relay.py:124-155 | the table becomes UpdatedTable of the two keys and epsilon becomes its decayed value |
| AdaptiveRelay.VoltageTerm | src/ai_protection/adaptive_relay.py:185-189 | +10 inside [0.95, 1.05] p.u., below −1 outside |
| AdaptiveRelay.OffBandVoltagePenalty | src/ai_protection/adaptive_relay.py:185-189 | outside [0.95, 1.05] p.u. the reward is exactly 10 + 20·abs(v − 1) below that of the same state at the nominal 380 V |
| AdaptiveRelay.VoltagePenaltyGrows | src/ai_protection/adaptive_relay.py:185-189 | outside the band a larger distance from 1 p.u. never gives a smaller penalty |
| AdaptiveRelay.ClearingBonus | src/ai_protection/adaptive_relay.py:177-182 | clearing the fault adds 100, plus the 50 trip penalty it cancels for actions 0 and 1 |
| AdaptiveRelay.TripPenalty | src/ai_protection/adaptive_relay.py:181-182 | with the fault not cleared a trip action scores exactly 50 less than action 2 or 3 |
| AdaptiveRelay.FewOperationsFree | src/ai_protection/adaptive_relay.py:198-200 | three or fewer relay operations cost nothing |
| AdaptiveRelay.RewardAtMost | src/ai_protection/adaptive_relay.py:174-202 | no reward exceeds 130 |
| AdaptiveRelay.AdaptiveRelayCoordinator.CalculateReward | src/ai_protection/adaptive_relay.py:157-202 | the step-by-step accumulation equals the sum of the independent reward terms |
| AdaptiveRelay.ActionMap | src/ai_protection/adaptive_relay.py:226-234 | action 0 and only it targets relay 1, action 1 and only it relay 2, action 2 and only it all relays with adjust_settings, action 3 and only it monitor; exactly the trips (relays 1 and 2) have a delay, 0.05 s and 0.1 s; the action index is recorded |
| AdaptiveRelay.GetState | src/ai_protection/adaptive_relay.py:81-102 | eight features; voltage normalised by 380 (1.0 when absent); time of day by 24 |
| AdaptiveRelay.EmptyDataIsNominal | src/ai_protection/adaptive_relay.py:91-100 | empty data gives the default state [1, 0, 0, 0.5, 0, 0, 0.5, 0.5] |
| AdaptiveRelay.AdaptiveRelayCoordinator.constructor | src/ai_protection/adaptive_relay.py:19-47 | learning rate, discount and epsilon from the configuration with defaults 0.1, 0.95, 0.1; an empty table |
| AdaptiveRelay.AdaptiveRelayCoordinator.SelectAction | src/ai_protection/adaptive_relay.py:104-122 | the greedy path returns the first index of the largest Q value in the state's row, an action in [0, 4); the read inserts the key |
| AdaptiveRelay.AdaptiveRelayCoordinator.CoordinateRelays | src/ai_protection/adaptive_relay.py:204-234 | the decision is the action map of the first best action (np.argmax) of the merged data's state row; the row is inserted if missing |
| AdaptiveRelay.UnseenStateTripsRelay1 | src/ai_protection/adaptive_relay.py:47-122 | on a state missing from the table the first best action of its zero row is 0, so the decision is: trip relay 1 after 0.05 s |
| AnomalyDetection.SeverityOf | src/ai_protection/anomaly_detection.py:107-116 | critical iff < −0.5, high on [−0.5, −0.3), medium on [−0.3, −0.1), low otherwise |
| AnomalyDetection.CalculateSeverity | src/ai_protection/anomaly_detection.py:97-116 | the severity is that of some score and at least as severe as that of every score |
| AnomalyDetection.SeverityMonotone | src/ai_protection/anomaly_detection.py:109-116 | a lower minimum score never gives a less severe level |
| AnomalyDetection.AnomalyIndices | src/ai_protection/anomaly_detection.py:86-92 | exactly the positions predicted −1, increasing |
| AnomalyDetection.CountMatchesIndices | src/ai_protection/anomaly_detection.py:86-92 | the anomaly count equals the number of anomaly indices |
| AnomalyDetection.Predict | src/ai_protection/anomaly_detection.py:68-95 | detected iff the count is positive; the count is the number of −1 predictions and of indices; the indices are in range, strictly increasing, and an index is listed iff predicted −1; the scores are passed through; the severity is that of the minimum score |
| AnomalyDetection.ExtractCyberFeatures | src/ai_protection/anomaly_detection.py:141-164 | six features in fixed key order, each the data value or 0 |
| AnomalyDetection.ClassifyAttackTypes | src/ai_protection/anomaly_detection.py:166-196 | DDoS iff packet rate > 1000, Brute Force iff failed logins > 5, Command Injection iff command frequency > 100, in that order; Unknown alone exactly when no rule fires; never empty |
| AnomalyDetection.DetectCyberAttacks | src/ai_protection/anomaly_detection.py:118-139 | the detection is that of the predictions; attacks are listed exactly when anomalies were detected, and then follow the classification rules on the data's packet rate, failed logins and command frequency (each 0 when absent) |
| AnomalyDetection.ContinuousMonitoring | src/ai_protection/anomaly_detection.py:198-222 | a zero step (window 0 or 1) is an error; a negative window gives no results; otherwise one result per window start k·(w // 2), each window inside the stream, with the count of `range` |
| AnomalyDetection.SlideWindows | src/ai_protection/anomaly_detection.py:213-222 | the loop yields exactly the windows starting at multiples of the step that fit in the stream, each with its detection |
| AnomalyDetection.WindowCount | src/ai_protection/anomaly_detection.py:216 | the loop's window count equals the length of `range(0, n − w + 1, step)` |
| FaultDetection.FaultTypesDistinct | src/ai_protection/fault_detection.py:36-44 | seven distinct fault labels, every label listed |
| FaultDetection.DetectorConfigOf | src/ai_protection/fault_detection.py:27-29 | sequence length 100 and threshold 0.85 by default |
| FaultDetection.DetectFault | src/ai_protection/fault_detection.py:129-177 | too few rows: no fault, confidence 0 and the message; otherwise the reported label is the first most probable class (np.argmax) and the confidence its probability, detection iff that label is not no_fault and confidence ≥ threshold, with all probabilities paired with their labels |
| FaultDetection.DetectedMeansConfident | src/ai_protection/fault_detection.py:164-167 | a detection implies a real fault type, enough confidence and enough rows |
| FaultDetection.TieGoesToNoFault | src/ai_protection/fault_detection.py:161-167 | when no_fault's probability is maximal the argmax picks it and nothing is detected |
| PerformanceMetrics.SumAbsDiff | src/utils/performance_metrics.py:76-78 | the total movement is non-negative |
| PerformanceMetrics.BatteryCycles | src/utils/performance_metrics.py:65-80 | cycles are half the total SOC movement, hence non-negative |
| PerformanceMetrics.ConstantSocNoCycles | src/utils/performance_metrics.py:77-78 | a constant SOC series gives 0 cycles |
| PerformanceMetrics.CyclesCoverNetChange | src/utils/performance_metrics.py:76-80 | twice the cycles is at least the net SOC change between first and last sample |
| PerformanceMetrics.EstimateThd | src/utils/performance_metrics.py:83-114 | given the root-sum-square of FFT bins 2 to 10 (its square is their sum of squares): 0 below 10 samples or with a zero fundamental; always within [0, 100]; the cap is reached iff the root-sum-square is at least the fundamental; below the cap, THD × fundamental = 100 × that root-sum-square |
| PerformanceMetrics.PureToneNoDistortion | src/utils/performance_metrics.py:104-112 | a spectrum with no harmonics has THD 0 |
| PerformanceMetrics.CalculateAllMetrics | src/utils/performance_metrics.py:13-62 | generation = (ΣPV + Σwind)·dt, consumption = Σload·dt; efficiency and penetration are the zero-guarded ratios; the average SOC is the mean; cycles from the SOC movement; THD is the estimate of the net-power spectrum, within [0, 100] |
| PerformanceMetrics.Assemble | src/utils/performance_metrics.py:39-42 | the two ratios are zero-guarded quotients of the given energies |
| PerformanceMetrics.AverageSoc | src/utils/performance_metrics.py:33 | absent for an empty series, otherwise the mean |
| PerformanceMetrics.IntervalEnergy | src/utils/performance_metrics.py:24-30 | energy × 3600 = power sum × interval (so the energy is the sum at a 3600 s interval); non-negative for non-negative inputs |
| PerformanceMetrics.EfficiencyReciprocal | src/utils/performance_metrics.py:39-42 | for any metrics record whose ratios are taken between its energies, as every CalculateAllMetrics result is: with both energies positive, efficiency × penetration = 1 |

## Left out

- Plotting, printing, logging, YAML loading and file output are left out. They are output, not logic.
- Randomness is left out. The noise added to irradiance, temperature, wind and load becomes input series. The scripts' load profile is an input, since `run_matlab_style.py:116` refers to names the script never defines.
- AdaptiveRelay.AdaptiveRelayCoordinator.SelectAction: models the greedy (`training=False`) path only. The epsilon-random exploration branch draws random numbers.
- AdaptiveRelay.AdaptiveRelayCoordinator.CoordinateRelays: does not model the `confidence` figure. It divides by a maximum over the whole table, which can be 0.
- The `save_model`/`load_model` methods are left out. They are file I/O.
- Foreign calls become inputs:
  - the scikit-learn classifier and anomaly detector (`fit`, `predict_proba`, `score_samples`) and `StandardScaler`;
  - the FFT magnitudes and the square root of the harmonic sum of squares in `_estimate_thd`;
  - `np.linalg.solve`, a function parameter whose failure is the `SolverFailed` status.
- FaultDetection.DetectFault: takes the row count and the probability vector as inputs. The mean/std feature extraction and the model are left out.
- `PowerFlowAnalyzer.calculate_thd` (power_flow.py lines 132-159) is left out. It is an FFT and a square root on a signal.
- PowerFlow.AnalyzeVoltageStability: does not model `voltage_sensitivity`. It uses `np.gradient`.
- PowerFlow.AnalyzeVoltageStability: accepts a single bus, where the source raises because `np.gradient` needs at least two points. The member leaves `voltage_sensitivity` out, so nothing in it depends on that error.
- AnomalyDetection.CalculateSeverity: requires at least one score. `np.min` of an empty score array raises (anomaly_detection.py:107), and that error path is not modelled.
- AnomalyDetection.Predict: requires at least one score, because it computes the severity as CalculateSeverity does.
- AnomalyDetection.DetectCyberAttacks: requires at least one score, because it calls Predict.
- Network.DCMicrogrid.constructor: requires a nonzero `voltage_level`. The source builds with any level. It divides by the level in every power balance, through `Load.calculate_power` (network.py:104), and in the stability check (network.py:155), so a zero level only fails later.
- PerformanceMetrics.CalculateAllMetrics: does not model `voltage_deviation` and `voltage_regulation`. They use `np.std` and a float quotient on the per-unit voltage series.
- `PVSystem.get_mppt_voltage` is left out. It uses a logarithm.
- `Load.calculate_power` is left out. It uses a real exponent. The network's total load is the sum of the configured load powers, because the bus voltage stays at its nominal value and the ratio is 1.
- `DCMicrogrid.get_system_state` is left out. It only returns fields.
- The swept area's π is a constant parameter of the wind turbine.
- Battery operations require dt > 0 and positive capacity and efficiency. The source divides by these on the clamp path, and a non-positive timestep is a configuration error.
- The power-flow members require at least one bus and a square admittance matrix. `np.max` of an empty mismatch raises.
- Voltage analysis requires a positive base voltage.
- Line losses are a sequence of (i, j, loss) entries, not a dict keyed by `"line_i_j"`.
- Q-table keys are index sequences, not `"_"`-joined strings. The join is injective on digit strings, so both determine the same table.
- A NaN mean of an empty series is modelled as an absent value (`None`). So is a zero denominator in the loss percentage.
- Floating-point rounding and overflow are not modelled. All arithmetic is on reals.
