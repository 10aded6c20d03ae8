/**
 * DC power flow on a bus admittance matrix: the injections the buses draw
 * at given voltages, the Jacobian, the Newton iteration (with the linear
 * solver as an input), the line losses and the voltage stability margin.
 */
module PowerFlow {
  import opened Wrappers
  import opened Numerics

  /** A matrix, row by row. */
  type Matrix = seq<seq<real>>

  /**
   * The linear solver: the voltage correction for a Jacobian and a
   * mismatch vector, or None where it fails (a singular Jacobian).
   */
  type Solver = (Matrix, seq<real>) -> Option<seq<real>>

  const DefaultVoltageBase: real := 380.0
  const DefaultMaxIterations: int := 100
  const DefaultTolerance: real := 0.000001
  /** A bus system is stable while its margin exceeds 10%. */
  const StabilityThreshold: real := 0.1

  predicate Square(y: Matrix, n: nat)
  {
    |y| == n && forall i :: 0 <= i < n ==> |y[i]| == n
  }

  // ---------------------------------------------------------------------
  // Injections and the Jacobian
  // ---------------------------------------------------------------------

  /** `sum(row[j] * (vi - v[j]) for j)`: what one bus at voltage `vi` sends through its admittance row. */
  function RowFlow(row: seq<real>, v: seq<real>, vi: real): real
    requires |row| <= |v|
  {
    if row == [] then 0.0
    else RowFlow(row[..|row| - 1], v, vi) + row[|row| - 1] * (vi - v[|row| - 1])
  }

  /** `P_calc`: the power each bus draws at voltages `v`. */
  function Injections(y: Matrix, v: seq<real>): (p: seq<real>)
    requires Square(y, |v|)
    ensures |p| == |v|
  {
    seq(|v|, i requires 0 <= i < |v| => RowFlow(y[i], v, v[i]))
  }

  /** The self-admittance `y[i][i]` never contributes to bus i's injection: its term is `y[i][i] * (v[i] - v[i])`. */
  lemma {:induction false} DiagonalIrrelevant(row: seq<real>, v: seq<real>, i: nat, x: real)
    requires i < |row| <= |v|
    ensures RowFlow(row[i := x], v, v[i]) == RowFlow(row, v, v[i])
  {
    var last := |row| - 1;
    if i < last {
      assert row[i := x][..last] == row[..last][i := x];
      DiagonalIrrelevant(row[..last], v, i, x);
    } else {
      assert row[i := x][..last] == row[..last];
    }
  }

  /** At a flat voltage profile no bus draws any power. */
  lemma FlatVoltagesNoFlow(y: Matrix, v: seq<real>)
    requires Square(y, |v|)
    requires forall i :: 0 <= i < |v| ==> v[i] == v[0]
    ensures forall i :: 0 <= i < |v| ==> Injections(y, v)[i] == 0.0
  {
    forall i | 0 <= i < |v|
      ensures Injections(y, v)[i] == 0.0
    {
      FlatRowNoFlow(y[i], v, v[i]);
    }
  }

  lemma {:induction false} FlatRowNoFlow(row: seq<real>, v: seq<real>, vi: real)
    requires |row| <= |v|
    requires forall j :: 0 <= j < |v| ==> v[j] == vi
    ensures RowFlow(row, v, vi) == 0.0
  {
    if row != [] {
      FlatRowNoFlow(row[..|row| - 1], v, vi);
    }
  }

  /**
   * The Jacobian: each diagonal entry is the whole row sum of `y`, each
   * off-diagonal entry the negated admittance. It does not depend on the
   * voltages.
   */
  function JacobianOf(y: Matrix, n: nat): (jac: Matrix)
    requires Square(y, n)
    ensures Square(jac, n)
    ensures forall i :: 0 <= i < n ==> jac[i][i] == Sum(y[i])
    ensures forall i, j :: 0 <= i < n && 0 <= j < n && i != j ==> jac[i][j] == -y[i][j]
  {
    seq(n, i requires 0 <= i < n =>
      seq(n, j requires 0 <= j < n => if i == j then Sum(y[i]) else -y[i][j]))
  }

  /** Each Jacobian row sums to the self-admittance: the off-diagonal entries cancel the row sum but for `y[i][i]`. */
  lemma JacobianRowSum(y: Matrix, n: nat, i: nat)
    requires Square(y, n) && i < n
    ensures Sum(JacobianOf(y, n)[i]) == y[i][i]
  {
    var jac := JacobianOf(y, n);
    JacobianRowPrefix(y[i], jac[i], i, n);
    assert jac[i][..n] == jac[i];
    assert y[i][..n] == y[i];
  }

  lemma {:induction false} JacobianRowPrefix(row: seq<real>, jrow: seq<real>, i: nat, k: nat)
    requires i < |row| && |jrow| == |row| && k <= |row|
    requires jrow[i] == Sum(row)
    requires forall j :: 0 <= j < |row| && j != i ==> jrow[j] == -row[j]
    ensures Sum(jrow[..k]) == (if i < k then Sum(row) + row[i] else 0.0) - Sum(row[..k])
  {
    if k > 0 {
      JacobianRowPrefix(row, jrow, i, k - 1);
      assert jrow[..k][..k - 1] == jrow[..k - 1];
      assert row[..k][..k - 1] == row[..k - 1];
    }
  }

  /** `_calculate_jacobian`: fills a fresh n-by-n matrix entry by entry; the voltages give only its size. */
  method CalculateJacobian(y: Matrix, voltages: seq<real>) returns (jac: array2<real>)
    requires Square(y, |voltages|)
    ensures fresh(jac)
    ensures jac.Length0 == |voltages| && jac.Length1 == |voltages|
    ensures forall i, j :: 0 <= i < jac.Length0 && 0 <= j < jac.Length1 ==>
              jac[i, j] == JacobianOf(y, |voltages|)[i][j]
  {
    var n := |voltages|;
    jac := new real[n, n];
    for i := 0 to n
      invariant forall r, c :: 0 <= r < i && 0 <= c < n ==> jac[r, c] == JacobianOf(y, n)[r][c]
    {
      for j := 0 to n
        invariant forall r, c :: 0 <= r < i && 0 <= c < n ==> jac[r, c] == JacobianOf(y, n)[r][c]
        invariant forall c :: 0 <= c < j ==> jac[i, c] == JacobianOf(y, n)[i][c]
      {
        if i == j {
          jac[i, j] := Sum(y[i]);
        } else {
          jac[i, j] := -y[i][j];
        }
      }
    }
  }

  /** The `P_calc` loop of `calculate_dc_power_flow`: a fresh array filled bus by bus. */
  method CalculateInjections(y: Matrix, v: array<real>) returns (pCalc: array<real>)
    requires Square(y, v.Length)
    ensures fresh(pCalc)
    ensures pCalc[..] == Injections(y, v[..])
  {
    var n := v.Length;
    pCalc := new real[n](_ => 0.0);
    for i := 0 to n
      invariant forall r :: 0 <= r < i ==> pCalc[r] == RowFlow(y[r], v[..], v[r])
    {
      pCalc[i] := RowInjection(y[i], v, v[i]);
    }
  }

  /** The inner loop: `P_calc[i] += Y[i][j] * (V[i] - V[j])` for each `j`, from zero. */
  method RowInjection(row: seq<real>, v: array<real>, vi: real) returns (acc: real)
    requires |row| == v.Length
    ensures acc == RowFlow(row, v[..], vi)
  {
    acc := 0.0;
    for j := 0 to |row|
      invariant acc == RowFlow(row[..j], v[..], vi)
    {
      assert row[..j + 1][..j] == row[..j];
      acc := acc + row[j] * (vi - v[j]);
    }
    assert row[..|row|] == row;
  }

  // ---------------------------------------------------------------------
  // Newton iteration
  // ---------------------------------------------------------------------

  /** `power_injections - P_calc` */
  function Mismatch(p: seq<real>, pCalc: seq<real>): (m: seq<real>)
    requires |pCalc| == |p|
    ensures |m| == |p|
    ensures forall i :: 0 <= i < |p| ==> m[i] == p[i] - pCalc[i]
  {
    seq(|p|, i requires 0 <= i < |p| => p[i] - pCalc[i])
  }

  /** The convergence test: the largest mismatch over all buses is below the tolerance. */
  predicate WithinTolerance(y: Matrix, p: seq<real>, v: seq<real>, tolerance: real)
    requires |v| > 0 && Square(y, |v|) && |p| == |v|
  {
    MaxAbs(Mismatch(p, Injections(y, v))) < tolerance
  }

  lemma ConvergedMeansEveryBus(y: Matrix, p: seq<real>, v: seq<real>, tolerance: real)
    requires |v| > 0 && Square(y, |v|) && |p| == |v|
    ensures WithinTolerance(y, p, v, tolerance) <==>
              forall i :: 0 <= i < |v| ==> Abs(p[i] - Injections(y, v)[i]) < tolerance
  {
    var m := Mismatch(p, Injections(y, v));
    if !WithinTolerance(y, p, v, tolerance) {
      var k :| 0 <= k < |m| && Abs(m[k]) == MaxAbs(m);
      assert Abs(p[k] - Injections(y, v)[k]) >= tolerance;
    }
  }

  /** `V + delta_V` */
  function Corrected(v: seq<real>, d: seq<real>): (w: seq<real>)
    requires |d| == |v|
    ensures |w| == |v|
  {
    seq(|v|, k requires 0 <= k < |v| => v[k] + d[k])
  }

  /** One update `V += solve(jacobian, mismatch)`; None when the solver fails or answers with the wrong size. */
  function NewtonStep(y: Matrix, p: seq<real>, v: seq<real>, solve: Solver): (next: Option<seq<real>>)
    requires Square(y, |v|) && |p| == |v|
    ensures next.Some? ==> |next.value| == |v|
  {
    match solve(JacobianOf(y, |v|), Mismatch(p, Injections(y, v)))
    case None => None
    case Some(d) => if |d| == |v| then Some(Corrected(v, d)) else None
  }

  // ---------------------------------------------------------------------
  // The iteration loop, for any convergence test and update
  // ---------------------------------------------------------------------

  /** What one pass of the loop does with the voltages: test them, and failing the test, update them (None where the update fails). */
  type Test = seq<real> -> bool
  type Update = seq<real> -> Option<seq<real>>

  /** The voltages after `k` updates from `v0`, or None when an update fails on the way. */
  function Iterate(update: Update, v0: seq<real>, k: nat): Option<seq<real>>
  {
    if k == 0 then Some(v0)
    else
      match Iterate(update, v0, k - 1)
      case None => None
      case Some(prev) => update(prev)
  }

  /** The first `count` iterates all exist and all fail the test. */
  predicate FailedBefore(test: Test, update: Update, v0: seq<real>, count: nat)
  {
    count == 0 ||
    (FailedBefore(test, update, v0, count - 1) &&
     Iterate(update, v0, count - 1).Some? &&
     !test(Iterate(update, v0, count - 1).value))
  }

  /** What `FailedBefore` promises about each earlier iterate. */
  lemma {:induction false} FailedBeforeEach(test: Test, update: Update, v0: seq<real>, count: nat, k: nat)
    requires FailedBefore(test, update, v0, count) && k < count
    ensures Iterate(update, v0, k).Some? && !test(Iterate(update, v0, k).value)
  {
    if k < count - 1 {
      FailedBeforeEach(test, update, v0, count - 1, k);
    }
  }

  /** How a power flow run ended; `SolverFailed` stands for the exception the solver raises. */
  datatype FlowStatus = Converged(iterations: nat) | NotConverged | SolverFailed(iteration: nat)

  /**
   * How a run from `v0` may end with voltages `v`: every test it made
   * before the last failed, and it stopped at an iterate that passed the
   * test within the budget, after the whole budget, or where the update
   * failed (keeping the voltages it had).
   */
  predicate FlowOutcome(test: Test, update: Update, v0: seq<real>, maxIterations: int,
                        v: seq<real>, status: FlowStatus)
  {
    (status.Converged? ==>
       status.iterations < maxIterations &&
       FailedBefore(test, update, v0, status.iterations) &&
       Iterate(update, v0, status.iterations) == Some(v) && test(v)) &&
    (status.NotConverged? ==>
       var budget: nat := if maxIterations < 0 then 0 else maxIterations;
       FailedBefore(test, update, v0, budget) && Iterate(update, v0, budget) == Some(v)) &&
    (status.SolverFailed? ==>
       status.iteration < maxIterations &&
       FailedBefore(test, update, v0, status.iteration + 1) &&
       Iterate(update, v0, status.iteration) == Some(v) &&
       Iterate(update, v0, status.iteration + 1) == None)
  }

  /** Where a run stands after some passes of the loop: still iterating, or stopped with a status. */
  datatype RunState = Running(v: seq<real>) | Stopped(v: seq<real>, status: FlowStatus)

  /** The loop after `k` passes from `v0`: each pass tests first, then updates. */
  function Run(test: Test, update: Update, v0: seq<real>, k: nat): RunState
  {
    if k == 0 then Running(v0)
    else
      match Run(test, update, v0, k - 1)
      case Stopped(_, _) => Run(test, update, v0, k - 1)
      case Running(v) =>
        if test(v) then Stopped(v, Converged(k - 1))
        else
          match update(v)
          case None => Stopped(v, SolverFailed(k - 1))
          case Some(w) => Running(w)
  }

  /** The voltages and status the loop ends with: a run still going after the whole budget has not converged. */
  function Final(test: Test, update: Update, v0: seq<real>, maxIterations: int): (seq<real>, FlowStatus)
  {
    var budget: nat := if maxIterations < 0 then 0 else maxIterations;
    match Run(test, update, v0, budget)
    case Running(v) => (v, NotConverged)
    case Stopped(v, status) => (v, status)
  }

  /** A stopped run stays stopped where it is. */
  lemma {:induction false} StoppedStays(test: Test, update: Update, v0: seq<real>, k: nat, m: nat)
    requires Run(test, update, v0, k).Stopped? && k <= m
    ensures Run(test, update, v0, m) == Run(test, update, v0, k)
  {
    if k < m {
      StoppedStays(test, update, v0, k, m - 1);
    }
  }

  /** A run that is still going after the whole budget ends as not converged. */
  lemma FinalAfterBudget(test: Test, update: Update, v0: seq<real>, maxIterations: int, k: nat, v: seq<real>)
    requires k == (if maxIterations < 0 then 0 else maxIterations)
    requires Run(test, update, v0, k) == Running(v)
    ensures Final(test, update, v0, maxIterations) == (v, NotConverged)
  {
  }

  /** A run that stopped within the budget ends where it stopped. */
  lemma FinalWhenStopped(test: Test, update: Update, v0: seq<real>, maxIterations: int, k: nat)
    requires k <= maxIterations && Run(test, update, v0, k).Stopped?
    ensures Final(test, update, v0, maxIterations) ==
              (Run(test, update, v0, k).v, Run(test, update, v0, k).status)
  {
    StoppedStays(test, update, v0, k, maxIterations);
  }

  /** What a run after `k` passes has established about the iterates. */
  lemma {:induction false} RunMeaning(test: Test, update: Update, v0: seq<real>, k: nat)
    ensures match Run(test, update, v0, k)
      case Running(v) =>
        FailedBefore(test, update, v0, k) && Iterate(update, v0, k) == Some(v)
      case Stopped(v, status) =>
        (status.Converged? && status.iterations < k &&
         FailedBefore(test, update, v0, status.iterations) &&
         Iterate(update, v0, status.iterations) == Some(v) && test(v)) ||
        (status.SolverFailed? && status.iteration < k &&
         FailedBefore(test, update, v0, status.iteration + 1) &&
         Iterate(update, v0, status.iteration) == Some(v) &&
         Iterate(update, v0, status.iteration + 1) == None)
  {
    if k > 0 {
      RunMeaning(test, update, v0, k - 1);
    }
  }

  /** Conversely, iterates that all failed the test are where a run still goes. */
  lemma {:induction false} RunReaches(test: Test, update: Update, v0: seq<real>, k: nat, v: seq<real>)
    requires FailedBefore(test, update, v0, k) && Iterate(update, v0, k) == Some(v)
    ensures Run(test, update, v0, k) == Running(v)
  {
    if k > 0 {
      var u := Iterate(update, v0, k - 1).value;
      RunReaches(test, update, v0, k - 1, u);
    }
  }

  /**
   * `FlowOutcome` describes exactly the result of the loop: the loop's
   * result is an outcome it allows, and it allows no other.
   */
  lemma FinalIsTheOutcome(test: Test, update: Update, v0: seq<real>, maxIterations: int,
                          v: seq<real>, status: FlowStatus)
    ensures FlowOutcome(test, update, v0, maxIterations, v, status) <==>
              (v, status) == Final(test, update, v0, maxIterations)
  {
    var budget: nat := if maxIterations < 0 then 0 else maxIterations;
    RunMeaning(test, update, v0, budget);
    if FlowOutcome(test, update, v0, maxIterations, v, status) {
      match status
      case Converged(j) =>
        RunReaches(test, update, v0, j, v);
        StoppedStays(test, update, v0, j + 1, budget);
      case NotConverged =>
        RunReaches(test, update, v0, budget, v);
      case SolverFailed(j) =>
        RunReaches(test, update, v0, j, v);
        StoppedStays(test, update, v0, j + 1, budget);
    }
  }

  // ---------------------------------------------------------------------
  // calculate_dc_power_flow
  // ---------------------------------------------------------------------

  /** `np.max(np.abs(mismatch)) < tolerance`, as a test on any voltage vector of the right size. */
  function ConvergenceTest(y: Matrix, p: seq<real>, tolerance: real): Test
  {
    v => |v| > 0 && Square(y, |v|) && |p| == |v| && WithinTolerance(y, p, v, tolerance)
  }

  /** The Newton update, as an update on any voltage vector of the right size. */
  function NewtonUpdate(y: Matrix, p: seq<real>, solve: Solver): Update
  {
    v => if Square(y, |v|) && |p| == |v| then NewtonStep(y, p, v, solve) else None
  }

  /** The voltages and status `calculate_dc_power_flow` ends with. */
  function DcPowerFlow(y: Matrix, p: seq<real>, v0: seq<real>, solve: Solver, tolerance: real,
                       maxIterations: int): (seq<real>, FlowStatus)
  {
    Final(ConvergenceTest(y, p, tolerance), NewtonUpdate(y, p, solve), v0, maxIterations)
  }

  /** A converged run ends within the tolerance on every bus, within the budget. */
  lemma ConvergedWithinTolerance(y: Matrix, p: seq<real>, v0: seq<real>, solve: Solver, tolerance: real,
                                 maxIterations: int)
    requires |v0| > 0 && Square(y, |v0|) && |p| == |v0|
    requires DcPowerFlow(y, p, v0, solve, tolerance, maxIterations).1.Converged?
    ensures var (v, status) := DcPowerFlow(y, p, v0, solve, tolerance, maxIterations);
            status.iterations < maxIterations && |v| == |v0| &&
            forall i :: 0 <= i < |v| ==> Abs(p[i] - Injections(y, v)[i]) < tolerance
  {
    var (v, status) := DcPowerFlow(y, p, v0, solve, tolerance, maxIterations);
    FinalIsTheOutcome(ConvergenceTest(y, p, tolerance), NewtonUpdate(y, p, solve), v0, maxIterations, v, status);
    ConvergedMeansEveryBus(y, p, v, tolerance);
  }

  /** `V += delta_V`, in place. */
  method ApplyCorrection(v: array<real>, d: seq<real>)
    requires |d| == v.Length
    modifies v
    ensures v[..] == Corrected(old(v[..]), d)
  {
    forall k | 0 <= k < v.Length {
      v[k] := v[k] + d[k];
    }
  }

  /**
   * One pass of the loop of `calculate_dc_power_flow`: the convergence test
   * on the current voltages and, failing it, the solver's correction
   * applied in place; `k` is the pass's iteration number.
   */
  method NewtonIteration(y: Matrix, p: seq<real>, v: array<real>, tolerance: real, solve: Solver,
                         ghost test: Test, ghost update: Update, ghost v0: seq<real>, k: nat)
    returns (outcome: Option<FlowStatus>)
    requires v.Length > 0 && Square(y, v.Length) && |p| == v.Length
    requires test == ConvergenceTest(y, p, tolerance) && update == NewtonUpdate(y, p, solve)
    requires Run(test, update, v0, k) == Running(v[..])
    modifies v
    ensures outcome.None? ==> Run(test, update, v0, k + 1) == Running(v[..])
    ensures outcome.Some? ==> Run(test, update, v0, k + 1) == Stopped(v[..], outcome.value)
  {
    var n := v.Length;
    var pCalc := CalculateInjections(y, v);
    var mismatch := Mismatch(p, pCalc[..]);
    assert test(v[..]) == (MaxAbs(mismatch) < tolerance);
    if MaxAbs(mismatch) < tolerance {
      return Some(Converged(k));
    }
    var correction := solve(JacobianOf(y, n), mismatch);
    assert update(v[..]) == NewtonStep(y, p, v[..], solve);
    if correction.None? || |correction.value| != n {
      return Some(SolverFailed(k));
    }
    ApplyCorrection(v, correction.value);
    return None;
  }

  /** `V = voltages.copy()` */
  method CopyVoltages(voltages: array<real>) returns (v: array<real>)
    ensures fresh(v) && v[..] == voltages[..]
  {
    v := new real[voltages.Length];
    forall k | 0 <= k < voltages.Length {
      v[k] := voltages[k];
    }
  }

  /**
   * `calculate_dc_power_flow`: iterates on a copy of the voltages, at most
   * `maxIterations` times, and ends exactly as `FlowOutcome` describes; the
   * caller's voltages are left as they were.
   */
  method CalculateDcPowerFlow(voltages: array<real>, y: Matrix, p: seq<real>,
                              maxIterations: int, tolerance: real, solve: Solver)
    returns (v: array<real>, status: FlowStatus)
    requires voltages.Length > 0
    requires Square(y, voltages.Length) && |p| == voltages.Length
    ensures fresh(v) && v.Length == voltages.Length
    ensures voltages[..] == old(voltages[..])
    ensures (v[..], status) == DcPowerFlow(y, p, voltages[..], solve, tolerance, maxIterations)
    ensures FlowOutcome(ConvergenceTest(y, p, tolerance), NewtonUpdate(y, p, solve), voltages[..],
                        maxIterations, v[..], status)
  {
    v := CopyVoltages(voltages);
    status := NewtonLoop(y, p, v, maxIterations, tolerance, solve,
                         ConvergenceTest(y, p, tolerance), NewtonUpdate(y, p, solve));
    FinalIsTheOutcome(ConvergenceTest(y, p, tolerance), NewtonUpdate(y, p, solve), voltages[..],
                      maxIterations, v[..], status);
  }

  /** The `for iteration in range(max_iterations)` loop, on the working copy `v`. */
  method NewtonLoop(y: Matrix, p: seq<real>, v: array<real>, maxIterations: int, tolerance: real, solve: Solver,
                    ghost test: Test, ghost update: Update)
    returns (status: FlowStatus)
    requires v.Length > 0 && Square(y, v.Length) && |p| == v.Length
    requires test == ConvergenceTest(y, p, tolerance) && update == NewtonUpdate(y, p, solve)
    modifies v
    ensures (v[..], status) == Final(test, update, old(v[..]), maxIterations)
  {
    ghost var v0 := v[..];
    ghost var budget: nat := if maxIterations < 0 then 0 else maxIterations;
    var iteration: nat := 0;
    while iteration < maxIterations
      invariant iteration <= budget
      invariant Run(test, update, v0, iteration) == Running(v[..])
      decreases maxIterations - iteration
    {
      var outcome := NewtonIteration(y, p, v, tolerance, solve, test, update, v0, iteration);
      if outcome.Some? {
        FinalWhenStopped(test, update, v0, maxIterations, iteration + 1);
        return outcome.value;
      }
      iteration := iteration + 1;
    }
    FinalAfterBudget(test, update, v0, maxIterations, iteration, v[..]);
    status := NotConverged;
  }

  // ---------------------------------------------------------------------
  // Line losses
  // ---------------------------------------------------------------------

  /** The entry `line_losses["line_{from}_{to}"]`. */
  datatype LineLoss = LineLoss(from: nat, to: nat, loss: real)

  datatype LossReport = LossReport(totalLosses: real, lineLosses: seq<LineLoss>, lossPercentage: Option<real>)

  /** `Y[a][b] * (V[a] - V[b]) ** 2` */
  function LineLossOf(y: Matrix, v: seq<real>, a: nat, b: nat): real
    requires Square(y, |v|) && a < |v| && b < |v|
  {
    y[a][b] * ((v[a] - v[b]) * (v[a] - v[b]))
  }

  function Losses(lines: seq<LineLoss>): (l: seq<real>)
    ensures |l| == |lines|
    ensures forall k :: 0 <= k < |lines| ==> l[k] == lines[k].loss
  {
    seq(|lines|, k requires 0 <= k < |lines| => lines[k].loss)
  }

  /** Pair (a, b) comes before pair (c, d) in the loop's row-major order. */
  predicate Precedes(a: nat, b: nat, c: nat, d: nat)
  {
    a < c || (a == c && b < d)
  }

  predicate HasLine(lines: seq<LineLoss>, a: nat, b: nat)
  {
    exists k :: 0 <= k < |lines| && lines[k].from == a && lines[k].to == b
  }

  /** Every entry is a real line i < j with its loss. */
  predicate ValidEntries(lines: seq<LineLoss>, y: Matrix, v: seq<real>)
    requires Square(y, |v|)
  {
    forall k :: 0 <= k < |lines| ==>
      lines[k].from < lines[k].to < |v| && y[lines[k].from][lines[k].to] != 0.0 &&
      lines[k].loss == LineLossOf(y, v, lines[k].from, lines[k].to)
  }

  /** Entries appear in strictly increasing pair order, hence each pair once. */
  predicate Ordered(lines: seq<LineLoss>)
  {
    forall k1, k2 :: 0 <= k1 < k2 < |lines| ==>
      Precedes(lines[k1].from, lines[k1].to, lines[k2].from, lines[k2].to)
  }

  /** Every entry comes before the pair (i, j). */
  predicate AllBefore(lines: seq<LineLoss>, i: nat, j: nat)
  {
    forall k :: 0 <= k < |lines| ==> Precedes(lines[k].from, lines[k].to, i, j)
  }

  /** Every line before the pair (i, j) is recorded. */
  predicate Covers(lines: seq<LineLoss>, y: Matrix, n: nat, i: nat, j: nat)
    requires Square(y, n)
  {
    forall a, b :: 0 <= a < b < n && Precedes(a, b, i, j) && y[a][b] != 0.0 ==> HasLine(lines, a, b)
  }

  lemma RecordLine(lines: seq<LineLoss>, y: Matrix, v: seq<real>, i: nat, j: nat, loss: real)
    requires Square(y, |v|) && i < j < |v| && y[i][j] != 0.0 && loss == LineLossOf(y, v, i, j)
    requires ValidEntries(lines, y, v) && Ordered(lines)
    requires AllBefore(lines, i, j) && Covers(lines, y, |v|, i, j)
    ensures var lines' := lines + [LineLoss(i, j, loss)];
      ValidEntries(lines', y, v) && Ordered(lines') &&
      AllBefore(lines', i, j + 1) && Covers(lines', y, |v|, i, j + 1) &&
      Sum(Losses(lines')) == Sum(Losses(lines)) + loss
  {
    var lines' := lines + [LineLoss(i, j, loss)];
    assert Losses(lines') == Losses(lines) + [loss];
    SumAppend(Losses(lines), loss);
    assert lines'[|lines|].from == i && lines'[|lines|].to == j;
    forall a, b | 0 <= a < b < |v| && Precedes(a, b, i, j + 1) && y[a][b] != 0.0
      ensures HasLine(lines', a, b)
    {
      if Precedes(a, b, i, j) {
        var k :| 0 <= k < |lines| && lines[k].from == a && lines[k].to == b;
        assert lines'[k] == lines[k];
      }
    }
  }

  lemma SkipLine(lines: seq<LineLoss>, y: Matrix, n: nat, i: nat, j: nat)
    requires Square(y, n) && i < j < n && y[i][j] == 0.0
    requires AllBefore(lines, i, j) && Covers(lines, y, n, i, j)
    ensures AllBefore(lines, i, j + 1) && Covers(lines, y, n, i, j + 1)
  {
  }

  lemma NextRow(lines: seq<LineLoss>, y: Matrix, n: nat, i: nat)
    requires Square(y, n) && i < n
    requires AllBefore(lines, i, n) && Covers(lines, y, n, i, n)
    ensures AllBefore(lines, i + 1, i + 2) && Covers(lines, y, n, i + 1, i + 2)
  {
  }

  /** The losses as a percentage of the sum of squared voltages; absent when that sum is 0. */
  function LossPercentage(totalLosses: real, voltages: seq<real>): (pct: Option<real>)
    ensures pct.None? <==> SumSquares(voltages) == 0.0
    ensures pct.Some? ==> pct.value * SumSquares(voltages) == totalLosses * 100.0
  {
    var squares := SumSquares(voltages);
    if squares == 0.0 then None else Some(totalLosses / squares * 100.0)
  }

  /** The inner loop of `calculate_line_losses`: records the lines (i, j) for j > i. */
  method RowLosses(voltages: seq<real>, y: Matrix, i: nat, lines: seq<LineLoss>, total: real)
    returns (lines': seq<LineLoss>, total': real)
    requires Square(y, |voltages|) && i < |voltages|
    requires ValidEntries(lines, y, voltages) && Ordered(lines)
    requires AllBefore(lines, i, i + 1) && Covers(lines, y, |voltages|, i, i + 1)
    requires total == Sum(Losses(lines))
    ensures ValidEntries(lines', y, voltages) && Ordered(lines')
    ensures AllBefore(lines', i, |voltages|) && Covers(lines', y, |voltages|, i, |voltages|)
    ensures total' == Sum(Losses(lines'))
  {
    var n := |voltages|;
    lines', total' := lines, total;
    for j := i + 1 to n
      invariant ValidEntries(lines', y, voltages) && Ordered(lines')
      invariant AllBefore(lines', i, j) && Covers(lines', y, n, i, j)
      invariant total' == Sum(Losses(lines'))
    {
      if y[i][j] != 0.0 {
        var loss := LineLossOf(y, voltages, i, j);
        RecordLine(lines', y, voltages, i, j, loss);
        total' := total' + loss;
        lines' := lines' + [LineLoss(i, j, loss)];
      } else {
        SkipLine(lines', y, n, i, j);
      }
    }
  }

  /**
   * `calculate_line_losses`: one entry per pair i < j with a nonzero
   * admittance, in loop order (so no pair twice); the total is the sum of
   * the entries, and the percentage is relative to the sum of squared
   * voltages, absent when that sum is 0.
   */
  method CalculateLineLosses(voltages: seq<real>, y: Matrix) returns (r: LossReport)
    requires Square(y, |voltages|)
    ensures ValidEntries(r.lineLosses, y, voltages)
    ensures forall a, b :: 0 <= a < b < |voltages| && y[a][b] != 0.0 ==> HasLine(r.lineLosses, a, b)
    ensures Ordered(r.lineLosses)
    ensures r.totalLosses == Sum(Losses(r.lineLosses))
    ensures r.lossPercentage == LossPercentage(r.totalLosses, voltages)
  {
    var n := |voltages|;
    var total := 0.0;
    var lines: seq<LineLoss> := [];
    for i := 0 to n
      invariant ValidEntries(lines, y, voltages) && Ordered(lines)
      invariant AllBefore(lines, i, i + 1) && Covers(lines, y, n, i, i + 1)
      invariant total == Sum(Losses(lines))
    {
      lines, total := RowLosses(voltages, y, i, lines, total);
      NextRow(lines, y, n, i);
    }
    r := LossReport(total, lines, LossPercentage(total, voltages));
  }

  // ---------------------------------------------------------------------
  // Voltage stability
  // ---------------------------------------------------------------------

  datatype StabilityReport = StabilityReport(
    voltagePu: seq<real>, maxDeviation: real, stabilityMargin: real, stable: bool)

  /** `voltages / voltage_base` */
  function PerUnit(voltages: seq<real>, voltageBase: real): (pu: seq<real>)
    requires voltageBase > 0.0
    ensures |pu| == |voltages|
    ensures forall i :: 0 <= i < |voltages| ==> pu[i] * voltageBase == voltages[i]
  {
    seq(|voltages|, i requires 0 <= i < |voltages| => voltages[i] / voltageBase)
  }

  /** `max(abs(voltage_pu - 1.0))` */
  function MaxDeviation(pu: seq<real>): (m: real)
    requires |pu| > 0
    ensures forall i :: 0 <= i < |pu| ==> Abs(pu[i] - 1.0) <= m
    ensures exists i :: 0 <= i < |pu| && Abs(pu[i] - 1.0) == m
  {
    var d := seq(|pu|, i requires 0 <= i < |pu| => pu[i] - 1.0);
    assert forall i :: 0 <= i < |pu| ==> d[i] == pu[i] - 1.0;
    MaxAbs(d)
  }

  /**
   * `analyze_voltage_stability` without the sensitivity gradient: the
   * per-unit voltages, their largest deviation from 1, the margin
   * `1 - deviation`, and stability when the margin exceeds 10%.
   */
  function AnalyzeVoltageStability(voltages: seq<real>, voltageBase: real): (r: StabilityReport)
    requires |voltages| > 0 && voltageBase > 0.0
    ensures |r.voltagePu| == |voltages|
    ensures r.voltagePu == PerUnit(voltages, voltageBase)
    ensures forall i :: 0 <= i < |voltages| ==> Abs(r.voltagePu[i] - 1.0) <= r.maxDeviation
    ensures exists i :: 0 <= i < |voltages| && Abs(r.voltagePu[i] - 1.0) == r.maxDeviation
    ensures r.stabilityMargin == 1.0 - r.maxDeviation
    ensures r.stable <==> r.stabilityMargin > StabilityThreshold
  {
    var pu := PerUnit(voltages, voltageBase);
    var maxDeviation := MaxDeviation(pu);
    var margin := 1.0 - maxDeviation;
    StabilityReport(pu, maxDeviation, margin, margin > StabilityThreshold)
  }

  /** Stable exactly when every bus voltage lies strictly between 10% and 190% of the base. */
  lemma StableIffWithinBand(voltages: seq<real>, voltageBase: real)
    requires |voltages| > 0 && voltageBase > 0.0
    ensures AnalyzeVoltageStability(voltages, voltageBase).stable <==>
              forall i :: 0 <= i < |voltages| ==>
                0.1 * voltageBase < voltages[i] < 1.9 * voltageBase
  {
    var r := AnalyzeVoltageStability(voltages, voltageBase);
    forall i | 0 <= i < |voltages|
      ensures Abs(r.voltagePu[i] - 1.0) < 0.9 <==> 0.1 * voltageBase < voltages[i] < 1.9 * voltageBase
    {
      BusInBand(voltages, voltageBase, i);
    }
    if !r.stable {
      var k :| 0 <= k < |voltages| && Abs(r.voltagePu[k] - 1.0) == r.maxDeviation;
      assert !(0.1 * voltageBase < voltages[k] < 1.9 * voltageBase);
    }
  }

  /** One bus deviates by less than 0.9 per unit exactly when its voltage lies in the band. */
  lemma BusInBand(voltages: seq<real>, voltageBase: real, i: nat)
    requires i < |voltages| && voltageBase > 0.0
    ensures Abs(PerUnit(voltages, voltageBase)[i] - 1.0) < 0.9 <==>
              0.1 * voltageBase < voltages[i] < 1.9 * voltageBase
  {
    ScaledBand(PerUnit(voltages, voltageBase)[i], voltageBase, voltages[i]);
  }

  lemma ScaledBand(pu: real, base: real, v: real)
    requires base > 0.0 && pu * base == v
    ensures 0.1 < pu < 1.9 <==> 0.1 * base < v < 1.9 * base
  {
    var lo := pu - 0.1;
    var hi := 1.9 - pu;
    assert lo * base == pu * base - 0.1 * base;
    assert hi * base == 1.9 * base - pu * base;
    PositiveScaled(lo, base);
    PositiveScaled(hi, base);
  }

  lemma PositiveScaled(d: real, base: real)
    requires base > 0.0
    ensures d > 0.0 <==> d * base > 0.0
  {
    if d <= 0.0 {
      assert (-d) * base >= 0.0;
    }
  }
}
