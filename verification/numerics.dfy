/**
 * Arithmetic over real-valued series: the numpy reductions (sum, min, max,
 * argmax) that the microgrid code applies to its time series and vectors.
 */
module Numerics {

  function Abs(x: real): (r: real)
    ensures r >= 0.0 && (r == x || r == -x)
  {
    if x < 0.0 then -x else x
  }

  function Min(a: real, b: real): (r: real)
    ensures r <= a && r <= b && (r == a || r == b)
  {
    if a <= b then a else b
  }

  function Max(a: real, b: real): (r: real)
    ensures r >= a && r >= b && (r == a || r == b)
  {
    if a >= b then a else b
  }

  lemma MulNonNegative(x: real, y: real)
    requires x >= 0.0 && y >= 0.0
    ensures x * y >= 0.0
  {
  }

  /** A positive factor cancels from an equation. */
  lemma CancelEqual(x: real, y: real, k: real)
    requires k > 0.0 && x * k == y * k
    ensures x == y
  {
    assert x == (x * k) / k;
    assert y == (y * k) / k;
  }

  /** A positive factor cancels from a strict inequality. */
  lemma CancelFactor(x: real, y: real, k: real)
    requires k > 0.0 && x * k < y * k
    ensures x < y
  {
    var d := (y - x) * k;
    assert d == y * k - x * k;
    assert y - x == d / k;
  }

  /** `dict.get(key, default)` on a configuration dictionary. */
  function Lookup(config: map<string, real>, key: string, default: real): (r: real)
    ensures key !in config ==> r == default
    ensures key in config ==> r == config[key]
  {
    if key in config then config[key] else default
  }

  /** `sum(s)`, accumulated from the left. */
  function Sum(s: seq<real>): real
  {
    if s == [] then 0.0 else Sum(s[..|s| - 1]) + s[|s| - 1]
  }

  lemma {:induction false} SumAppend(s: seq<real>, x: real)
    ensures Sum(s + [x]) == Sum(s) + x
  {
    assert (s + [x])[..|s + [x]| - 1] == s;
  }

  lemma {:induction false} SumConcat(s: seq<real>, t: seq<real>)
    ensures Sum(s + t) == Sum(s) + Sum(t)
    decreases |t|
  {
    if t == [] {
      assert s + t == s;
    } else {
      var t' := t[..|t| - 1];
      assert s + t == (s + t') + [t[|t| - 1]];
      assert t == t' + [t[|t| - 1]];
      SumAppend(s + t', t[|t| - 1]);
      SumAppend(t', t[|t| - 1]);
      SumConcat(s, t');
    }
  }

  /** `sum(x ** 2 for x in s)` */
  function SumSquares(s: seq<real>): (t: real)
    ensures t >= 0.0
  {
    if s == [] then 0.0 else SumSquares(s[..|s| - 1]) + s[|s| - 1] * s[|s| - 1]
  }

  /** A sum of non-negative terms is non-negative. */
  lemma {:induction false} SumNonNegative(s: seq<real>)
    requires forall i :: 0 <= i < |s| ==> s[i] >= 0.0
    ensures Sum(s) >= 0.0
  {
    if s != [] {
      SumNonNegative(s[..|s| - 1]);
    }
  }

  /** `np.min(s)`: the least element of a non-empty series. */
  function MinOf(s: seq<real>): (m: real)
    requires |s| > 0
    ensures m in s
    ensures forall i :: 0 <= i < |s| ==> m <= s[i]
  {
    if |s| == 1 then s[0] else Min(MinOf(s[..|s| - 1]), s[|s| - 1])
  }

  /** `np.max(s)`: the greatest element of a non-empty series. */
  function MaxOf(s: seq<real>): (m: real)
    requires |s| > 0
    ensures m in s
    ensures forall i :: 0 <= i < |s| ==> s[i] <= m
  {
    if |s| == 1 then s[0] else Max(MaxOf(s[..|s| - 1]), s[|s| - 1])
  }

  /**
   * `np.argmax(s)`: the FIRST index at which the maximum is reached.
   */
  function ArgMax(s: seq<real>): (k: nat)
    requires |s| > 0
    ensures k < |s|
    ensures forall j :: 0 <= j < |s| ==> s[j] <= s[k]
    ensures forall j :: 0 <= j < k ==> s[j] < s[k]
  {
    if |s| == 1 then 0
    else
      var k := ArgMax(s[..|s| - 1]);
      if s[|s| - 1] > s[k] then |s| - 1 else k
  }

  /** The maximum element magnitude, `np.max(np.abs(s))`. */
  function MaxAbs(s: seq<real>): (m: real)
    requires |s| > 0
    ensures m >= 0.0
    ensures forall i :: 0 <= i < |s| ==> Abs(s[i]) <= m
    ensures exists i :: 0 <= i < |s| && Abs(s[i]) == m
  {
    if |s| == 1 then Abs(s[0]) else Max(MaxAbs(s[..|s| - 1]), Abs(s[|s| - 1]))
  }

  /** `s[s > 0].sum()`: the sum of the positive entries. */
  function SumPositive(s: seq<real>): real
  {
    if s == [] then 0.0
    else SumPositive(s[..|s| - 1]) + (if s[|s| - 1] > 0.0 then s[|s| - 1] else 0.0)
  }

  /** `(-s[s < 0]).sum()`: the total magnitude of the negative entries. */
  function SumNegative(s: seq<real>): real
  {
    if s == [] then 0.0
    else SumNegative(s[..|s| - 1]) + (if s[|s| - 1] < 0.0 then -s[|s| - 1] else 0.0)
  }

  lemma {:induction false} SumPositiveNonNegative(s: seq<real>)
    ensures SumPositive(s) >= 0.0
  {
    if s != [] {
      SumPositiveNonNegative(s[..|s| - 1]);
    }
  }

  lemma {:induction false} SumNegativeNonNegative(s: seq<real>)
    ensures SumNegative(s) >= 0.0
  {
    if s != [] {
      SumNegativeNonNegative(s[..|s| - 1]);
    }
  }

  /** Positive and negative parts recombine to the plain sum. */
  lemma {:induction false} SumSplitsBySign(s: seq<real>)
    ensures Sum(s) == SumPositive(s) - SumNegative(s)
  {
    if s != [] {
      SumSplitsBySign(s[..|s| - 1]);
    }
  }

  /** `num / den if den > 0 else 0`: the zero-guarded ratio used by every metric. */
  function GuardedRatio(num: real, den: real): (r: real)
    ensures den <= 0.0 ==> r == 0.0
    ensures den > 0.0 ==> r * den == num
  {
    if den > 0.0 then num / den else 0.0
  }

  /** `np.mean(s)`: the sum over the count. */
  function Mean(s: seq<real>): (m: real)
    requires |s| > 0
    ensures m * (|s| as real) == Sum(s)
  {
    Sum(s) / (|s| as real)
  }

  lemma {:induction false} SumWithin(s: seq<real>, lo: real, hi: real)
    requires forall i :: 0 <= i < |s| ==> lo <= s[i] <= hi
    ensures lo * (|s| as real) <= Sum(s) <= hi * (|s| as real)
  {
    if s != [] {
      SumWithin(s[..|s| - 1], lo, hi);
      assert (|s| as real) == (|s| - 1) as real + 1.0;
    }
  }

  /** The mean of values inside [lo, hi] lies inside [lo, hi]. */
  lemma MeanWithin(s: seq<real>, lo: real, hi: real)
    requires |s| > 0
    requires forall i :: 0 <= i < |s| ==> lo <= s[i] <= hi
    ensures lo <= Mean(s) <= hi
  {
    SumWithin(s, lo, hi);
  }
}
