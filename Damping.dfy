/** The averaging step of the refresh-rate estimator: the analysis buffer of
    instantaneous rates (Hz) is folded from 0, each step adding the running total
    capped at 300 to the next rate capped at 300, and divided by its length. The
    fold clamps the running total as well as each sample; the per-sample clamped
    mean that the fold's own comment describes is defined beside it. */
module Damping {

  /** The cap on a single sample's contribution, in Hz. */
  const Cap: real := 300.0

  /** `Math.min` on two rates. */
  function Min(a: real, b: real): (m: real)
    ensures m <= a && m <= b && (m == a || m == b)
  {
    if a <= b then a else b
  }

  /** One step of the reducer: both the running total and the sample are clamped. */
  function Step(acc: real, sample: real): real
  {
    Min(Cap, acc) + Min(Cap, sample)
  }

  /** The reduce as written, starting from 0; defined by its last step, which is
      how a left fold over a growing buffer unrolls. */
  function Reduce(s: seq<real>): real
  {
    if s == [] then 0.0 else Step(Reduce(s[..|s| - 1]), s[|s| - 1])
  }

  predicate NonNegative(s: seq<real>) { forall i :: 0 <= i < |s| ==> 0.0 <= s[i] }

  /** The reported rate: 0 for an empty buffer, otherwise the fold over the
      buffer's length. */
  function Average(s: seq<real>): (r: real)
    ensures s == [] ==> r == 0.0
  {
    if |s| == 0 then 0.0 else Reduce(s) / (|s| as real)
  }

  /** For non-negative samples the folded total never leaves [0, 600]. */
  lemma {:induction false} ReduceBounds(s: seq<real>)
    requires NonNegative(s)
    ensures 0.0 <= Reduce(s) <= 2.0 * Cap
  {
    if s != [] {
      ReduceBounds(s[..|s| - 1]);
    }
  }

  /** Hence the reported average is non-negative and at most 600 / n. */
  lemma AverageBounds(s: seq<real>)
    requires NonNegative(s)
    ensures 0.0 <= Average(s)
    ensures s != [] ==> Average(s) <= 2.0 * Cap / (|s| as real)
    ensures Average(s) <= 2.0 * Cap
  {
    ReduceBounds(s);
    if s != [] {
      QuotientBounds(Reduce(s), 2.0 * Cap, |s| as real);
    }
  }

  lemma QuotientBounds(x: real, bound: real, n: real)
    requires 0.0 <= x <= bound && 1.0 <= n
    ensures 0.0 <= x / n <= bound / n <= bound
  {
    assert x / n * n == x && bound / n * n == bound;
  }

  /** Once the running total of a prefix reaches the cap, the fold forgets every
      later sample but the last: the result is 300 plus the last sample, clamped. */
  lemma {:induction false} ReduceSaturated(s: seq<real>, k: nat)
    requires NonNegative(s)
    requires k < |s| && Cap <= Reduce(s[..k])
    ensures Reduce(s) == Cap + Min(Cap, s[|s| - 1])
    decreases |s|
  {
    var p := s[..|s| - 1];
    if k < |p| {
      assert p[..k] == s[..k];
      ReduceSaturated(p, k);
    } else {
      assert p == s[..k];
    }
  }

  /** The clamped sum the fold's comment describes: each sample contributes at
      most 300. */
  function ClampedSum(s: seq<real>): real
  {
    if s == [] then 0.0 else ClampedSum(s[..|s| - 1]) + Min(Cap, s[|s| - 1])
  }

  /** The damped mean: each sample clamped to 300, summed, divided by the count. */
  function ClampedMean(s: seq<real>): (r: real)
    ensures s == [] ==> r == 0.0
    ensures s != [] ==> r * (|s| as real) == ClampedSum(s)
  {
    if |s| == 0 then 0.0 else ClampedSum(s) / (|s| as real)
  }

  lemma {:induction false} ClampedSumBounds(s: seq<real>)
    requires NonNegative(s)
    ensures 0.0 <= ClampedSum(s) <= Cap * (|s| as real)
  {
    if s != [] {
      ClampedSumBounds(s[..|s| - 1]);
    }
  }

  /** The damped mean of non-negative samples lies in [0, 300]. */
  lemma ClampedMeanBounds(s: seq<real>)
    requires NonNegative(s)
    ensures 0.0 <= ClampedMean(s) <= Cap
  {
    ClampedSumBounds(s);
  }

  /** A buffer of `n` equal samples. */
  function Steady(n: nat, rate: real): (s: seq<real>)
    ensures |s| == n && forall i :: 0 <= i < n ==> s[i] == rate
  {
    seq(n, _ => rate)
  }

  lemma {:induction false} ClampedSumOfSteady(n: nat, rate: real)
    requires 0.0 <= rate <= Cap
    ensures ClampedSum(Steady(n, rate)) == (n as real) * rate
  {
    if n > 0 {
      assert Steady(n, rate)[..n - 1] == Steady(n - 1, rate);
      ClampedSumOfSteady(n - 1, rate);
    }
  }

  /** At a steady rate within the cap the damped mean is that rate. */
  lemma ClampedMeanOfSteadyRate(n: nat, rate: real)
    requires 0 < n && 0.0 <= rate <= Cap
    ensures ClampedMean(Steady(n, rate)) == rate
  {
    ClampedSumOfSteady(n, rate);
  }

  /** While the clamped sum stays within the cap, the fold as written and the
      clamped sum agree, and so do the two averages. */
  lemma {:induction false} ReduceBelowCap(s: seq<real>)
    requires NonNegative(s) && ClampedSum(s) <= Cap
    ensures Reduce(s) == ClampedSum(s)
    ensures Average(s) == ClampedMean(s)
  {
    if s != [] {
      var p := s[..|s| - 1];
      ClampedSumBounds(p);
      ReduceBelowCap(p);
    }
  }

  /** A steady 120 Hz quick session (42 frames in 350 ms) is reported as 10 Hz by
      the fold as written; the damped mean reports 120 Hz. */
  lemma SteadyRateUnderreported()
    ensures Average(Steady(42, 120.0)) == 10.0
    ensures ClampedMean(Steady(42, 120.0)) == 120.0
  {
    var s := Steady(42, 120.0);
    var p := s[..3];
    assert p == [120.0, 120.0, 120.0];
    assert p[..2] == [120.0, 120.0] && p[..2][..1] == [120.0] && [120.0][..0] == [];
    assert Reduce([120.0]) == 120.0;
    assert Reduce([120.0, 120.0]) == 240.0;
    assert Reduce(p) == 360.0;
    ReduceSaturated(s, 3);
    ClampedMeanOfSteadyRate(42, 120.0);
  }

  /** Three 60 Hz frames average to 60 Hz; a single 1000 Hz outlier among them is
      held to 120 Hz, below their arithmetic mean. */
  lemma OutlierDamped()
    ensures Average([60.0, 60.0, 60.0]) == 60.0
    ensures Average([1000.0, 60.0, 60.0]) == 120.0 < (1000.0 + 60.0 + 60.0) / 3.0
  {
    var a := [60.0, 60.0, 60.0];
    assert a[..2] == [60.0, 60.0] && a[..2][..1] == [60.0] && [60.0][..0] == [];
    assert Reduce([60.0]) == 60.0;
    assert Reduce([60.0, 60.0]) == 120.0;
    assert Reduce(a) == 180.0;
    var b := [1000.0, 60.0, 60.0];
    assert b[..2] == [1000.0, 60.0] && b[..2][..1] == [1000.0] && [1000.0][..0] == [];
    assert Reduce([1000.0]) == 300.0;
    assert Reduce([1000.0, 60.0]) == 360.0;
    assert Reduce(b) == 360.0;
  }
}
