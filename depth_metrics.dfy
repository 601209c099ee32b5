/**
 * The threshold-accuracy and absolute-relative-error part of
 * compute_depth_estimation_metrics in DenseDepth/utils.py.
 *
 * Both depth maps are flattened to one value per pixel, so a map is a
 * sequence of reals. The metrics are computed over exact reals, not over
 * 32-bit floats.
 */
module DepthMetrics {

  /** Every depth in the flattened map is strictly positive. */
  predicate Positive(s: seq<real>)
  {
    forall i :: 0 <= i < |s| ==> s[i] > 0.0
  }

  /** Two flattened maps the metrics can compare: same length, not empty, positive. */
  predicate Comparable(t: seq<real>, p: seq<real>)
  {
    |t| == |p| && |t| > 0 && Positive(t) && Positive(p)
  }

  /** The tolerance bands 1.25, 1.25 ** 2 and 1.25 ** 3 (all exact in binary). */
  const Threshold1: real := 1.25
  const Threshold2: real := Threshold1 * Threshold1
  const Threshold3: real := Threshold2 * Threshold1

  function Max(a: real, b: real): real
  {
    if a >= b then a else b
  }

  function Abs(x: real): (r: real)
    ensures r >= 0.0 && (r == 0.0 <==> x == 0.0)
  {
    if x < 0.0 then -x else x
  }

  /** x / y is at least 1 exactly when x is at least y, and is 1 exactly when they agree. */
  lemma QuotientVersusOne(x: real, y: real)
    requires x > 0.0 && y > 0.0
    ensures x / y >= 1.0 <==> x >= y
    ensures x / y == 1.0 <==> x == y
  {
    assert (x / y - 1.0) * y == x - y;
  }

  /** Dividing by the same positive n keeps the order of a and b. */
  lemma DivideMonotone(a: real, b: real, n: real)
    requires n > 0.0 && a <= b
    ensures a / n <= b / n
  {
    assert (b / n - a / n) * n == b - a;
  }

  /**
   * The symmetric ratio max(t / p, p / t) of one pixel: never below 1, and
   * exactly 1 when prediction and truth agree.
   */
  function ThresholdRatio(t: real, p: real): (r: real)
    requires t > 0.0 && p > 0.0
    ensures r >= 1.0
    ensures r == 1.0 <==> t == p
  {
    QuotientVersusOne(t, p);
    QuotientVersusOne(p, t);
    Max(t / p, p / t)
  }

  /**
   * A ratio is below a band b exactly when each of the two depths is less
   * than b times the other: the prediction lies strictly within a factor b
   * of the truth.
   */
  lemma WithinFactor(t: real, p: real, b: real)
    requires t > 0.0 && p > 0.0 && b > 0.0
    ensures ThresholdRatio(t, p) < b <==> p < b * t && t < b * p
  {
    assert t / p * p == t;
    assert p / t * t == p;
    assert t / p < b <==> t < b * p by {
      if t / p < b {
        assert t / p * p < b * p;
      } else {
        assert t / p * p >= b * p;
      }
    }
    assert p / t < b <==> p < b * t by {
      if p / t < b {
        assert p / t * t < b * t;
      } else {
        assert p / t * t >= b * t;
      }
    }
  }

  /** The ratio tensor: one ThresholdRatio per pixel. */
  function Ratios(t: seq<real>, p: seq<real>): (r: seq<real>)
    requires |t| == |p| && Positive(t) && Positive(p)
    ensures |r| == |t|
    ensures forall i :: 0 <= i < |r| ==> r[i] >= 1.0
  {
    seq(|t|, i requires 0 <= i < |t| => ThresholdRatio(t[i], p[i]))
  }

  /** How many entries of r lie strictly below the band b. */
  function CountBelow(r: seq<real>, b: real): (k: nat)
    ensures k <= |r|
  {
    if r == [] then 0
    else (if r[0] < b then 1 else 0) + CountBelow(r[1..], b)
  }

  /** A looser band never counts fewer entries. */
  lemma {:induction false} CountBelowMonotone(r: seq<real>, b1: real, b2: real)
    requires b1 <= b2
    ensures CountBelow(r, b1) <= CountBelow(r, b2)
  {
    if r != [] {
      CountBelowMonotone(r[1..], b1, b2);
    }
  }

  /** Every entry is counted exactly when every entry is below the band. */
  lemma {:induction false} CountBelowFull(r: seq<real>, b: real)
    ensures CountBelow(r, b) == |r| <==> forall i :: 0 <= i < |r| ==> r[i] < b
  {
    if r != [] {
      CountBelowFull(r[1..], b);
      if r[0] < b && forall i :: 0 <= i < |r| - 1 ==> r[1..][i] < b {
        forall i | 0 <= i < |r| ensures r[i] < b {
          if i > 0 {
            assert r[i] == r[1..][i - 1];
          }
        }
      }
    }
  }

  /** No entry is counted exactly when no entry is below the band. */
  lemma {:induction false} CountBelowEmpty(r: seq<real>, b: real)
    ensures CountBelow(r, b) == 0 <==> forall i :: 0 <= i < |r| ==> r[i] >= b
  {
    if r != [] {
      CountBelowEmpty(r[1..], b);
      if r[0] >= b && forall i :: 0 <= i < |r| - 1 ==> r[1..][i] >= b {
        forall i | 0 <= i < |r| ensures r[i] >= b {
          if i > 0 {
            assert r[i] == r[1..][i - 1];
          }
        }
      }
    }
  }

  /** k / n lies in [0, 1] when 0 <= k <= n and n > 0. */
  lemma FractionBounds(k: nat, n: nat)
    requires 0 < n && k <= n
    ensures 0.0 <= k as real / n as real <= 1.0
    ensures k as real / n as real == 1.0 <==> k == n
  {
    QuotientVersusOne(n as real, n as real);
    if k > 0 {
      QuotientVersusOne(k as real, n as real);
    }
  }

  /**
   * The fraction of pixels whose ratio lies strictly below the band b:
   * `(threshold_ratio < b).float().mean()`.
   */
  function ThresholdAccuracy(t: seq<real>, p: seq<real>, b: real): (a: real)
    requires Comparable(t, p)
    ensures 0.0 <= a <= 1.0
  {
    var k := CountBelow(Ratios(t, p), b);
    FractionBounds(k, |t|);
    k as real / |t| as real
  }

  /** A looser band never yields a lower accuracy. */
  lemma ThresholdAccuracyMonotone(t: seq<real>, p: seq<real>, b1: real, b2: real)
    requires Comparable(t, p) && b1 <= b2
    ensures ThresholdAccuracy(t, p, b1) <= ThresholdAccuracy(t, p, b2)
  {
    var r := Ratios(t, p);
    CountBelowMonotone(r, b1, b2);
    var k1, k2, n := CountBelow(r, b1) as real, CountBelow(r, b2) as real, |t| as real;
    DivideMonotone(k1, k2, n);
  }

  /** The accuracy is 1 exactly when every pixel's ratio is below the band. */
  lemma ThresholdAccuracyOne(t: seq<real>, p: seq<real>, b: real)
    requires Comparable(t, p)
    ensures ThresholdAccuracy(t, p, b) == 1.0 <==>
            forall i :: 0 <= i < |t| ==> ThresholdRatio(t[i], p[i]) < b
  {
    var r := Ratios(t, p);
    assert forall i :: 0 <= i < |t| ==> r[i] == ThresholdRatio(t[i], p[i]);
    CountBelowFull(r, b);
    FractionBounds(CountBelow(r, b), |t|);
  }

  /** Sum over all pixels of |t - p| / t. */
  function SumAbsRel(t: seq<real>, p: seq<real>): (s: real)
    requires |t| == |p| && Positive(t)
    ensures s >= 0.0
  {
    if t == [] then 0.0
    else Abs(t[0] - p[0]) / t[0] + SumAbsRel(t[1..], p[1..])
  }

  /** One pixel's relative error |t - p| / t is non-negative, and zero exactly when t == p. */
  lemma RelativeErrorZero(t: real, p: real)
    requires t > 0.0
    ensures Abs(t - p) / t >= 0.0
    ensures Abs(t - p) / t == 0.0 <==> t == p
  {
    var e := Abs(t - p) / t;
    assert e * t == Abs(t - p);
  }

  /** The sum of relative errors vanishes exactly when the maps are identical. */
  lemma {:induction false} SumAbsRelZero(t: seq<real>, p: seq<real>)
    requires |t| == |p| && Positive(t)
    ensures SumAbsRel(t, p) == 0.0 <==> t == p
  {
    if t != [] {
      SumAbsRelZero(t[1..], p[1..]);
      RelativeErrorZero(t[0], p[0]);
      assert t == [t[0]] + t[1..] && p == [p[0]] + p[1..];
    }
  }

  /** abs_rel: the mean over all pixels of |t - p| / t. */
  function AbsRel(t: seq<real>, p: seq<real>): (e: real)
    requires Comparable(t, p)
    ensures e >= 0.0
  {
    SumAbsRel(t, p) / |t| as real
  }

  /** abs_rel is 0 exactly when the prediction equals the truth. */
  lemma AbsRelZero(t: seq<real>, p: seq<real>)
    requires Comparable(t, p)
    ensures AbsRel(t, p) == 0.0 <==> t == p
  {
    SumAbsRelZero(t, p);
    assert AbsRel(t, p) * |t| as real == SumAbsRel(t, p);
  }

  /** The four metrics of the report that have an exact counterpart over reals. */
  datatype Metrics = Metrics(a1: real, a2: real, a3: real, absRel: real)

  /**
   * compute_depth_estimation_metrics without rmse and log_10: the three
   * threshold accuracies lie in [0, 1] and grow with the band, and abs_rel
   * is non-negative.
   */
  function ComputeDepthEstimationMetrics(t: seq<real>, p: seq<real>): (m: Metrics)
    requires Comparable(t, p)
    ensures 0.0 <= m.a1 <= m.a2 <= m.a3 <= 1.0
    ensures m.absRel >= 0.0
  {
    ThresholdAccuracyMonotone(t, p, Threshold1, Threshold2);
    ThresholdAccuracyMonotone(t, p, Threshold2, Threshold3);
    Metrics(ThresholdAccuracy(t, p, Threshold1),
            ThresholdAccuracy(t, p, Threshold2),
            ThresholdAccuracy(t, p, Threshold3),
            AbsRel(t, p))
  }

  /** Comparing a depth map with itself gives perfect accuracies and no error. */
  lemma IdenticalMaps(d: seq<real>)
    requires Comparable(d, d)
    ensures ComputeDepthEstimationMetrics(d, d) == Metrics(1.0, 1.0, 1.0, 0.0)
  {
    forall i | 0 <= i < |d| ensures ThresholdRatio(d[i], d[i]) == 1.0 { }
    ThresholdAccuracyOne(d, d, Threshold1);
    ThresholdAccuracyOne(d, d, Threshold2);
    ThresholdAccuracyOne(d, d, Threshold3);
    AbsRelZero(d, d);
  }

  /** A perfect a1, a2 or a3 holds exactly when every ratio is within its band. */
  lemma PerfectAccuracy(t: seq<real>, p: seq<real>)
    requires Comparable(t, p)
    ensures ComputeDepthEstimationMetrics(t, p).a1 == 1.0 <==>
            forall i :: 0 <= i < |t| ==> ThresholdRatio(t[i], p[i]) < Threshold1
    ensures ComputeDepthEstimationMetrics(t, p).a2 == 1.0 <==>
            forall i :: 0 <= i < |t| ==> ThresholdRatio(t[i], p[i]) < Threshold2
    ensures ComputeDepthEstimationMetrics(t, p).a3 == 1.0 <==>
            forall i :: 0 <= i < |t| ==> ThresholdRatio(t[i], p[i]) < Threshold3
  {
    ThresholdAccuracyOne(t, p, Threshold1);
    ThresholdAccuracyOne(t, p, Threshold2);
    ThresholdAccuracyOne(t, p, Threshold3);
  }

  /**
   * The comparison with the band is strict: a single pixel predicted at
   * exactly 1.25 times its true depth misses a1 but is within a2 and a3.
   */
  lemma RatioAtBandIsNotCounted(t: real)
    requires t > 0.0
    ensures ComputeDepthEstimationMetrics([t], [Threshold1 * t]).a1 == 0.0
    ensures ComputeDepthEstimationMetrics([t], [Threshold1 * t]).a2 == 1.0
    ensures ComputeDepthEstimationMetrics([t], [Threshold1 * t]).a3 == 1.0
  {
    var t1, p1 := [t], [Threshold1 * t];
    assert ThresholdRatio(t, Threshold1 * t) == Threshold1 by {
      assert Threshold1 * t / t == Threshold1;
      QuotientVersusOne(t, Threshold1 * t);
    }
    assert Ratios(t1, p1) == [Threshold1];
  }

  /** Multiplies every depth of a map by the same factor c. */
  function Scale(c: real, s: seq<real>): (r: seq<real>)
    requires c > 0.0
    ensures |r| == |s|
    ensures Positive(s) ==> Positive(r)
  {
    seq(|s|, i requires 0 <= i < |s| => c * s[i])
  }

  /** (c * x) / (c * y) == x / y. */
  lemma CancelFactor(c: real, x: real, y: real)
    requires c > 0.0 && y > 0.0
    ensures (c * x) / (c * y) == x / y
  {
    assert (c * x) / (c * y) * (c * y) == c * x;
    assert x / y * (c * y) == c * x;
  }

  /** The symmetric ratio does not depend on the unit depths are measured in. */
  lemma ThresholdRatioScale(c: real, t: real, p: real, ct: real, cp: real)
    requires c > 0.0 && t > 0.0 && p > 0.0 && ct == c * t && cp == c * p
    ensures ct > 0.0 && cp > 0.0
    ensures ThresholdRatio(ct, cp) == ThresholdRatio(t, p)
  {
    CancelFactor(c, t, p);
    CancelFactor(c, p, t);
  }

  /** One pixel's relative error |t - p| / t does not depend on the unit. */
  lemma RelativeErrorScale(c: real, t: real, p: real, ct: real, cp: real)
    requires c > 0.0 && t > 0.0 && ct == c * t && cp == c * p
    ensures Abs(ct - cp) / ct == Abs(t - p) / t
  {
    assert ct - cp == c * (t - p);
    assert Abs(ct - cp) == c * Abs(t - p);
    CancelFactor(c, Abs(t - p), t);
  }

  /** The summed relative error does not depend on the unit. */
  lemma {:induction false} SumAbsRelScale(c: real, t: seq<real>, p: seq<real>, ct: seq<real>, cp: seq<real>)
    requires c > 0.0 && |t| == |p| && Positive(t) && Positive(ct)
    requires |ct| == |t| && |cp| == |p|
    requires forall i :: 0 <= i < |t| ==> ct[i] == c * t[i] && cp[i] == c * p[i]
    ensures SumAbsRel(ct, cp) == SumAbsRel(t, p)
  {
    if t != [] {
      SumAbsRelScale(c, t[1..], p[1..], ct[1..], cp[1..]);
      RelativeErrorScale(c, t[0], p[0], ct[0], cp[0]);
    }
  }

  /** The ratio tensor does not depend on the unit. */
  lemma RatiosScale(c: real, t: seq<real>, p: seq<real>, ct: seq<real>, cp: seq<real>)
    requires c > 0.0 && |t| == |p| && Positive(t) && Positive(p) && Positive(ct) && Positive(cp)
    requires |ct| == |t| && |cp| == |p|
    requires forall i :: 0 <= i < |t| ==> ct[i] == c * t[i] && cp[i] == c * p[i]
    ensures Ratios(ct, cp) == Ratios(t, p)
  {
    forall i | 0 <= i < |t| ensures Ratios(ct, cp)[i] == Ratios(t, p)[i] {
      ThresholdRatioScale(c, t[i], p[i], ct[i], cp[i]);
    }
  }

  /** Scaling both maps by the same positive factor leaves all four metrics unchanged. */
  lemma MetricsScaleInvariant(c: real, t: seq<real>, p: seq<real>)
    requires c > 0.0 && Comparable(t, p)
    ensures Comparable(Scale(c, t), Scale(c, p))
    ensures ComputeDepthEstimationMetrics(Scale(c, t), Scale(c, p)) == ComputeDepthEstimationMetrics(t, p)
  {
    var ct, cp := Scale(c, t), Scale(c, p);
    RatiosScale(c, t, p, ct, cp);
    SumAbsRelScale(c, t, p, ct, cp);
  }

  /** The threshold accuracies do not depend on which map is called the truth. */
  lemma AccuraciesSymmetric(t: seq<real>, p: seq<real>)
    requires Comparable(t, p)
    ensures ComputeDepthEstimationMetrics(t, p).a1 == ComputeDepthEstimationMetrics(p, t).a1
    ensures ComputeDepthEstimationMetrics(t, p).a2 == ComputeDepthEstimationMetrics(p, t).a2
    ensures ComputeDepthEstimationMetrics(t, p).a3 == ComputeDepthEstimationMetrics(p, t).a3
  {
    assert Ratios(t, p) == Ratios(p, t);
  }

  /**
   * A worked case: truth [1, 2, 4] against prediction [1.25, 2, 3.2] gives
   * ratios [1.25, 1, 1.25], so a1 = 1/3, a2 = a3 = 1 and abs_rel = 0.15.
   */
  lemma WorkedExample()
    ensures ComputeDepthEstimationMetrics([1.0, 2.0, 4.0], [1.25, 2.0, 3.2]) == Metrics(1.0 / 3.0, 1.0, 1.0, 0.15)
  {
    var t, p := [1.0, 2.0, 4.0], [1.25, 2.0, 3.2];
    var r := Ratios(t, p);
    assert r == [1.25, 1.0, 1.25];
    assert r[1..] == [1.0, 1.25] && r[1..][1..] == [1.25] && r[1..][1..][1..] == [];
    assert CountBelow(r[1..][1..], Threshold1) == 0;
    assert CountBelow(r[1..], Threshold1) == 1;
    assert CountBelow(r, Threshold1) == 1;
    assert CountBelow(r[1..][1..], Threshold2) == 1;
    assert CountBelow(r[1..], Threshold2) == 2;
    assert CountBelow(r, Threshold2) == 3;
    assert CountBelow(r[1..][1..], Threshold3) == 1;
    assert CountBelow(r[1..], Threshold3) == 2;
    assert CountBelow(r, Threshold3) == 3;
    assert SumAbsRel(t, p) == 0.45 by {
      assert t[1..] == [2.0, 4.0] && p[1..] == [2.0, 3.2];
      assert t[1..][1..] == [4.0] && p[1..][1..] == [3.2];
    }
  }
}
