/**
 * depth_norm in DenseDepth/utils.py: converts a depth to the normalised
 * target max_depth / depth (applied pixel by pixel to a depth map), over
 * exact reals.
 */
module DepthNormalization {

  /** The default max_depth. */
  const DefaultMaxDepth: real := 1000.0

  /** A number r with r * k == q for a positive k has the sign of q. */
  lemma SignOfQuotient(r: real, q: real, k: real)
    requires k > 0.0 && r * k == q
    ensures r > 0.0 <==> q > 0.0
    ensures r == 0.0 <==> q == 0.0
  {
  }

  /** m / d is positive exactly when m and d have the same sign, and zero exactly when m is. */
  lemma QuotientSign(m: real, d: real)
    requires d != 0.0
    ensures m / d * d == m
    ensures m / d > 0.0 <==> d * m > 0.0
    ensures m / d == 0.0 <==> m == 0.0
  {
    var r := m / d;
    assert r * d == m;
    if d > 0.0 {
      SignOfQuotient(r, m, d);
      SignOfQuotient(m, d * m, d);
    } else {
      assert (-r) * (-d) == m;
      SignOfQuotient(-r, m, -d);
      assert (-m) * (-d) == d * m;
      SignOfQuotient(-m, d * m, -d);
    }
  }

  /**
   * max_depth / depth: multiplied by the depth it gives max_depth back, and
   * it is positive exactly when depth and max_depth have the same sign.
   */
  function DepthNorm(depth: real, maxDepth: real := DefaultMaxDepth): (r: real)
    requires depth != 0.0
    ensures r * depth == maxDepth
    ensures r > 0.0 <==> depth * maxDepth > 0.0
    ensures r == 0.0 <==> maxDepth == 0.0
  {
    QuotientSign(maxDepth, depth);
    maxDepth / depth
  }

  /** Normalising twice with the same non-zero max_depth gives the original depth back. */
  lemma DepthNormInvolution(depth: real, maxDepth: real)
    requires depth != 0.0 && maxDepth != 0.0
    ensures DepthNorm(depth, maxDepth) != 0.0
    ensures DepthNorm(DepthNorm(depth, maxDepth), maxDepth) == depth
  {
    var n := DepthNorm(depth, maxDepth);
    var m := DepthNorm(n, maxDepth);
    assert m * n == n * depth;
  }

  /** Multiplying by a positive c keeps a strict order, and only a strict order. */
  lemma CancelPositive(x: real, y: real, c: real)
    requires c > 0.0
    ensures x * c < y * c <==> x < y
  {
    assert y * c - x * c == (y - x) * c;
  }

  /** For a positive max_depth, a farther point gets a smaller normalised value. */
  lemma DepthNormAntitone(near: real, far: real, maxDepth: real)
    requires 0.0 < near < far && maxDepth > 0.0
    ensures DepthNorm(far, maxDepth) < DepthNorm(near, maxDepth)
  {
    var a, b := DepthNorm(near, maxDepth), DepthNorm(far, maxDepth);
    assert a * near == maxDepth && b * far == maxDepth && b > 0.0;
    CancelPositive(near, far, b);
    assert near * b < far * b;
    assert b * near < a * near by {
      assert near * b == b * near && far * b == b * far;
    }
    CancelPositive(b, a, near);
  }

  /** With the default, a depth of 10 becomes 100 and a depth of 1000 becomes 1. */
  lemma DepthNormDefaults()
    ensures DepthNorm(10.0) == 100.0
    ensures DepthNorm(1000.0) == 1.0
  {
  }
}
