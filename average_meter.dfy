/**
 * AverageMeter in DenseDepth/utils.py: a running, weighted average of the
 * values it is given, as a class whose fields are updated in place.
 *
 * Besides the four fields of the original, the meter carries a ghost record
 * of every update since the last reset; the object invariant ties `sum`,
 * `count` and `avg` to that record, so `avg` is provably the weighted mean
 * of everything recorded.
 */
module AverageMeters {

  /** One call of update: the value and its weight n. */
  datatype Sample = Sample(val: real, n: int)

  /** The sum of val * n over the samples. */
  function WeightedSum(h: seq<Sample>): real
  {
    if h == [] then 0.0 else WeightedSum(h[..|h| - 1]) + h[|h| - 1].val * h[|h| - 1].n as real
  }

  /** The sum of the weights n over the samples. */
  function TotalWeight(h: seq<Sample>): int
  {
    if h == [] then 0 else TotalWeight(h[..|h| - 1]) + h[|h| - 1].n
  }

  /** When every sample has the same value c, the weighted sum is c times the total weight. */
  lemma {:induction false} WeightedSumOfConstant(h: seq<Sample>, c: real)
    requires forall i :: 0 <= i < |h| ==> h[i].val == c
    ensures WeightedSum(h) == c * TotalWeight(h) as real
  {
    if h != [] {
      WeightedSumOfConstant(h[..|h| - 1], c);
    }
  }

  /** Multiplying by a non-negative weight keeps an inequality. */
  lemma ScaleBound(a: real, b: real, w: real)
    requires a <= b && w >= 0.0
    ensures a * w <= b * w
  {
    assert b * w - a * w == (b - a) * w;
  }

  /**
   * One step of the running sum: if s lies between lo and hi times w, and
   * v lies in [lo, hi], then s' = s + v * n lies between lo and hi times
   * w' = w + n.
   */
  lemma AddBounds(lo: real, hi: real, s: real, v: real, w: real, n: real, s': real, w': real)
    requires n > 0.0 && lo <= v <= hi && lo * w <= s <= hi * w
    requires s' == s + v * n && w' == w + n
    ensures lo * w' <= s' <= hi * w'
  {
    ScaleBound(lo, v, n);
    ScaleBound(v, hi, n);
    assert lo * (w + n) == lo * w + lo * n;
    assert hi * (w + n) == hi * w + hi * n;
  }

  /** A quotient by a positive w whose numerator lies between lo * w and hi * w lies between lo and hi. */
  lemma DivideBetween(s: real, w: real, lo: real, hi: real)
    requires w > 0.0 && lo * w <= s <= hi * w
    ensures lo <= s / w <= hi
  {
    var q := s / w;
    assert q * w == s;
    assert (q - lo) * w == s - lo * w;
    assert (hi - q) * w == hi * w - s;
  }

  /**
   * With positive weights and every value within [lo, hi], the weighted sum
   * lies between lo and hi times the total weight.
   */
  lemma {:induction false} WeightedSumBounds(h: seq<Sample>, lo: real, hi: real)
    requires forall i :: 0 <= i < |h| ==> h[i].n > 0 && lo <= h[i].val <= hi
    ensures lo * TotalWeight(h) as real <= WeightedSum(h) <= hi * TotalWeight(h) as real
  {
    if h != [] {
      var init, last := h[..|h| - 1], h[|h| - 1];
      WeightedSumBounds(init, lo, hi);
      AddBounds(lo, hi, WeightedSum(init), last.val, TotalWeight(init) as real, last.n as real,
                WeightedSum(h), TotalWeight(h) as real);
    }
  }

  /** The weighted mean of samples with the same value c is c. */
  lemma MeanOfConstant(h: seq<Sample>, c: real)
    requires TotalWeight(h) != 0
    requires forall i :: 0 <= i < |h| ==> h[i].val == c
    ensures WeightedSum(h) / TotalWeight(h) as real == c
  {
    WeightedSumOfConstant(h, c);
  }

  /** The weighted mean of positively weighted values within [lo, hi] lies within [lo, hi]. */
  lemma MeanWithinBounds(h: seq<Sample>, lo: real, hi: real)
    requires h != []
    requires forall i :: 0 <= i < |h| ==> h[i].n > 0 && lo <= h[i].val <= hi
    ensures TotalWeight(h) > 0
    ensures lo <= WeightedSum(h) / TotalWeight(h) as real <= hi
  {
    PositiveWeights(h);
    WeightedSumBounds(h, lo, hi);
    DivideBetween(WeightedSum(h), TotalWeight(h) as real, lo, hi);
  }

  /** Positive weights add up to a positive total. */
  lemma {:induction false} PositiveWeights(h: seq<Sample>)
    requires h != []
    requires forall i :: 0 <= i < |h| ==> h[i].n > 0
    ensures TotalWeight(h) > 0
  {
    if |h| > 1 {
      PositiveWeights(h[..|h| - 1]);
    }
  }

  /** The outcome of update: it returns normally, or it divides by a zero count. */
  datatype Status = Updated | ZeroDivisionError

  class AverageMeter {
    var val: real
    var avg: real
    var sum: real
    var count: int
    ghost var history: seq<Sample>

    /**
     * sum and count are the weighted sum and total weight of the samples
     * since the last reset, avg is their weighted mean whenever the count is
     * not zero, and val is the last value recorded (0 after a reset).
     */
    ghost predicate Valid()
      reads this
    {
      && sum == WeightedSum(history)
      && count == TotalWeight(history)
      && (count != 0 ==> avg == WeightedSum(history) / TotalWeight(history) as real)
      && (history == [] ==> val == 0.0 && avg == 0.0)
      && (history != [] ==> val == history[|history| - 1].val)
    }

    /** A new meter starts reset. */
    constructor ()
      ensures Valid() && history == []
      ensures val == 0.0 && avg == 0.0 && sum == 0.0 && count == 0
    {
      val, avg, sum, count := 0.0, 0.0, 0.0, 0;
      history := [];
    }

    /** Clears all four fields and forgets every sample. */
    method Reset()
      modifies this
      ensures Valid() && history == []
      ensures val == 0.0 && avg == 0.0 && sum == 0.0 && count == 0
    {
      val, avg, sum, count := 0.0, 0.0, 0.0, 0;
      history := [];
    }

    /**
     * Records value v with weight n. val, sum and count are updated first;
     * avg is then recomputed, which fails when the new count is zero, in
     * which case avg keeps its old value and the other three stay updated.
     */
    method Update(v: real, n: int := 1) returns (status: Status)
      requires Valid()
      modifies this
      ensures Valid()
      ensures history == old(history) + [Sample(v, n)]
      ensures val == v && sum == old(sum) + v * n as real && count == old(count) + n
      ensures status == Updated <==> count != 0
      ensures status == Updated ==> avg * count as real == sum
      ensures status == ZeroDivisionError ==> avg == old(avg)
    {
      val := v;
      sum := sum + v * n as real;
      count := count + n;
      history := history + [Sample(v, n)];
      assert history[..|history| - 1] == old(history);
      if count == 0 {
        return ZeroDivisionError;
      }
      avg := sum / count as real;
      return Updated;
    }
  }

  /**
   * A client of the meter: a batch of 3 with value 2 followed by a batch of
   * 1 with value 4 averages to 2.5; a reset then brings the average back to 0.
   */
  method BatchAverageExample() returns (avg: real, afterReset: real)
    ensures avg == 2.5 && afterReset == 0.0
  {
    var meter := new AverageMeter();
    var s1 := meter.Update(2.0, 3);
    var s2 := meter.Update(4.0);
    assert s1 == Updated && s2 == Updated;
    avg := meter.avg;
    meter.Reset();
    afterReset := meter.avg;
  }
}
