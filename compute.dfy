/** The local quadratic approximation of a series of values: every interior
    sample and its two neighbours give one point of the trend curve.
    Values are exact reals; floating-point rounding is not modelled. */
module Compute {

  /** One output point, the pair `[x, y]` that `compute_approximation` pushes. */
  datatype Point = Point(x: real, y: real)

  /** The second-order Taylor reconstruction around a sample `cur`, from its
      neighbours, evaluated one unit forward: f0 + f'·1 + f''/2 with the
      central first difference and the second difference. */
  function LocalQuadratic(prev: real, cur: real, next: real): real
  {
    var firstDiff := (next - prev) / 2.0;
    var secondDiff := next - 2.0 * cur + prev;
    cur + firstDiff * 1.0 + secondDiff / 2.0
  }

  /** The quadratic reconstruction evaluated one step forward is exactly the
      next sample: the three terms add up to `next`, not to `cur`. */
  lemma LocalQuadraticIsNext(prev: real, cur: real, next: real)
    ensures LocalQuadratic(prev, cur, next) == next
  {
  }

  /** The approximation as a value: for n < 3 nothing, otherwise one point per
      interior index i in 1..n-1, at x = i + 1. */
  function Approximation(data: seq<real>): (r: seq<Point>)
    ensures |data| < 3 ==> r == []
    ensures |data| >= 3 ==> |r| == |data| - 2
  {
    if |data| < 3 then []
    else seq(|data| - 2, k requires 0 <= k < |data| - 2 =>
               Point((k + 2) as real, LocalQuadratic(data[k], data[k + 1], data[k + 2])))
  }

  /** The loop of `compute_approximation`: walk the interior indices, push one
      point each.
      The input sequence is a value and cannot be changed by the method. */
  method ComputeApproximation(data: seq<real>) returns (result: seq<Point>)
    ensures result == Approximation(data)
    ensures |data| < 3 ==> result == []
    ensures |data| >= 3 ==> |result| == |data| - 2
    ensures forall k :: 0 <= k < |result| ==>
              result[k] == Point((k + 2) as real, data[k + 2])
  {
    result := [];
    var n := |data|;
    if n < 3 {
      return;
    }
    for i := 1 to n - 1
      invariant |result| == i - 1
      invariant forall k :: 0 <= k < i - 1 ==>
                  result[k] == Point((k + 2) as real,
                                     LocalQuadratic(data[k], data[k + 1], data[k + 2]))
    {
      var x := i as real;
      var f0 := data[i];
      var fp := (data[i + 1] - data[i - 1]) / 2.0;
      var fpp := data[i + 1] - 2.0 * data[i] + data[i - 1];
      var approx := f0 + fp * 1.0 + fpp / 2.0;
      result := result + [Point(x + 1.0, approx)];
    }
    forall k | 0 <= k < |result|
      ensures result[k] == Point((k + 2) as real, data[k + 2])
    {
      LocalQuadraticIsNext(data[k], data[k + 1], data[k + 2]);
    }
  }

  /** Reference curve: the samples from index 2 on, each at x = its index. */
  function NextSamples(data: seq<real>): (r: seq<Point>)
  {
    if |data| < 3 then []
    else seq(|data| - 2, k requires 0 <= k < |data| - 2 => Point((k + 2) as real, data[k + 2]))
  }

  /** The approximation is exactly the reference curve: the k-th point is
      (k + 2, data[k + 2]), the sample one index after the interior index
      k + 1 around which it was reconstructed, not data[k + 1]. */
  lemma ApproximationIsNextSamples(data: seq<real>)
    ensures Approximation(data) == NextSamples(data)
  {
    if |data| >= 3 {
      forall k | 0 <= k < |data| - 2
        ensures Approximation(data)[k] == NextSamples(data)[k]
      {
        LocalQuadraticIsNext(data[k], data[k + 1], data[k + 2]);
      }
    }
  }

  /** The x-coordinates start at 2 and grow by exactly 1 per point. */
  lemma ApproximationXStrictlyIncreasing(data: seq<real>, k: nat)
    requires k < |Approximation(data)|
    ensures Approximation(data)[k].x == (k + 2) as real
    ensures k + 1 < |Approximation(data)| ==>
              Approximation(data)[k + 1].x == Approximation(data)[k].x + 1.0
  {
  }

  /** Each point depends only on the three neighbours of its interior index:
      two inputs that agree there give the same point. */
  lemma ApproximationIsLocal(a: seq<real>, b: seq<real>, k: nat)
    requires |a| == |b| && k + 2 < |a|
    requires a[k] == b[k] && a[k + 1] == b[k + 1] && a[k + 2] == b[k + 2]
    ensures Approximation(a)[k] == Approximation(b)[k]
  {
  }

  /** For samples on a line v[j] = a + b·j every output point lies on the same
      line: a linear series comes back as its own later samples. */
  lemma ApproximationOfLinear(data: seq<real>, a: real, b: real, k: nat)
    requires forall j :: 0 <= j < |data| ==> data[j] == a + b * j as real
    requires k < |Approximation(data)|
    ensures Approximation(data)[k].y == a + b * Approximation(data)[k].x
  {
    ApproximationIsNextSamples(data);
    assert Approximation(data)[k] == Point((k + 2) as real, data[k + 2]);
  }

  /** The linear series 1, 2, 3, 4, 5 comes back as 3, 4, 5 at x = 2, 3, 4:
      each interior value is replaced by that of its successor. */
  lemma LinearExample()
    ensures Approximation([1.0, 2.0, 3.0, 4.0, 5.0])
            == [Point(2.0, 3.0), Point(3.0, 4.0), Point(4.0, 5.0)]
  {
    ApproximationIsNextSamples([1.0, 2.0, 3.0, 4.0, 5.0]);
  }

  /** A single spike 0, 0, 10, 0, 0: the point reconstructed around the spike
      (index 2) does not keep the raw value 10, and the spike shows up one
      point earlier, in the point reconstructed around index 1. */
  lemma SpikeExample()
    ensures Approximation([0.0, 0.0, 10.0, 0.0, 0.0])
            == [Point(2.0, 10.0), Point(3.0, 0.0), Point(4.0, 0.0)]
  {
    ApproximationIsNextSamples([0.0, 0.0, 10.0, 0.0, 0.0]);
  }
}
