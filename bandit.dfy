/** One arm of the bandit (bandit.go): a Beta-Bernoulli posterior over the
    arm's conversion rate, built from a success count and a trial count, and
    the Monte Carlo statistics drawn from it.

    The Beta sampler is external to the model. Every draw it would produce
    is supplied by the caller as data, so each operation is a function of
    the arm's state and of the draws it consumed. */
module Bandits {
  import opened Sorting

  /** Number of posterior draws behind every Monte Carlo estimate. */
  const MeanIterations: nat := 10000

  /** The index `int(p/100 * float64(n))` that reads the p-th percentile off
      an ascending buffer of `n` values. */
  function PercentileIndex(p: nat, n: nat): (k: nat)
    requires p < 100
    ensures k * 100 <= p * n < (k + 1) * 100
    ensures n > 0 ==> k < n
  {
    ScaleBelowHundred(p, n);
    (p * n) / 100
  }

  lemma ScaleBelowHundred(p: nat, n: nat)
    requires p < 100
    ensures n > 0 ==> p * n < 100 * n
  {
  }

  /** Beta shape parameters after a uniform Beta(1, 1) prior has seen
      `rewards` successes in `observations` trials. Both are proper (positive)
      shapes exactly when the counts are consistent. */
  function PosteriorShape(rewards: int, observations: int): (shape: (real, real))
    ensures shape.0 >= 1.0 <==> rewards >= 0
    ensures shape.1 >= 1.0 <==> rewards <= observations
    ensures shape.0 > 0.0 <==> rewards >= 0
    ensures shape.1 > 0.0 <==> rewards <= observations
  {
    (1.0 + rewards as real, 1.0 + observations as real - rewards as real)
  }

  /** Sum of the values, accumulated left to right. Posterior draws are
      probabilities, and a sum of probabilities lies between 0 and their
      number, so a sampled mean lies in [0, 1]. */
  function Sum(s: seq<real>): (total: real)
    ensures (forall i :: 0 <= i < |s| ==> 0.0 <= s[i] <= 1.0) ==> 0.0 <= total <= |s| as real
    decreases |s|
  {
    if s == [] then 0.0 else Sum(s[..|s| - 1]) + s[|s| - 1]
  }

  /** Sum of the squared deviations of the values from `m`. It is never
      negative, and it is zero when every value equals `m`. */
  function SquaredDeviations(s: seq<real>, m: real): (sq: real)
    ensures sq >= 0.0
    ensures (forall i :: 0 <= i < |s| ==> s[i] == m) ==> sq == 0.0
    decreases |s|
  {
    if s == [] then 0.0
    else
      var d := s[|s| - 1] - m;
      SquareNonNegative(d);
      SquaredDeviations(s[..|s| - 1], m) + d * d
  }

  lemma SquareNonNegative(d: real)
    ensures d * d >= 0.0
  {
  }

  predicate NonZero(s: seq<real>) {
    forall i :: 0 <= i < |s| ==> s[i] != 0.0
  }

  /** Paired absolute differences `ours[i] - theirs[i]`. */
  function Differences(ours: seq<real>, theirs: seq<real>): (d: seq<real>)
    requires |ours| == |theirs|
    ensures |d| == |ours|
  {
    seq(|ours|, i requires 0 <= i < |ours| => ours[i] - theirs[i])
  }

  /** Paired differences relative to the other arm's draw. */
  function RelativeDifferences(ours: seq<real>, theirs: seq<real>): (d: seq<real>)
    requires |ours| == |theirs| && NonZero(theirs)
    ensures |d| == |ours|
  {
    seq(|ours|, i requires 0 <= i < |ours| => (ours[i] - theirs[i]) / theirs[i])
  }

  /** The 5th, 50th and 95th percentiles of an ascending buffer of
      `MeanIterations` values. */
  function Percentiles(sorted: seq<real>): (p: seq<real>)
    requires |sorted| == MeanIterations
    ensures |p| == 3
    ensures Sorted(sorted) ==> p[0] <= p[1] <= p[2]
  {
    [sorted[PercentileIndex(5, MeanIterations)],
     sorted[PercentileIndex(50, MeanIterations)],
     sorted[PercentileIndex(95, MeanIterations)]]
  }

  /** The draws one call of `Mean` consumes, in the order each loop round
      takes them: `buffered[i]` is stored in the returned buffer and
      `summed[i]` is added to the running total. */
  datatype MeanDraws = MeanDraws(buffered: seq<real>, summed: seq<real>) {
    predicate WellSized() {
      |buffered| == MeanIterations && |summed| == MeanIterations
    }
  }

  /** Fills fresh buffers with the paired relative and absolute differences
      of two sample buffers. */
  method PairDifferences(ourSamples: array<real>, theirSamples: array<real>)
    returns (relTmp: array<real>, tmp: array<real>)
    requires ourSamples.Length == theirSamples.Length
    requires NonZero(theirSamples[..])
    ensures fresh(relTmp) && fresh(tmp) && relTmp != tmp
    ensures relTmp[..] == RelativeDifferences(ourSamples[..], theirSamples[..])
    ensures tmp[..] == Differences(ourSamples[..], theirSamples[..])
  {
    relTmp := new real[ourSamples.Length];
    tmp := new real[ourSamples.Length];
    for i := 0 to ourSamples.Length
      invariant forall k :: 0 <= k < i ==>
        relTmp[k] == (ourSamples[k] - theirSamples[k]) / theirSamples[k]
      invariant forall k :: 0 <= k < i ==> tmp[k] == ourSamples[k] - theirSamples[k]
    {
      relTmp[i] := (ourSamples[i] - theirSamples[i]) / theirSamples[i];
      tmp[i] := ourSamples[i] - theirSamples[i];
    }
  }

  /** The second loop of `Mean`: the squared deviations of the buffer from
      `mean`, accumulated in buffer order. */
  method DeviationTotal(obs: array<real>, mean: real) returns (stdDev: real)
    ensures stdDev == SquaredDeviations(obs[..], mean)
  {
    stdDev := 0.0;
    for i := 0 to obs.Length
      invariant stdDev == SquaredDeviations(obs[..i], mean)
    {
      stdDev := stdDev + (obs[i] - mean) * (obs[i] - mean);
      assert obs[..i + 1][..i] == obs[..i];
    }
    assert obs[..] == obs[..obs.Length];
  }

  class Bandit {
    var name: string
    var alpha: real
    var beta: real
    var observations: int
    var rewards: int
    var chosen: int

    /** The shape parameters are those of the posterior for the counts. */
    ghost predicate PosteriorMatchesCounts()
      reads this
    {
      (alpha, beta) == PosteriorShape(rewards, observations)
    }

    /** An arm with `successes` out of `total` trials. The counts are
        stored as given, without validation. */
    constructor (name: string, successes: int, total: int)
      ensures this.name == name
      ensures observations == total && rewards == successes && chosen == 0
      ensures PosteriorMatchesCounts()
      ensures alpha >= 1.0 && beta >= 1.0 <==> 0 <= successes <= total
    {
      this.name := name;
      alpha, beta := 0.0, 0.0;
      observations := total;
      rewards := successes;
      chosen := 0;
      new;
      UpdateBetaParams();
    }

    /** Recomputes the shape parameters from the counts. */
    method UpdateBetaParams()
      modifies this`alpha, this`beta
      ensures alpha == 1.0 + rewards as real
      ensures beta == 1.0 + observations as real - rewards as real
      ensures PosteriorMatchesCounts()
    {
      alpha := 1.0 + rewards as real;
      beta := 1.0 + observations as real - rewards as real;
    }

    /** One draw from Beta(alpha, beta). The sampler is outside the model:
        `draw` is the value it returns. The arm is not changed. */
    method Observe(draw: real) returns (x: real)
      ensures x == draw
      ensures unchanged(this)
    {
      x := draw;
    }

    /** Sampled mean and population variance of the posterior, together
        with the buffer of draws behind the variance. The mean divides the
        total of the `summed` draws, which is a different stream from the
        buffered ones. */
    method Mean(draws: MeanDraws) returns (mean: real, variance: real, obs: array<real>)
      requires draws.WellSized()
      ensures fresh(obs) && obs.Length == MeanIterations
      ensures obs[..] == draws.buffered
      ensures mean == Sum(draws.summed) / MeanIterations as real
      ensures variance == SquaredDeviations(draws.buffered, mean) / MeanIterations as real
    {
      var total;
      obs, total := SampleBuffer(draws);
      mean := total / MeanIterations as real;
      var stdDev := DeviationTotal(obs, mean);
      variance := stdDev / MeanIterations as real;
    }

    /** The first loop of `Mean`: each round stores one draw in the buffer
        and adds the next draw to the running total. */
    method SampleBuffer(draws: MeanDraws) returns (obs: array<real>, total: real)
      requires draws.WellSized()
      ensures fresh(obs)
      ensures obs[..] == draws.buffered
      ensures total == Sum(draws.summed)
    {
      obs := new real[MeanIterations];
      total := 0.0;
      for i := 0 to MeanIterations
        modifies obs
        invariant obs[..i] == draws.buffered[..i]
        invariant total == Sum(draws.summed[..i])
      {
        obs[i] := Observe(draws.buffered[i]);
        var x := Observe(draws.summed[i]);
        total := total + x;
        assert draws.summed[..i + 1][..i] == draws.summed[..i];
      }
      assert draws.summed[..MeanIterations] == draws.summed;
      assert obs[..] == obs[..MeanIterations];
    }

    /** Percentiles of the relative and of the absolute difference between
        this arm's and `other`'s posterior, from draws paired by index. */
    method Compare(other: Bandit, ours: MeanDraws, theirs: MeanDraws)
      returns (relativeDifference: seq<real>, absoluteDifference: seq<real>)
      requires ours.WellSized() && theirs.WellSized()
      requires NonZero(theirs.buffered)
      ensures relativeDifference
                == Percentiles(SortedSeq(RelativeDifferences(ours.buffered, theirs.buffered)))
      ensures absoluteDifference
                == Percentiles(SortedSeq(Differences(ours.buffered, theirs.buffered)))
      ensures relativeDifference[0] <= relativeDifference[1] <= relativeDifference[2]
      ensures absoluteDifference[0] <= absoluteDifference[1] <= absoluteDifference[2]
    {
      var ourMean, ourVariance, ourSamples := Mean(ours);
      var theirMean, theirVariance, theirSamples := other.Mean(theirs);

      var relTmp, tmp := PairDifferences(ourSamples, theirSamples);
      ghost var differences := Differences(ours.buffered, theirs.buffered);
      ghost var relativeDifferences := RelativeDifferences(ours.buffered, theirs.buffered);
      assert tmp[..] == differences;
      assert relTmp[..] == relativeDifferences;

      SortInPlace(tmp);
      SortInPlace(relTmp);
      assert tmp[..] == SortedSeq(differences);
      assert relTmp[..] == SortedSeq(relativeDifferences);
      var i5 := PercentileIndex(5, MeanIterations);
      var i50 := PercentileIndex(50, MeanIterations);
      var i95 := PercentileIndex(95, MeanIterations);

      relativeDifference := [relTmp[i5], relTmp[i50], relTmp[i95]];
      absoluteDifference := [tmp[i5], tmp[i50], tmp[i95]];
    }
  }
}
