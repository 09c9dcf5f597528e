/** An experiment (experiment.go): an ordered list of arms and the offline
    Thompson-sampling scorer that picks the arm most likely to be optimal
    and reports the potential value remaining.

    The scorer's posterior draws are supplied as data: `samples[i][j]` is
    the draw of arm `j` in round `i`. */
module Experiments {
  import opened Sorting
  import opened Bandits

  /** Outcome of a scoring run. */
  datatype Result = Result(
    experiment: Experiment,
    optimal: Bandit,
    expectedValue: real,
    potentialValueRemaining: real,
    observations: int)

  /** Index of the round's largest draw; on ties the lowest index wins,
      because a later draw replaces the running maximum only when it is
      strictly larger. */
  function RoundWinner(round: seq<real>): (k: nat)
    requires |round| > 0
    ensures k < |round|
    ensures forall j :: 0 <= j < |round| ==> round[j] <= round[k]
    ensures forall j :: 0 <= j < k ==> round[j] < round[k]
    decreases |round|
  {
    if |round| == 1 then 0
    else
      var k := RoundWinner(round[..|round| - 1]);
      if round[k] < round[|round| - 1] then |round| - 1 else k
  }

  /** The largest draw of a round. */
  function RoundMax(round: seq<real>): (m: real)
    requires |round| > 0
    ensures m in round
    ensures forall j :: 0 <= j < |round| ==> round[j] <= m
  {
    round[RoundWinner(round)]
  }

  /** Index of the largest tally; on ties the lowest index wins. This is the
      same first-maximum scan as `RoundWinner`, stated again over integer
      tallies because the tallies and the draws have different element
      types. */
  function MostWins(counts: seq<int>): (k: nat)
    requires |counts| > 0
    ensures k < |counts|
    ensures forall j :: 0 <= j < |counts| ==> counts[j] <= counts[k]
    ensures forall j :: 0 <= j < k ==> counts[j] < counts[k]
    decreases |counts|
  {
    if |counts| == 1 then 0
    else
      var k := MostWins(counts[..|counts| - 1]);
      if counts[k] < counts[|counts| - 1] then |counts| - 1 else k
  }

  /** Every round holds one draw for each of `n >= 1` arms. */
  ghost predicate RoundsOfWidth(rounds: seq<seq<real>>, n: nat) {
    n >= 1 && forall i :: 0 <= i < |rounds| ==> |rounds[i]| == n
  }

  /** Arm `opt` has a non-zero draw in every round. Its draws are the only
      divisors of the gap ratios. */
  ghost predicate NonZeroColumn(rounds: seq<seq<real>>, opt: nat) {
    forall i :: 0 <= i < |rounds| ==> opt < |rounds[i]| && rounds[i][opt] != 0.0
  }

  /** Per-arm tallies of round wins, built round by round: each round adds
      one to the tally of its winner. */
  function Tally(rounds: seq<seq<real>>, n: nat): (counts: seq<int>)
    requires RoundsOfWidth(rounds, n)
    ensures |counts| == n
    decreases |rounds|
  {
    if rounds == [] then seq(n, _ => 0)
    else
      var prev := Tally(rounds[..|rounds| - 1], n);
      var w := RoundWinner(rounds[|rounds| - 1]);
      prev[w := prev[w] + 1]
  }

  /** Number of rounds that arm `k` wins, counted independently of `Tally`. */
  function WinsOf(rounds: seq<seq<real>>, n: nat, k: nat): (w: nat)
    requires RoundsOfWidth(rounds, n)
    ensures w <= |rounds|
    decreases |rounds|
  {
    if rounds == [] then 0
    else
      WinsOf(rounds[..|rounds| - 1], n, k)
        + (if RoundWinner(rounds[|rounds| - 1]) == k then 1 else 0)
  }

  function Total(counts: seq<int>): int {
    if counts == [] then 0 else Total(counts[..|counts| - 1]) + counts[|counts| - 1]
  }

  /** The arm picked as optimal: the one with the most round wins. */
  function OptimalIndex(rounds: seq<seq<real>>, n: nat): (k: nat)
    requires RoundsOfWidth(rounds, n)
    ensures k < n
  {
    MostWins(Tally(rounds, n))
  }

  /** The gap `(t_max - t*) / t*` between a round's largest draw and the
      draw of arm `opt` in the same round. */
  function GapRatio(round: seq<real>, opt: nat): (g: real)
    requires opt < |round| && round[opt] != 0.0
    ensures round[opt] > 0.0 ==> g >= 0.0
    ensures g == 0.0 <==> round[opt] == RoundMax(round)
  {
    (RoundMax(round) - round[opt]) / round[opt]
  }

  function GapRatios(rounds: seq<seq<real>>, n: nat, opt: nat): (g: seq<real>)
    requires RoundsOfWidth(rounds, n) && opt < n && NonZeroColumn(rounds, opt)
    ensures |g| == |rounds|
  {
    seq(|rounds|, i requires 0 <= i < |rounds| => GapRatio(rounds[i], opt))
  }

  /** The 95th percentile of the gap ratios against the optimal arm: the
      element at index floor(0.95 N) of their ascending arrangement. */
  ghost function PotentialValueRemaining(rounds: seq<seq<real>>, n: nat): (pvr: real)
    requires RoundsOfWidth(rounds, n) && |rounds| >= 1
    requires NonZeroColumn(rounds, OptimalIndex(rounds, n))
    ensures pvr in GapRatios(rounds, n, OptimalIndex(rounds, n))
  {
    var g := GapRatios(rounds, n, OptimalIndex(rounds, n));
    var k := PercentileIndex(95, |rounds|);
    SortedSeqElement(g, k);
    SortedSeq(g)[k]
  }

  /** Extending the rounds by one adds one to the new round's winner. */
  lemma TallyStep(rounds: seq<seq<real>>, n: nat, i: nat)
    requires RoundsOfWidth(rounds, n) && i < |rounds|
    ensures RoundsOfWidth(rounds[..i], n) && RoundsOfWidth(rounds[..i + 1], n)
    ensures Tally(rounds[..i + 1], n)
              == Tally(rounds[..i], n)[RoundWinner(rounds[i]) := Tally(rounds[..i], n)[RoundWinner(rounds[i])] + 1]
  {
    assert rounds[..i + 1][..i] == rounds[..i];
  }

  /** Each tally entry is the number of rounds that arm wins. */
  lemma {:induction false} TallyCountsWins(rounds: seq<seq<real>>, n: nat, k: nat)
    requires RoundsOfWidth(rounds, n) && k < n
    ensures Tally(rounds, n)[k] == WinsOf(rounds, n, k)
    decreases |rounds|
  {
    if rounds != [] {
      TallyCountsWins(rounds[..|rounds| - 1], n, k);
    }
  }

  lemma {:induction false} TotalIncrement(counts: seq<int>, w: nat)
    requires w < |counts|
    ensures Total(counts[w := counts[w] + 1]) == Total(counts) + 1
    decreases |counts|
  {
    var bumped := counts[w := counts[w] + 1];
    if w < |counts| - 1 {
      assert bumped[..|bumped| - 1] == counts[..|counts| - 1][w := counts[w] + 1];
      TotalIncrement(counts[..|counts| - 1], w);
    } else {
      assert bumped[..|bumped| - 1] == counts[..|counts| - 1];
    }
  }

  lemma {:induction false} TotalOfZeros(n: nat)
    ensures Total(seq(n, _ => 0)) == 0
  {
    if n > 0 {
      assert seq(n, _ => 0)[..n - 1] == seq(n - 1, _ => 0);
      TotalOfZeros(n - 1);
    }
  }

  /** Every round adds exactly one win: the tallies are non-negative and sum
      to the number of rounds. */
  lemma {:induction false} TallyConservation(rounds: seq<seq<real>>, n: nat)
    requires RoundsOfWidth(rounds, n)
    ensures Total(Tally(rounds, n)) == |rounds|
    ensures forall k :: 0 <= k < n ==> Tally(rounds, n)[k] >= 0
    decreases |rounds|
  {
    if rounds == [] {
      TotalOfZeros(n);
    } else {
      var init := rounds[..|rounds| - 1];
      TallyConservation(init, n);
      TotalIncrement(Tally(init, n), RoundWinner(rounds[|rounds| - 1]));
    }
  }

  /** The optimal arm wins at least as many rounds as any other arm, and
      strictly more than every arm before it. */
  lemma OptimalHasMostWins(rounds: seq<seq<real>>, n: nat)
    requires RoundsOfWidth(rounds, n)
    ensures forall k :: 0 <= k < n ==> WinsOf(rounds, n, k) <= WinsOf(rounds, n, OptimalIndex(rounds, n))
    ensures forall k :: 0 <= k < OptimalIndex(rounds, n) ==>
              WinsOf(rounds, n, k) < WinsOf(rounds, n, OptimalIndex(rounds, n))
  {
    forall k | 0 <= k < n {
      TallyCountsWins(rounds, n, k);
    }
  }

  /** The potential value remaining is the gap ratio of one of the rounds,
      and it is not negative when the optimal arm's draws are positive. */
  lemma PotentialValueRemainingBounds(rounds: seq<seq<real>>, n: nat)
    requires RoundsOfWidth(rounds, n) && |rounds| >= 1
    requires NonZeroColumn(rounds, OptimalIndex(rounds, n))
    ensures exists i :: 0 <= i < |rounds| &&
              PotentialValueRemaining(rounds, n) == GapRatio(rounds[i], OptimalIndex(rounds, n))
    ensures (forall i :: 0 <= i < |rounds| ==> rounds[i][OptimalIndex(rounds, n)] > 0.0) ==>
              PotentialValueRemaining(rounds, n) >= 0.0
  {
    var opt := OptimalIndex(rounds, n);
    var g := GapRatios(rounds, n, opt);
    var i :| 0 <= i < |g| && g[i] == PotentialValueRemaining(rounds, n);
    assert g[i] == GapRatio(rounds[i], opt);
  }

  /** A zero draw of an arm that is not chosen is harmless: with two arms
      and the single round [0.5, 0.0], arm 0 is chosen and the potential
      value remaining is 0. */
  lemma ZeroDrawOfLosingArm()
    ensures OptimalIndex([[0.5, 0.0]], 2) == 0
    ensures NonZeroColumn([[0.5, 0.0]], 0)
    ensures PotentialValueRemaining([[0.5, 0.0]], 2) == 0.0
  {
    var rounds := [[0.5, 0.0]];
    assert RoundWinner(rounds[0][..1]) == 0;
    assert RoundWinner(rounds[0]) == 0;
    assert rounds[..0] == [];
    assert Tally(rounds, 2) == [1, 0];
    assert MostWins([1, 0][..1]) == 0;
    assert GapRatios(rounds, 2, 0) == [0.0];
  }

  /** The potential value remaining is the 95th percentile of the gap
      ratios: at least floor(0.95 N) + 1 of the N rounds have a gap ratio not
      above it, and at least N - floor(0.95 N) rounds have one not below it. */
  lemma PotentialValueRemainingRank(rounds: seq<seq<real>>, n: nat)
    requires RoundsOfWidth(rounds, n) && |rounds| >= 1
    requires NonZeroColumn(rounds, OptimalIndex(rounds, n))
    ensures Count(GapRatios(rounds, n, OptimalIndex(rounds, n)),
                  AtMost, PotentialValueRemaining(rounds, n))
              >= PercentileIndex(95, |rounds|) + 1
    ensures Count(GapRatios(rounds, n, OptimalIndex(rounds, n)),
                  AtLeast, PotentialValueRemaining(rounds, n))
              >= |rounds| - PercentileIndex(95, |rounds|)
  {
    SortedSeqRank(GapRatios(rounds, n, OptimalIndex(rounds, n)), PercentileIndex(95, |rounds|));
  }

  /** Scans the tallies for the first largest one. */
  method MostWinsIndex(counts: array<int>) returns (maxVariantIndex: nat)
    requires counts.Length >= 1
    ensures maxVariantIndex == MostWins(counts[..])
  {
    var maxCount := 0;
    maxVariantIndex := 0;
    for i := 0 to counts.Length
      invariant maxVariantIndex < counts.Length
      invariant i > 0 ==> maxVariantIndex == MostWins(counts[..i])
      invariant i > 0 ==> maxCount == counts[maxVariantIndex]
    {
      if i == 0 || maxCount < counts[i] {
        maxCount := counts[i];
        maxVariantIndex := i;
      }
      assert counts[..i + 1][..i] == counts[..i];
    }
    assert counts[..counts.Length] == counts[..];
  }

  /** Rescans a stored round for its largest draw. */
  method MaxObservation(observations: seq<real>) returns (maxObs: real)
    requires |observations| > 0
    ensures maxObs == RoundMax(observations)
  {
    maxObs := 0.0;
    for j := 0 to |observations|
      invariant j > 0 ==> maxObs == RoundMax(observations[..j])
    {
      if j == 0 || maxObs < observations[j] {
        maxObs := observations[j];
      }
      assert observations[..j + 1][..j] == observations[..j];
    }
    assert observations[..|observations|] == observations;
  }

  /** Writes, for every stored round, the gap ratio against arm `opt` into
      `valueDist`, and returns the largest draw of the last round. */
  method FillValueDist(valueDist: array<real>, allObservations: array<seq<real>>,
                       ghost rounds: seq<seq<real>>, ghost n: nat, opt: nat)
    returns (maxObs: real)
    requires RoundsOfWidth(rounds, n) && opt < n && NonZeroColumn(rounds, opt)
    requires valueDist.Length == allObservations.Length == |rounds| >= 1
    requires allObservations[..] == rounds
    modifies valueDist
    ensures valueDist[..] == GapRatios(rounds, n, opt)
    ensures maxObs == RoundMax(rounds[|rounds| - 1])
  {
    maxObs := 0.0;
    for i := 0 to valueDist.Length
      invariant forall k :: 0 <= k < i ==> valueDist[k] == GapRatio(rounds[k], opt)
      invariant i > 0 ==> maxObs == RoundMax(rounds[i - 1])
    {
      var observations := allObservations[i];
      assert observations == rounds[i];

      maxObs := MaxObservation(observations);
      var optimalArmObs := observations[opt];
      valueDist[i] := (maxObs - optimalArmObs) / optimalArmObs;
    }
  }

  class Experiment {
    var name: string
    var bandits: seq<Bandit>

    constructor (name: string)
      ensures this.name == name && bandits == []
    {
      this.name := name;
      bandits := [];
    }

    /** Appends `arm` after the arms already present. */
    method AddBandit(arm: Bandit)
      modifies this`bandits
      ensures bandits == old(bandits) + [arm]
    {
      bandits := bandits + [arm];
    }

    /** Draws once from every arm for one round and finds the round's
        winner and its draw. */
    method SampleArms(round: seq<real>) returns (observations: array<real>, maxVariantIndex: nat, maxObs: real)
      requires |round| == |bandits| >= 1
      ensures observations[..] == round
      ensures maxVariantIndex == RoundWinner(round)
      ensures maxObs == RoundMax(round)
    {
      var n := |bandits|;
      observations := new real[n];
      maxVariantIndex, maxObs := 0, 0.0;
      for j := 0 to n
        invariant observations[..j] == round[..j]
        invariant maxVariantIndex < n
        invariant j > 0 ==> maxVariantIndex == RoundWinner(round[..j])
        invariant j > 0 ==> maxObs == round[maxVariantIndex]
      {
        observations[j] := bandits[j].Observe(round[j]);
        if j == 0 || maxObs < observations[j] {
          maxVariantIndex := j;
          maxObs := observations[j];
        }
        assert round[..j + 1][..j] == round[..j];
      }
      assert round[..n] == round;
    }

    /** Draws every arm once per round, stores each round's draws in
        `allObservations` and adds one to the tally of each round's winner. */
    method SampleRounds(allObservations: array<seq<real>>, counts: array<int>,
                        samples: seq<seq<real>>)
      requires |samples| == allObservations.Length
      requires RoundsOfWidth(samples, |bandits|) && counts.Length == |bandits|
      requires forall k :: 0 <= k < counts.Length ==> counts[k] == 0
      modifies allObservations, counts
      ensures allObservations[..] == samples
      ensures counts[..] == Tally(samples, |bandits|)
    {
      var n := |bandits|;
      var maxVariantIndex := 0;
      assert counts[..] == Tally(samples[..0], n);
      for i := 0 to |samples|
        invariant allObservations[..i] == samples[..i]
        invariant RoundsOfWidth(samples[..i], n)
        invariant forall k :: 0 <= k < n ==> counts[k] == Tally(samples[..i], n)[k]
        invariant maxVariantIndex < n
      {
        // One draw per arm for round i.
        var observations, roundMax;
        observations, maxVariantIndex, roundMax := SampleArms(samples[i]);
        allObservations[i] := observations[..];
        TallyStep(samples, n, i);
        counts[maxVariantIndex] := counts[maxVariantIndex] + 1;
      }
      assert samples[..|samples|] == samples;
      assert allObservations[..] == allObservations[..|samples|];
      assert counts[..] == Tally(samples, n);
    }

    /** Offline Thompson-sampling scorer over `iterations` rounds of draws. */
    method PickOptimalVariant(iterations: int, samples: seq<seq<real>>) returns (r: Result)
      requires |bandits| >= 1 && iterations >= 1
      requires |samples| == iterations
      requires RoundsOfWidth(samples, |bandits|)
      requires NonZeroColumn(samples, OptimalIndex(samples, |bandits|))
      ensures r.experiment == this && r.observations == iterations
      ensures r.optimal == bandits[OptimalIndex(samples, |bandits|)]
      ensures r.expectedValue == RoundMax(samples[iterations - 1])
      ensures r.potentialValueRemaining == PotentialValueRemaining(samples, |bandits|)
    {
      var allObservations := new seq<real>[iterations];
      var n := |bandits|;

      var maxObs := 0.0;
      var maxVariantIndex := 0;
      var valueDist := new real[iterations];
      var counts := new int[n](_ => 0);

      SampleRounds(allObservations, counts, samples);
      maxVariantIndex := MostWinsIndex(counts);
      ghost var opt := maxVariantIndex;
      assert opt == OptimalIndex(samples, n);

      var maxVariant := bandits[maxVariantIndex];
      maxObs := FillValueDist(valueDist, allObservations, samples, n, maxVariantIndex);
      assert valueDist[..] == GapRatios(samples, n, opt);

      SortInPlace(valueDist);
      var p95th := PercentileIndex(95, iterations);
      var pvr := valueDist[p95th];

      r := Result(this, maxVariant, maxObs, pvr, iterations);
    }
  }
}
