# bandits — a Dafny model of the Thompson-sampling scorer

The Go program `derekgr/bandits` scores an A/B experiment offline. Each
arm (`Bandit`) is a Beta-Bernoulli posterior over its conversion rate.
The posterior starts from a uniform Beta(1, 1) prior and is updated with a
success count and a trial count. The experiment (`Experiment`) is an
ordered list of arms. `pickOptimalVariant` runs Thompson sampling:

1. In every round it draws one sample per arm.
2. The round's winner is the first arm holding the round's largest draw.
3. It counts how many rounds each arm wins.
4. The arm with the most wins is chosen as optimal. On ties the first
   such arm is chosen.
5. It reports the "potential value remaining": the 95th percentile of the
   per-round gap ratio `(t_max - t*) / t*`. Here `t_max` is the round's
   largest draw and `t*` is the chosen arm's draw in that round.

`Bandit.Mean` estimates an arm's mean and spread by sampling.
`Bandit.Compare` reads three percentiles off the paired differences
between two arms' samples.

The model has three modules:

- `Sorting` (sorting.dfy) covers the role `sort.Float64s` plays.
  - `SortedSeq` is the unique ascending permutation of a sequence.
  - `SortInPlace` is an in-place insertion sort on an array, proved to
    leave exactly `SortedSeq` of its input.
  - `Count` counts the elements on one side of a threshold. It is used to
    state what a percentile is.
- `Bandits` (bandit.go) contains:
  - the class `Bandit`, with the same fields as the Go struct;
  - the posterior shape parameters;
  - `Mean`, whose two loops are the methods `SampleBuffer` and
    `DeviationTotal`;
  - `Compare`;
  - the integer percentile index.
- `Experiments` (experiment.go) contains:
  - the class `Experiment`;
  - the datatype `Result`;
  - the scorer as `PickOptimalVariant`. Its loops are split into the
    methods `SampleRounds`, `SampleArms`, `MostWinsIndex`, `FillValueDist`
    and `MaxObservation`.

Each of these methods is proved against a specification function:

| specification function | what it defines |
|---|---|
| `RoundWinner` | first index of a round's maximum |
| `RoundMax` | a round's largest draw |
| `Tally` | per-arm counts of round wins |
| `MostWins` | first index of the largest count |
| `OptimalIndex` | the chosen arm |
| `GapRatios` | the per-round gap ratios |
| `PotentialValueRemaining` | the 95th percentile of the gap ratios |

Lemmas then relate these functions to independent definitions and to the
properties the program relies on:

- `WinsOf` counts one arm's wins directly. It is independent of `Tally`.
- `Total` is the sum of the counts.
- `Count` gives the percentile rank of the reported value.

The Beta sampler (`stat.NextBeta`) is outside the model. Every draw it
would produce is an input:

- `Bandit.Observe(draw)` returns the draw it is given.
- `Bandit.Mean` takes a `MeanDraws`. Its `buffered[i]` is the draw the Go
  loop stores in `obs[i]`, and `summed[i]` is the next draw it adds to
  `total`.
- `PickOptimalVariant` takes `samples`, where `samples[i][j]` is arm `j`'s
  draw in round `i`.

Sample values are `real`. Counts are unbounded integers.

The code does no validation:

- `NewBandit` stores any counts it is given.
- `pickOptimalVariant` checks neither the number of arms nor the number
  of rounds, and fails with an index out of range when either is zero.
  With no arms and at least one round it fails first at
  `counts[maxVariantIndex]++` (experiment.go:55). With no arms and no
  rounds it fails at `e.Bandits[maxVariantIndex]` (experiment.go:66). With
  arms but no rounds it fails at `valueDist[int(p95th)]` (experiment.go:89).
- It divides only by the chosen arm's draw in each round
  (experiment.go:82-83). A zero draw of any other arm is accepted.

The model follows the code here. The constructor accepts any counts, and
its contract states exactly when the shapes are proper.
`PickOptimalVariant` requires at least one arm and at least one round,
which is what the indexing demands. It requires non-zero draws only in
the chosen arm's column (`NonZeroColumn`), because those are the only
divisors. There is no sequential (online) learning and no `Chosen` update
in the code, so there is none in the model.

## Model

| member | source | states |
|---|---|---|
| Sorting.SortedSeq | experiment.go:87 | the specification of `sort.Float64s`: an ascending sequence with the same elements (multiset) and length as the input |
| Sorting.SortedPermutationUnique | experiment.go:87 | two ascending sequences with the same multiset of elements are equal, so any correct sort yields `SortedSeq` of its input |
| Sorting.SortInPlace | bandit.go:83-84 | the in-place sort leaves the array ascending, a permutation of its old contents, and equal to `SortedSeq` of them |
| Sorting.SortedSeqRank | experiment.go:86-89 | the element at rank k of the sorted arrangement has at least k+1 input elements not above it and at least n-k not below it |
| Bandits.PercentileIndex | bandit.go:85-87 | `(p*n)/100` is the floor of p% of n, and it is a valid index (< n) of a non-empty buffer of n values |
| Bandits.PosteriorShape | bandit.go:52-55 | alpha is at least 1 (and positive) exactly when rewards >= 0; beta is at least 1 (and positive) exactly when rewards <= observations |
| Bandits.Bandit.constructor | bandit.go:22-27 | name, `observations == total`, `rewards == successes` and `chosen == 0` are stored; alpha and beta are the posterior shapes of those counts; both are >= 1 exactly when 0 <= successes <= total |
| Bandits.Bandit.UpdateBetaParams | bandit.go:52-55 | sets `alpha = 1 + rewards` and `beta = 1 + observations - rewards`, touching no other field |
| Bandits.Bandit.Observe | bandit.go:29-31 | returns the sampler's draw and changes no field of the arm |
| Bandits.Bandit.Mean | bandit.go:34-50 | returns a fresh buffer of exactly `MeanIterations` draws, the buffered stream in order; mean is the sum of the other, interleaved stream over `MeanIterations`; the variance is the sum of squared deviations of the buffer from that mean over `MeanIterations` |
| Bandits.Bandit.SampleBuffer | bandit.go:35-40 | the first sampling loop: a fresh buffer holding the buffered draws in order, and the total of the other, interleaved draws |
| Bandits.DeviationTotal | bandit.go:43-45 | the second loop: the squared deviations of the buffer from the mean, summed in buffer order |
| Bandits.Sum | bandit.go:36-42 | the running total of the draws; when the draws are probabilities in [0, 1] it lies between 0 and their number, so the sampled mean lies in [0, 1] |
| Bandits.SquaredDeviations | bandit.go:43-45 | the squared-deviation sum is never negative, and it is zero when every draw equals the mean |
| Bandits.Differences | bandit.go:80 | one absolute difference per pair of samples |
| Bandits.RelativeDifferences | bandit.go:79 | one relative difference per pair of samples, defined only when the other arm's samples are non-zero |
| Bandits.PairDifferences | bandit.go:76-81 | fills two fresh, distinct buffers with the pairwise relative and absolute differences, index by index |
| Bandits.Percentiles | bandit.go:85-90 | reads three values at the 5th, 50th and 95th percentile indices, which are in ascending order when the buffer is sorted |
| Bandits.Bandit.Compare | bandit.go:71-92 | results are the elements at indices 500, 5000 and 9500 of the sorted relative and of the sorted absolute differences, and each triple is ascending |
| Experiments.RoundWinner | experiment.go:45-52 | the index of a largest draw of the round, and every earlier index holds a strictly smaller draw (the first maximum wins ties) |
| Experiments.RoundMax | experiment.go:74-79 | a draw of the round that no draw of the round exceeds |
| Experiments.MostWins | experiment.go:58-64 | the index of a largest tally, and every earlier index holds a strictly smaller tally |
| Experiments.Tally | experiment.go:41-56 | one tally per arm |
| Experiments.WinsOf | experiment.go:48-55 | an arm wins at most as many rounds as there are |
| Experiments.OptimalIndex | experiment.go:58-66 | the chosen arm is one of the arms |
| Experiments.GapRatio | experiment.go:82-83 | the gap `(t_max - t*) / t*` of one round: not negative when the chosen arm's draw is positive, and zero exactly when the chosen arm holds the round's largest draw |
| Experiments.GapRatios | experiment.go:81-83 | one gap ratio per round |
| Experiments.PotentialValueRemaining | experiment.go:86-89 | the element at index floor(0.95 N) of the ascending gap ratios against the chosen arm; it is one of those gap ratios |
| Experiments.TallyCountsWins | experiment.go:43-56 | every tally equals the number of rounds that arm wins |
| Experiments.TallyConservation | experiment.go:41-56 | the tallies are non-negative and sum to the number of rounds |
| Experiments.OptimalHasMostWins | experiment.go:58-64 | the chosen arm wins at least as many rounds as any arm and strictly more than every arm before it |
| Experiments.PotentialValueRemainingBounds | experiment.go:86-89 | the potential value remaining is the gap ratio of some round, and it is not negative when the chosen arm's draws are positive |
| Experiments.ZeroDrawOfLosingArm | experiment.go:82-89 | with two arms and the single round [0.5, 0.0], arm 0 is chosen, its column has no zero, and the potential value remaining is 0 |
| Experiments.PotentialValueRemainingRank | experiment.go:86-89 | at least floor(0.95 N) + 1 of the N gap ratios are not above the potential value remaining and at least N - floor(0.95 N) are not below it |
| Experiments.MostWinsIndex | experiment.go:58-64 | the tally scan returns the first largest tally's index |
| Experiments.MaxObservation | experiment.go:74-79 | the rescan of a stored round returns the round's largest draw |
| Experiments.FillValueDist | experiment.go:71-84 | writes each round's gap ratio against the chosen arm, in round order, and leaves the last round's largest draw |
| Experiments.Experiment.constructor | experiment.go:24-26 | an experiment with the given name and no arms |
| Experiments.Experiment.AddBandit | experiment.go:28-30 | the arm list becomes the old list followed by the new arm |
| Experiments.Experiment.SampleArms | experiment.go:44-52 | stores the round's draws in arm order and finds the round's winner and its draw |
| Experiments.Experiment.SampleRounds | experiment.go:43-56 | stores every round's draws and leaves in `counts` the tally of round wins |
| Experiments.Experiment.PickOptimalVariant | experiment.go:32-92 | the result names this experiment and the number of rounds; its optimal arm is the arm with the most wins (first on ties); its expected value is the last round's largest draw; its potential value remaining is the 95th percentile of the gap ratios against that arm |

## Left out

- main.go is not part of this model. It does flag parsing, file and stdin reading, line splitting and integer parsing, all of which is I/O.
- `Experiment.String`, `Result.String` and `Bandit.String` (experiment.go:94-120, bandit.go:57-66) are text formatting and are not modelled. This includes the rule that the optimal arm is compared against `Bandits[0]` only when it is a different arm (experiment.go:106).
- `stat.NextBeta` and the time-based `rand.Seed` (bandit.go:30, experiment.go:33) are not modelled. Their draws are inputs, and no distribution or seeding is modelled.
- Bandits.Bandit.Mean: returns the variance instead of its square root, because `math.Sqrt` (bandit.go:47) is floating-point library code. `math.Pow(x, 2)` (bandit.go:44) is modelled as `x * x`.
- Bandits.Bandit.Mean: the one interleaved stream of draws is split into two sequences. The model keeps which draw goes where but does not model one sampler being called 2 × `MeanIterations` times in that order.
- Sample values are `real`, not IEEE `float64`, so rounding in sums, differences and quotients is not modelled.
- Division by a zero draw gives Inf or NaN in Go. The model instead requires non-zero divisors: every draw of the other arm in `Compare` (bandit.go:79), and every draw of the chosen arm in the scorer (experiment.go:83).
- Bandits.PercentileIndex: computes `int(p/100 * float64(n))` as `(p*n)/100` on integers. For the percentiles used (5, 50 and 95) the two agree for every n up to 10^15, which covers `MeanIterations` = 10000 and any round count that can be allocated. For larger n the rounded float product can reach the next integer: for n = 2400000000000001, Go's 95th-percentile index is 2280000000000001, while the model's is 2280000000000000.
- Counts and `Result.Observations` are unbounded integers. The `int64` and `int` widths and their overflow are not modelled.
- Bandits.SquaredDeviations: does not prove the converse, that a zero squared-deviation sum forces every draw to equal the mean.
- bandit_test.go is not modelled. It is a statistical convergence check, and it calls `Mean` as if it returned two values instead of three.
