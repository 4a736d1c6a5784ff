# Crop rotation planner — a Dafny model

This project models the planning core of the crop rotation optimizer in
`script.js`, the `CropRotationOptimizer` methods from
`calculateOptimalRotation` to `applyUpgradeChance`. The game works like
this:

- A player has a list of plots. Each plot has two colour slots, each
  holding one of the three seed colours: yellow, red and blue. Both slots
  may hold the same colour.
- Every colour starts with a pool of 23 tier-1 seeds.
- Activating a plot retires it. Every colour the plot does not carry then
  goes through one upgrade round: T3 seeds move to T4 at 5 %, then T2 to T3
  at 20 %, then T1 to T2 at 25 %.
- A finished game scores 10 points per T3 seed and −5 per T4 seed.

The planner works in three steps:

1. It enumerates every sequence of plot indices of length 1 up to
   min(5, number of plots). It stops adding longer lengths once more than
   500 sequences exist.
2. It evaluates each sequence as a probability tree. Each activation
   branches into a success with weight 0.6 and a failure with weight 0.4.
3. It recommends the first sequence whose expected score is strictly the
   highest and above −1.

The modules follow the source's layers:

| module | file | models |
|---|---|---|
| `Wrappers` | `wrappers.dfy` | `Option`, and `Drawn`: a value paired with the position reached in the random stream |
| `Seeds` | `seeds.dfy` | colours, tier counts, the upgrade chances, `applyUpgradeChance`, `upgradeSeeds` |
| `GameState` | `game_state.dfy` | plots, `getInitialGameState`, `applyPlotActivation` |
| `Sequences` | `sequences.dfy` | `generateSequencesOfLength`, `generateOptimalSequences` |
| `Expectimax` | `expectimax.dfy` | `calculateExpectedOutcome`, with its leaves and their weighted sums |
| `Planner` | `planner.dfy` | `simulateSequenceWithProbabilities`, `calculateOptimalRotation` |

**Randomness.** `Math.random()` becomes a parameter `rnd: RandomStream`. It
is a function from positions to reals in [0, 1). Each operation also
takes the position `at` of the next unread number, and returns the position
after the numbers it read. The model consumes the stream in the same order
as the source:

1. one number per seed, when a tier holds 1 to 10 seeds;
2. T3, then T2, then T1 within a colour;
3. yellow, then red, then blue across colours;
4. the success transition, then the failure transition, then the success
   subtree, then the failure subtree.

A tier with more than 10 seeds reads no number. It moves
`Math.round(n · p)` seeds, which is written as `(n · k + 50) / 100` with
k ∈ {25, 20, 5}. The branch weights 0.6 and 0.4 and the expectations are
Dafny `real`s.

**What the code does at three points worth knowing:**

- Success and failure both retire the activated plot (`script.js:272-279`).
  Given the same random numbers, the two outcomes give identical
  transitions. In the evaluator the failure transition reads its numbers
  after the success transition's, so the two children can still differ.
- Only the colours the activated plot does not carry are upgraded
  (`script.js:261-269`).
- The 500-sequence cap is checked only after a whole length has been added
  (`script.js:150-156`). Five plots yield 780 sequences, and more plots can
  yield far more: six give 1554.

## Model

| member | source | states |
|---|---|---|
| Seeds.ApplyUpgradeChance | script.js:301-318 | At most the given seeds move. Zero seeds move none and read no random number. Above 10 seeds, the count is within half a seed of n·p and no number is read. For 1–10 seeds, exactly one number is read per seed. |
| Seeds.SampleCountsDraws | script.js:306-313 | For a sampled tier, all seeds move iff every draw falls below the chance. No seed moves iff no draw falls below it. |
| Seeds.Successes | script.js:307-313 | The binomial sample never exceeds the seed count. Chance 0 moves none and chance 100 moves all. |
| Seeds.RoundedShare | script.js:317 | `Math.round(n·p)` lies within half a seed of the exact share, rounding halves up, and never exceeds n. |
| Seeds.UpgradeSeeds | script.js:284-299 | One in-place round moves seeds up exactly one tier. T4 gains at most the old T3 count, and T1 and T2 together lose at most the old T2 count, so seeds promoted this round are not promoted again. No seed is created or lost. The stream only moves forward. |
| Seeds.ExpectedRound | script.js:284-299 | The reference round, in which every tier moves its rounded share of its pre-round count, is itself a valid upgrade round. |
| Seeds.UpgradeSeedsIsExpectedRound | script.js:284-299 | When no tier is sampled, the top-down in-place round equals the reference round computed from the pre-round counts, which is the ordering the source comment at line 285 promises. It reads no random number. |
| Seeds.ChanceWithoutSampling | script.js:303-317 | A tier with no seeds or more than 10 seeds moves exactly its rounded share and reads no number. |
| Seeds.UpgradedFromIsRound | script.js:284-299 | A pool produced by `upgradeSeeds` from a given pool is an upgrade round of it. When no tier is sampled it equals the reference round. |
| Seeds.FreshPoolRound | script.js:284-299 | A fresh pool of 23 T1 seeds becomes 17 T1 and 6 T2, whatever the stream. |
| GameState.InitialState | script.js:181-196 | Plot i carries index i and the configured colours, and every plot is active. Each colour's pool is 23 T1 seeds and nothing else. |
| GameState.FindPlot | script.js:258 | Returns the first plot carrying the index, or nothing when no plot carries it. |
| GameState.FindPlotWellIndexed | script.js:189-193 | In the initial plot list, index i is found at position i, and an index beyond the list is not found. |
| GameState.UpgradedColors | script.js:261-264 | A colour is upgraded iff the activated plot does not carry it. The list keeps the yellow, red, blue order. |
| GameState.UpgradeColors | script.js:266-269 | Every colour not in the list is untouched, and the stream only moves forward. |
| GameState.UpgradeColorsRunsRounds | script.js:266-269 | Each listed colour's new pool is what `upgradeSeeds` makes of its old pool, read from some position at or after the starting one. |
| GameState.ApplyPlotActivation | script.js:246-282 | The activation fails exactly when no plot carries the index, where the source throws a TypeError. Otherwise the plot list keeps its length and the stream only moves forward. |
| GameState.ApplyPlotActivationEffects | script.js:258-279 | Only the activated plot changes, and it becomes inactive. Its own colours' pools stay the same. Every other colour's new pool is the result of `upgradeSeeds` on its old pool, read from a position at or after the starting one, and so is one upgrade round. |
| GameState.ApplyPlotActivationUpgrades | script.js:261-269 | For a colour the activated plot does not carry, the new pool is `upgradeSeeds` of the old one. When no tier of that pool is sampled, it equals the reference round. |
| GameState.ApplyPlotActivationConserves | script.js:246-282 | An activation creates and destroys no seed of any colour. |
| GameState.OutcomeDoesNotChangeTransition | script.js:271-279 | Success and failure produce the same next state. |
| GameState.SingleYellowRedPlot | script.js:246-299 | Activating the only plot of a fresh yellow/red configuration retires it, turns blue into 17 T1 and 6 T2, and leaves yellow and red at 23 T1. |
| Sequences.GenerateSequencesOfLength | script.js:163-174 | Completing a prefix to a length gives plotCount^(remaining) sequences. Each one extends the prefix to that length with indices below plotCount. |
| Sequences.PlotIndexLoop | script.js:169-173 | The loop over the next index, from a starting index, gives (plotCount − from) blocks. Each is a completion whose next index is at least `from`. |
| Sequences.GenerateSequencesOfLengthSorted | script.js:163-174 | The completions come out in strictly increasing lexicographic order, so there are no duplicates. |
| Sequences.GenerateSequencesOfLengthComplete | script.js:163-174 | Every completion of the prefix with indices below plotCount is generated. |
| Sequences.EnumeratesExactly | script.js:163-174 | A sequence is generated from the empty prefix iff it has the requested length and all its indices are below plotCount. |
| Sequences.Blocks | script.js:150-151 | The reference enumeration of all lengths 1..L has Σ plotCount^l sequences, ordered by nondecreasing length. |
| Sequences.GenerateOptimalSequences | script.js:146-161 | Every sequence has a length between 1 and min(5, plotCount) and indices below plotCount. Lengths never decrease. |
| Sequences.StopLength | script.js:150-156 | The last length added is the first whose running total exceeds 500, or min(5, plotCount) when none does. Every shorter prefix stayed within the cap. |
| Sequences.GenerateOptimalSequencesIsBlocks | script.js:146-161 | The generator returns exactly the whole blocks of lengths 1 up to its stopping length. |
| Sequences.FivePlotsOvershootCap | script.js:150-156 | Five plots give 5 + 25 + 125 + 625 = 780 sequences. The cap check after each length does not keep the count at 500. |
| Sequences.SixPlotsOvershootCap | script.js:150-156 | Six plots give 6 + 36 + 216 + 1296 = 1554 sequences. |
| Sequences.SmallConfigurationsComplete | script.js:150-156 | With at most 4 plots the cap is never reached, and every sequence of every length up to the plot count is generated. |
| Expectimax.CalculateExpectedOutcome | script.js:198-244 | The result keeps the probability it was entered with. It has at least 1 and at most 2^(steps) leaves. The stream only moves forward. |
| Expectimax.OutcomeMassIsProbability | script.js:205-243 | The leaves' probabilities add up to the probability the evaluation was entered with. |
| Expectimax.ExpectationsAreWeightedSums | script.js:200-243 | The expected score, T3 and T4 equal the probability-weighted sums of the leaves' score, T3 and T4. |
| Expectimax.SkipUnavailableStep | script.js:219-227 | A step whose plot is missing or retired is skipped, with the same state, probability and stream position. |
| Expectimax.SkipAllUnavailable | script.js:219-227 | A sequence of only unavailable plots evaluates like the empty sequence. |
| Expectimax.AvailableStepSplits | script.js:229-243 | An available step splits the leaves into a success part of mass p·0.6 followed by a failure part of mass p·0.4. |
| Expectimax.LeavesConserveSeeds | script.js:200-243 | Each leaf's T3/T4 totals are those of its own pools. Each colour holds as many seeds as at the start. |
| Expectimax.LeafProbabilitiesKeepSign | script.js:233-234 | Leaf probabilities are never negative, and they are positive when the entry probability is. |
| Planner.SimulateSequenceWithProbabilities | script.js:176-179 | Evaluating from the initial state gives probability 1. The leaf masses sum to 1. The expected score lies in [−345, 690]. Expected T3 and T4 each lie in [0, 69]. |
| Planner.SimulationBounded | script.js:176-179 | The bounds above, for the evaluation of any sequence from the initial state. |
| Planner.AverageBetween | script.js:201-207 | A sum of per-leaf quantities, each between lo and hi times its leaf's mass, lies between lo and hi when the masses add up to 1. |
| Planner.WeightedSumsBounded | script.js:201-207 | Leaves of the full game with total mass 1 average a score between −5 and 10 points per seed and T3/T4 counts between 0 and 69. |
| Planner.LeafBounded | script.js:201-203 | A leaf of the full game holds at most 69 seeds in T3 and T4, so its score is between −345 and 690. |
| Planner.SimulateAll | script.js:129-130 | The candidates are evaluated in order, with the stream read on from one to the next. There is one result per candidate, each with probability 1. |
| Planner.SelectBest | script.js:125-143 | The selector loop returns no sequence iff no candidate scores above −1. In that case the score is −1 and there are no results. Otherwise it returns the first candidate whose score is strictly above every earlier one and at least every later one, together with that candidate's results. |
| Planner.CalculateOptimalRotation | script.js:120-144 | The same choice over the generated sequences for the configured plots, evaluated one after another from the initial state. |

## Left out

- The rendering and interaction code (DOM building, plot editing, result display, risk labels, sorting for display, the loading spinner and its delay) is outside the planner's logic.
- `console.log` of the sequence count is output only.
- Floating point: the chances and branch weights are exact reals and `Math.round` is exact integer rounding. A rounded tier holds 11 to 23 seeds, since a colour never has more than 23. At those counts no share at 5 % or 20 % is an exact half, and 0.25 is exact in binary. The double-precision products therefore round the same way.
- `Math.random()` is a parameter stream of reals in [0, 1). Nothing is claimed about its distribution.
- A missing plot index makes the source throw a TypeError when it reads the plot's colours. The model returns `None` instead. The evaluator only activates plots it has found, so `None` never reaches it.
- `generateSequencesOfLength` pushes into a shared array and mutates `current` in place. The model returns the appended block and passes the prefix by value.
- Seeds.Successes: the sample is stated through its count of draws below the chance, not as a binomial distribution.
