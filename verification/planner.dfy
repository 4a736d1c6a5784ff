/** The selector (`calculateOptimalRotation` and
    `simulateSequenceWithProbabilities`): every candidate sequence is
    evaluated from the initial state with probability 1, and the first one
    whose expected score is strictly the highest, and above -1, wins. */
module Planner {
  import opened Wrappers
  import opened Seeds
  import opened GameState
  import opened Sequences
  import opened Expectimax

  /** The score the search starts from; a sequence has to beat it. */
  const NoScore: real := -1.0

  /** Seeds in the game over all colours: 3 x 23. */
  const AllStartingSeeds: nat := 3 * StartingT1

  /** Expected outcome of one candidate from the initial state. Its leaves
      carry probability 1 in all, and since no seed is ever created the
      expected score lies between -5 and 10 points per seed in the game. */
  function SimulateSequenceWithProbabilities(config: seq<PlotConfig>, sequence: seq<nat>, rnd: RandomStream, at: nat)
    : (r: Drawn<Expectation>)
    ensures r.value.probability == 1.0
    ensures SumOver(r.value.outcomes, Mass) == 1.0
    ensures (T4Points * AllStartingSeeds) as real <= r.value.expectedScore <= (T3Points * AllStartingSeeds) as real
    ensures 0.0 <= r.value.expectedT3 <= AllStartingSeeds as real
    ensures 0.0 <= r.value.expectedT4 <= AllStartingSeeds as real
  {
    SimulationBounded(config, sequence, rnd, at);
    CalculateExpectedOutcome(sequence, InitialState(config), 1.0, rnd, at)
  }

  /** A leaf reached from the initial state: its totals are read off its
      pools, every colour still holds 23 seeds, and its weight is not negative. */
  predicate FromFullGame(o: Outcome) {
    && o.probability >= 0.0
    && o.totalT3 == TotalT3(o.seedCounts)
    && o.totalT4 == TotalT4(o.seedCounts)
    && forall c :: Total(o.seedCounts.Get(c)) == StartingT1
  }

  lemma SimulationBounded(config: seq<PlotConfig>, sequence: seq<nat>, rnd: RandomStream, at: nat)
    ensures var e := CalculateExpectedOutcome(sequence, InitialState(config), 1.0, rnd, at).value;
      && SumOver(e.outcomes, Mass) == 1.0
      && (T4Points * AllStartingSeeds) as real <= e.expectedScore <= (T3Points * AllStartingSeeds) as real
      && 0.0 <= e.expectedT3 <= AllStartingSeeds as real
      && 0.0 <= e.expectedT4 <= AllStartingSeeds as real
  {
    var s := InitialState(config);
    var os := CalculateExpectedOutcome(sequence, s, 1.0, rnd, at).value.outcomes;
    OutcomeMassIsProbability(sequence, s, 1.0, rnd, at);
    ExpectationsAreWeightedSums(sequence, s, 1.0, rnd, at);
    LeavesFromFullGame(sequence, s, rnd, at);
    WeightedSumsBounded(os);
  }

  /** Leaves of the full game whose probabilities add up to 1 average to a
      score between -345 and 690 and to T3 and T4 counts between 0 and 69. */
  lemma WeightedSumsBounded(os: seq<Outcome>)
    requires forall o :: o in os ==> FromFullGame(o)
    requires SumOver(os, Mass) == 1.0
    ensures -345.0 <= SumOver(os, WeightedScore) <= 690.0
    ensures 0.0 <= SumOver(os, WeightedT3) <= 69.0
    ensures 0.0 <= SumOver(os, WeightedT4) <= 69.0
  {
    forall o | o in os
      ensures -345.0 * Mass(o) <= WeightedScore(o) <= 690.0 * Mass(o)
      ensures 0.0 * Mass(o) <= WeightedT3(o) <= 69.0 * Mass(o)
      ensures 0.0 * Mass(o) <= WeightedT4(o) <= 69.0 * Mass(o)
    {
      LeafBounded(o);
    }
    AverageBetween(os, WeightedScore, -345.0, 690.0);
    AverageBetween(os, WeightedT3, 0.0, 69.0);
    AverageBetween(os, WeightedT4, 0.0, 69.0);
  }

  /** A sum of per-leaf quantities that each lie between lo and hi times the
      leaf's mass lies between lo and hi when the masses add up to 1. */
  lemma AverageBetween(os: seq<Outcome>, f: Outcome -> real, lo: real, hi: real)
    requires forall o :: o in os ==> lo * Mass(o) <= f(o) <= hi * Mass(o)
    requires SumOver(os, Mass) == 1.0
    ensures lo <= SumOver(os, f) <= hi
  {
    SumOverBounded(os, f, Mass, hi);
    SumOverBoundedBelow(os, f, Mass, lo);
  }

  /** Every leaf of an evaluation from the initial state is one of the full game. */
  lemma LeavesFromFullGame(sequence: seq<nat>, s: State, rnd: RandomStream, at: nat)
    requires forall c :: s.seedCounts.Get(c) == Tiers(StartingT1, 0, 0, 0)
    ensures forall o :: o in CalculateExpectedOutcome(sequence, s, 1.0, rnd, at).value.outcomes ==> FromFullGame(o)
  {
    LeavesConserveSeeds(sequence, s, 1.0, rnd, at);
    LeafProbabilitiesKeepSign(sequence, s, 1.0, rnd, at);
  }

  /** A leaf of the full game scores between -5 and 10 points per seed, and
      holds at most all 69 seeds in T3 and in T4, each weighted by its probability. */
  lemma LeafBounded(o: Outcome)
    requires FromFullGame(o)
    ensures -345.0 * Mass(o) <= WeightedScore(o) <= 690.0 * Mass(o)
    ensures 0.0 <= WeightedT3(o) <= 69.0 * Mass(o)
    ensures 0.0 <= WeightedT4(o) <= 69.0 * Mass(o)
  {
    LeafCounts(o);
    LeafWeighted(o);
  }

  /** A leaf's weighted score, T3 and T4 stay between the weighted bounds of
      its unweighted ones. */
  lemma LeafWeighted(o: Outcome)
    requires o.probability >= 0.0
    requires o.totalT3 + o.totalT4 <= AllStartingSeeds
    requires T4Points * AllStartingSeeds <= Score(o.totalT3, o.totalT4) <= T3Points * AllStartingSeeds
    ensures -345.0 * Mass(o) <= WeightedScore(o) <= 690.0 * Mass(o)
    ensures 0.0 <= WeightedT3(o) <= 69.0 * Mass(o)
    ensures 0.0 <= WeightedT4(o) <= 69.0 * Mass(o)
  {
    WeightedScoreBetween(o);
    WeightedT3Between(o);
    WeightedT4Between(o);
    assert Mass(o) == o.probability;
    assert WeightedScore(o) == o.probability * Score(o.totalT3, o.totalT4) as real;
    assert WeightedT3(o) == o.probability * o.totalT3 as real;
    assert WeightedT4(o) == o.probability * o.totalT4 as real;
  }

  /** A leaf of the full game holds at most 69 seeds in T3 and T4 together. */
  lemma LeafCounts(o: Outcome)
    requires FromFullGame(o)
    ensures o.totalT3 + o.totalT4 <= AllStartingSeeds
    ensures T4Points * AllStartingSeeds <= Score(o.totalT3, o.totalT4) <= T3Points * AllStartingSeeds
  {
    var p := o.seedCounts;
    assert Total(p.Get(Yellow)) == StartingT1 && Total(p.Get(Red)) == StartingT1 && Total(p.Get(Blue)) == StartingT1;
    assert AllSeeds(p) == AllStartingSeeds;
    TiersBoundSeeds(p);
    ScoreBounded(o.totalT3, o.totalT4);
  }

  lemma WeightedScoreBetween(o: Outcome)
    requires o.probability >= 0.0
    requires -345 <= Score(o.totalT3, o.totalT4) <= 690
    ensures o.probability * -345.0 <= o.probability * Score(o.totalT3, o.totalT4) as real <= o.probability * 690.0
  {
    WeightedBetween(o.probability, -345.0, Score(o.totalT3, o.totalT4) as real, 690.0);
  }

  lemma WeightedT3Between(o: Outcome)
    requires o.probability >= 0.0 && o.totalT3 <= 69
    ensures o.probability * 0.0 <= o.probability * o.totalT3 as real <= o.probability * 69.0
  {
    WeightedBetween(o.probability, 0.0, o.totalT3 as real, 69.0);
  }

  lemma WeightedT4Between(o: Outcome)
    requires o.probability >= 0.0 && o.totalT4 <= 69
    ensures o.probability * 0.0 <= o.probability * o.totalT4 as real <= o.probability * 69.0
  {
    WeightedBetween(o.probability, 0.0, o.totalT4 as real, 69.0);
  }

  /** The T3 and T4 seeds together are at most all the seeds. */
  lemma TiersBoundSeeds(p: Pools)
    ensures TotalT3(p) + TotalT4(p) <= AllSeeds(p)
  {
  }

  lemma ScoreBounded(t3: nat, t4: nat)
    requires t3 + t4 <= AllStartingSeeds
    ensures T4Points * AllStartingSeeds <= Score(t3, t4) <= T3Points * AllStartingSeeds
  {
  }

  /** Weighting by a nonnegative probability keeps a value between its
      bounds: the differences to the bounds stay nonnegative when weighted. */
  lemma WeightedBetween(q: real, lo: real, v: real, hi: real)
    requires q >= 0.0 && lo <= v <= hi
    ensures q * lo <= q * v <= q * hi
  {
    ProductNonnegative(q, v - lo);
    ProductNonnegative(q, hi - v);
  }

  lemma ProductNonnegative(a: real, b: real)
    requires a >= 0.0 && b >= 0.0
    ensures a * b >= 0.0
  {
  }

  /** Evaluates the candidates in order, reading the random stream on from
      one evaluation to the next. */
  function SimulateAll(config: seq<PlotConfig>, sequences: seq<seq<nat>>, rnd: RandomStream, at: nat)
    : (r: Drawn<seq<Expectation>>)
    ensures |r.value| == |sequences|
    ensures forall i :: 0 <= i < |sequences| ==> r.value[i].probability == 1.0
    decreases |sequences|
  {
    if |sequences| == 0 then Drawn([], at)
    else
      var first := SimulateSequenceWithProbabilities(config, sequences[0], rnd, at);
      var rest := SimulateAll(config, sequences[1..], rnd, first.next);
      Drawn([first.value] + rest.value, rest.next)
  }

  /** The recommendation: the winning sequence and its evaluation, or none. */
  datatype Rotation = Rotation(sequence: Option<seq<nat>>, results: Option<Expectation>, score: real)

  /** Candidate k wins: its score is above -1, strictly above every earlier
      candidate's and at least every later one's, and the rotation reports it. */
  ghost predicate IsFirstBest(sequences: seq<seq<nat>>, results: seq<Expectation>, k: nat, rotation: Rotation)
    requires k < |sequences| == |results|
  {
    && rotation.sequence == Some(sequences[k])
    && rotation.results == Some(results[k])
    && rotation.score == results[k].expectedScore > NoScore
    && (forall j :: 0 <= j < k ==> results[j].expectedScore < rotation.score)
    && (forall j :: k < j < |results| ==> results[j].expectedScore <= rotation.score)
  }

  /** Picks the first candidate whose expected score is strictly higher than
      every earlier one and than -1; later candidates that only tie do not
      replace it. With no candidate above -1 there is no sequence. */
  method CalculateOptimalRotation(config: seq<PlotConfig>, rnd: RandomStream, at: nat)
    returns (rotation: Rotation, next: nat)
    ensures var sequences := GenerateOptimalSequences(|config|);
      var all := SimulateAll(config, sequences, rnd, at);
      && next == all.next
      && (rotation.sequence.None? <==> forall j :: 0 <= j < |sequences| ==> all.value[j].expectedScore <= NoScore)
      && (rotation.sequence.None? ==> rotation.results.None? && rotation.score == NoScore)
      && (rotation.sequence.Some? ==>
            exists k :: 0 <= k < |sequences| && IsFirstBest(sequences, all.value, k, rotation))
  {
    var sequences := GenerateOptimalSequences(|config|);
    rotation, next := SelectBest(config, sequences, rnd, at);
  }

  /** The loop of the selector over any list of candidates. */
  method SelectBest(config: seq<PlotConfig>, sequences: seq<seq<nat>>, rnd: RandomStream, at: nat)
    returns (rotation: Rotation, next: nat)
    ensures var all := SimulateAll(config, sequences, rnd, at);
      && next == all.next
      && (rotation.sequence.None? <==> forall j :: 0 <= j < |sequences| ==> all.value[j].expectedScore <= NoScore)
      && (rotation.sequence.None? ==> rotation.results.None? && rotation.score == NoScore)
      && (rotation.sequence.Some? ==>
            exists k :: 0 <= k < |sequences| && IsFirstBest(sequences, all.value, k, rotation))
  {
    ghost var all := SimulateAll(config, sequences, rnd, at).value;
    ghost var last := SimulateAll(config, sequences, rnd, at).next;
    var bestSequence: Option<seq<nat>> := None;
    var bestExpectedScore := NoScore;
    var bestResults: Option<Expectation> := None;
    ghost var bestIndex: int := -1;
    var cursor := at;
    var i := 0;
    while i < |sequences|
      invariant 0 <= i <= |sequences| == |all|
      invariant SimulateAll(config, sequences[i..], rnd, cursor) == Drawn(all[i..], last)
      invariant Leading(sequences, all, i, bestIndex, Rotation(bestSequence, bestResults, bestExpectedScore))
    {
      var result := SimulateSequenceWithProbabilities(config, sequences[i], rnd, cursor);
      SimulateAllAdvance(config, sequences, rnd, cursor, i, all, last);
      LeadingStep(sequences, all, i, bestIndex, Rotation(bestSequence, bestResults, bestExpectedScore));
      if result.value.expectedScore > bestExpectedScore {
        bestExpectedScore := result.value.expectedScore;
        bestSequence := Some(sequences[i]);
        bestResults := Some(result.value);
        bestIndex := i;
      }
      cursor := result.next;
      i := i + 1;
    }
    rotation := Rotation(bestSequence, bestResults, bestExpectedScore);
    next := cursor;
    LeadingFinal(sequences, all, bestIndex, rotation);
  }

  /** After the first i candidates, the selector's state is either "no
      candidate above -1 yet" or the first best among them. */
  ghost predicate Leading(sequences: seq<seq<nat>>, all: seq<Expectation>, i: nat, best: int, rotation: Rotation)
    requires i <= |sequences| == |all|
  {
    && -1 <= best < i
    && (best == -1 ==>
          && rotation == Rotation(None, None, NoScore)
          && forall j :: 0 <= j < i ==> all[j].expectedScore <= NoScore)
    && (best >= 0 ==>
          && rotation.sequence == Some(sequences[best])
          && rotation.results == Some(all[best])
          && rotation.score == all[best].expectedScore > NoScore
          && (forall j :: 0 <= j < best ==> all[j].expectedScore < rotation.score)
          && (forall j :: best < j < i ==> all[j].expectedScore <= rotation.score))
  }

  /** Considering candidate i keeps the selector's state leading: a strictly
      higher score takes over, anything else leaves it as it was. */
  lemma LeadingStep(sequences: seq<seq<nat>>, all: seq<Expectation>, i: nat, best: int, rotation: Rotation)
    requires i < |sequences| == |all|
    requires Leading(sequences, all, i, best, rotation)
    ensures all[i].expectedScore > rotation.score ==>
      Leading(sequences, all, i + 1, i, Rotation(Some(sequences[i]), Some(all[i]), all[i].expectedScore))
    ensures all[i].expectedScore <= rotation.score ==> Leading(sequences, all, i + 1, best, rotation)
  {
  }

  /** A leading state after every candidate is the selector's answer. */
  lemma LeadingFinal(sequences: seq<seq<nat>>, all: seq<Expectation>, best: int, rotation: Rotation)
    requires |sequences| == |all|
    requires Leading(sequences, all, |sequences|, best, rotation)
    ensures rotation.sequence.None? <==> forall j :: 0 <= j < |sequences| ==> all[j].expectedScore <= NoScore
    ensures rotation.sequence.None? ==> rotation.results.None? && rotation.score == NoScore
    ensures rotation.sequence.Some? ==> exists k :: 0 <= k < |sequences| && IsFirstBest(sequences, all, k, rotation)
  {
    if best >= 0 {
      assert IsFirstBest(sequences, all, best, rotation);
    }
  }

  /** One step of the selector loop: the candidate at i evaluates to the
      i-th result, and the candidates after it continue from there. */
  lemma SimulateAllAdvance(config: seq<PlotConfig>, sequences: seq<seq<nat>>, rnd: RandomStream, cursor: nat,
                           i: nat, all: seq<Expectation>, last: nat)
    requires i < |sequences| == |all|
    requires SimulateAll(config, sequences[i..], rnd, cursor) == Drawn(all[i..], last)
    ensures var first := SimulateSequenceWithProbabilities(config, sequences[i], rnd, cursor);
      && first.value == all[i]
      && SimulateAll(config, sequences[i + 1..], rnd, first.next) == Drawn(all[i + 1..], last)
  {
    SimulateAllStep(config, sequences[i..], rnd, cursor);
    assert sequences[i..][1..] == sequences[i + 1..];
    assert all[i..][1..] == all[i + 1..];
  }

  /** Evaluating a list of candidates is evaluating its head and then the
      rest from where the head left the stream. */
  lemma SimulateAllStep(config: seq<PlotConfig>, sequences: seq<seq<nat>>, rnd: RandomStream, at: nat)
    requires |sequences| > 0
    ensures var first := SimulateSequenceWithProbabilities(config, sequences[0], rnd, at);
      var all := SimulateAll(config, sequences, rnd, at);
      var rest := SimulateAll(config, sequences[1..], rnd, first.next);
      && all.value[0] == first.value
      && all.value[1..] == rest.value
      && all.next == rest.next
  {
  }
}
