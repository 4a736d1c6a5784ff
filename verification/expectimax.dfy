/** The recursive expected-value evaluator (`calculateExpectedOutcome`):
    every still-available step of a sequence splits into a success branch of
    weight 0.6 and a failure branch of weight 0.4, and every leaf scores
    10 per T3 seed and -5 per T4 seed, scaled by the leaf's probability. */
module Expectimax {
  import opened Wrappers
  import opened Seeds
  import opened GameState
  import Sequences

  const SuccessChance: real := 0.6
  const FailureChance: real := 0.4

  /** Points per T3 seed and per T4 seed at a leaf. */
  const T3Points: int := 10
  const T4Points: int := -5

  /** One leaf of the probability tree. */
  datatype Outcome = Outcome(seedCounts: Pools, probability: real, totalT3: nat, totalT4: nat)

  /** What the evaluator returns for a (sub)sequence. */
  datatype Expectation = Expectation(
    expectedScore: real,
    expectedT3: real,
    expectedT4: real,
    probability: real,
    outcomes: seq<Outcome>)

  /** T3 seeds over all colours. */
  function TotalT3(p: Pools): nat {
    p.yellow.t3 + p.red.t3 + p.blue.t3
  }

  /** T4 seeds over all colours. */
  function TotalT4(p: Pools): nat {
    p.yellow.t4 + p.red.t4 + p.blue.t4
  }

  /** Seeds of every tier over all colours. */
  function AllSeeds(p: Pools): nat {
    Total(p.yellow) + Total(p.red) + Total(p.blue)
  }

  function Score(totalT3: nat, totalT4: nat): int {
    totalT3 * T3Points + totalT4 * T4Points
  }

  /** The step's plot exists and has not been retired. */
  predicate Available(s: State, plotIndex: nat) {
    var pos := FindPlot(s.availablePlots, plotIndex);
    pos.Some? && s.availablePlots[pos.value].active
  }

  /** Expected outcome of playing `remaining` from `s`, reached with
      probability `probability`; the random stream is read from `at` on, in
      the order the source reads it: success transition, failure transition,
      success subtree, failure subtree. */
  function CalculateExpectedOutcome(remaining: seq<nat>, s: State, probability: real, rnd: RandomStream, at: nat)
    : (r: Drawn<Expectation>)
    ensures r.value.probability == probability
    ensures 1 <= |r.value.outcomes| <= Sequences.Pow(2, |remaining|)
    ensures r.next >= at
    decreases |remaining|
  {
    if |remaining| == 0 then
      var totalT3 := TotalT3(s.seedCounts);
      var totalT4 := TotalT4(s.seedCounts);
      var score := Score(totalT3, totalT4);
      Drawn(Expectation(score as real * probability, totalT3 as real * probability, totalT4 as real * probability,
                        probability, [Outcome(s.seedCounts, probability, totalT3, totalT4)]),
            at)
    else
      var plotIndex := remaining[0];
      var remainingAfter := remaining[1..];
      if !Available(s, plotIndex) then
        CalculateExpectedOutcome(remainingAfter, s, probability, rnd, at)
      else
        var successState := ApplyPlotActivation(s, plotIndex, true, rnd, at).value;
        var failureState := ApplyPlotActivation(s, plotIndex, false, rnd, successState.next).value;
        var success := CalculateExpectedOutcome(remainingAfter, successState.value, probability * SuccessChance,
                                                rnd, failureState.next);
        var failure := CalculateExpectedOutcome(remainingAfter, failureState.value, probability * FailureChance,
                                                rnd, success.next);
        Drawn(Expectation(success.value.expectedScore + failure.value.expectedScore,
                          success.value.expectedT3 + failure.value.expectedT3,
                          success.value.expectedT4 + failure.value.expectedT4,
                          probability,
                          success.value.outcomes + failure.value.outcomes),
              failure.next)
  }

  /** Sum of `f` over the outcomes. */
  function SumOver(os: seq<Outcome>, f: Outcome -> real): real {
    if |os| == 0 then 0.0 else f(os[0]) + SumOver(os[1..], f)
  }

  lemma {:induction false} SumOverConcat(a: seq<Outcome>, b: seq<Outcome>, f: Outcome -> real)
    ensures SumOver(a + b, f) == SumOver(a, f) + SumOver(b, f)
  {
    if |a| == 0 {
      assert a + b == b;
    } else {
      assert (a + b)[1..] == a[1..] + b;
      SumOverConcat(a[1..], b, f);
    }
  }

  function Mass(o: Outcome): real {
    o.probability
  }

  function WeightedScore(o: Outcome): real {
    o.probability * Score(o.totalT3, o.totalT4) as real
  }

  function WeightedT3(o: Outcome): real {
    o.probability * o.totalT3 as real
  }

  function WeightedT4(o: Outcome): real {
    o.probability * o.totalT4 as real
  }

  /** The leaves' probabilities add up to the probability the evaluation was
      entered with: the 0.6 and 0.4 branches of each step share it. */
  lemma {:induction false} OutcomeMassIsProbability(remaining: seq<nat>, s: State, probability: real, rnd: RandomStream, at: nat)
    ensures SumOver(CalculateExpectedOutcome(remaining, s, probability, rnd, at).value.outcomes, Mass) == probability
    decreases |remaining|
  {
    if |remaining| == 0 {
      var o := Outcome(s.seedCounts, probability, TotalT3(s.seedCounts), TotalT4(s.seedCounts));
      assert CalculateExpectedOutcome(remaining, s, probability, rnd, at).value.outcomes == [o];
      SingletonSum(o, Mass);
    } else {
      var plotIndex, remainingAfter := remaining[0], remaining[1..];
      if !Available(s, plotIndex) {
        OutcomeMassIsProbability(remainingAfter, s, probability, rnd, at);
      } else {
        var successState := ApplyPlotActivation(s, plotIndex, true, rnd, at).value;
        var failureState := ApplyPlotActivation(s, plotIndex, false, rnd, successState.next).value;
        var success := CalculateExpectedOutcome(remainingAfter, successState.value, probability * SuccessChance,
                                                rnd, failureState.next);
        var failure := CalculateExpectedOutcome(remainingAfter, failureState.value, probability * FailureChance,
                                                rnd, success.next);
        OutcomeMassIsProbability(remainingAfter, successState.value, probability * SuccessChance, rnd, failureState.next);
        OutcomeMassIsProbability(remainingAfter, failureState.value, probability * FailureChance, rnd, success.next);
        assert CalculateExpectedOutcome(remaining, s, probability, rnd, at).value.outcomes
            == success.value.outcomes + failure.value.outcomes;
        SumOverConcat(success.value.outcomes, failure.value.outcomes, Mass);
      }
    }
  }

  /** The expected score, T3 and T4 are the probability-weighted sums over
      the leaves of the tree. */
  lemma {:induction false} ExpectationsAreWeightedSums(remaining: seq<nat>, s: State, probability: real, rnd: RandomStream, at: nat)
    ensures var e := CalculateExpectedOutcome(remaining, s, probability, rnd, at).value;
      && e.expectedScore == SumOver(e.outcomes, WeightedScore)
      && e.expectedT3 == SumOver(e.outcomes, WeightedT3)
      && e.expectedT4 == SumOver(e.outcomes, WeightedT4)
    decreases |remaining|
  {
    if |remaining| == 0 {
      var o := Outcome(s.seedCounts, probability, TotalT3(s.seedCounts), TotalT4(s.seedCounts));
      assert CalculateExpectedOutcome(remaining, s, probability, rnd, at).value.outcomes == [o];
      SingletonSum(o, WeightedScore);
      SingletonSum(o, WeightedT3);
      SingletonSum(o, WeightedT4);
    } else {
      var plotIndex, remainingAfter := remaining[0], remaining[1..];
      if !Available(s, plotIndex) {
        ExpectationsAreWeightedSums(remainingAfter, s, probability, rnd, at);
      } else {
        var successState := ApplyPlotActivation(s, plotIndex, true, rnd, at).value;
        var failureState := ApplyPlotActivation(s, plotIndex, false, rnd, successState.next).value;
        var success := CalculateExpectedOutcome(remainingAfter, successState.value, probability * SuccessChance,
                                                rnd, failureState.next);
        var failure := CalculateExpectedOutcome(remainingAfter, failureState.value, probability * FailureChance,
                                                rnd, success.next);
        ExpectationsAreWeightedSums(remainingAfter, successState.value, probability * SuccessChance, rnd, failureState.next);
        ExpectationsAreWeightedSums(remainingAfter, failureState.value, probability * FailureChance, rnd, success.next);
        SumOverConcat(success.value.outcomes, failure.value.outcomes, WeightedScore);
        SumOverConcat(success.value.outcomes, failure.value.outcomes, WeightedT3);
        SumOverConcat(success.value.outcomes, failure.value.outcomes, WeightedT4);
      }
    }
  }

  lemma SingletonSum(o: Outcome, f: Outcome -> real)
    ensures SumOver([o], f) == f(o)
  {
    assert [o][1..] == [];
  }

  /** A step whose plot is missing or retired is skipped: the result is the
      tail's result from the same state, probability and random position. */
  lemma SkipUnavailableStep(remaining: seq<nat>, s: State, probability: real, rnd: RandomStream, at: nat)
    requires |remaining| > 0 && !Available(s, remaining[0])
    ensures CalculateExpectedOutcome(remaining, s, probability, rnd, at)
         == CalculateExpectedOutcome(remaining[1..], s, probability, rnd, at)
  {
  }

  /** A sequence none of whose plots is available evaluates like the empty
      sequence: one leaf, the current pools, no random number read. */
  lemma {:induction false} SkipAllUnavailable(remaining: seq<nat>, s: State, probability: real, rnd: RandomStream, at: nat)
    requires forall i :: 0 <= i < |remaining| ==> !Available(s, remaining[i])
    ensures CalculateExpectedOutcome(remaining, s, probability, rnd, at)
         == CalculateExpectedOutcome([], s, probability, rnd, at)
    decreases |remaining|
  {
    if |remaining| > 0 {
      SkipAllUnavailable(remaining[1..], s, probability, rnd, at);
    }
  }

  /** An available step splits the leaves into a success part carrying 0.6 of
      the probability and a failure part carrying the remaining 0.4. */
  lemma AvailableStepSplits(remaining: seq<nat>, s: State, probability: real, rnd: RandomStream, at: nat)
    requires |remaining| > 0 && Available(s, remaining[0])
    ensures var os := CalculateExpectedOutcome(remaining, s, probability, rnd, at).value.outcomes;
      exists k :: 0 < k < |os|
        && SumOver(os[..k], Mass) == probability * SuccessChance
        && SumOver(os[k..], Mass) == probability * FailureChance
  {
    var plotIndex, remainingAfter := remaining[0], remaining[1..];
    var successState := ApplyPlotActivation(s, plotIndex, true, rnd, at).value;
    var failureState := ApplyPlotActivation(s, plotIndex, false, rnd, successState.next).value;
    var success := CalculateExpectedOutcome(remainingAfter, successState.value, probability * SuccessChance,
                                            rnd, failureState.next);
    var failure := CalculateExpectedOutcome(remainingAfter, failureState.value, probability * FailureChance,
                                            rnd, success.next);
    var os := success.value.outcomes + failure.value.outcomes;
    assert os == CalculateExpectedOutcome(remaining, s, probability, rnd, at).value.outcomes;
    var k := |success.value.outcomes|;
    assert os[..k] == success.value.outcomes;
    assert os[k..] == failure.value.outcomes;
    OutcomeMassIsProbability(remainingAfter, successState.value, probability * SuccessChance, rnd, failureState.next);
    OutcomeMassIsProbability(remainingAfter, failureState.value, probability * FailureChance, rnd, success.next);
  }

  /** Every leaf records the T3/T4 totals of its own pools and holds as many
      seeds of each colour as the state the evaluation started from. */
  lemma {:induction false} LeavesConserveSeeds(remaining: seq<nat>, s: State, probability: real, rnd: RandomStream, at: nat)
    ensures forall o :: o in CalculateExpectedOutcome(remaining, s, probability, rnd, at).value.outcomes ==>
      && o.totalT3 == TotalT3(o.seedCounts)
      && o.totalT4 == TotalT4(o.seedCounts)
      && forall c :: Total(o.seedCounts.Get(c)) == Total(s.seedCounts.Get(c))
    decreases |remaining|
  {
    if |remaining| == 0 {
      var o := Outcome(s.seedCounts, probability, TotalT3(s.seedCounts), TotalT4(s.seedCounts));
      assert CalculateExpectedOutcome(remaining, s, probability, rnd, at).value.outcomes == [o];
    } else {
      var plotIndex, remainingAfter := remaining[0], remaining[1..];
      if !Available(s, plotIndex) {
        LeavesConserveSeeds(remainingAfter, s, probability, rnd, at);
      } else {
        var successState := ApplyPlotActivation(s, plotIndex, true, rnd, at).value;
        var failureState := ApplyPlotActivation(s, plotIndex, false, rnd, successState.next).value;
        ApplyPlotActivationConserves(s, plotIndex, true, rnd, at);
        ApplyPlotActivationConserves(s, plotIndex, false, rnd, successState.next);
        var success := CalculateExpectedOutcome(remainingAfter, successState.value, probability * SuccessChance,
                                                rnd, failureState.next);
        var failure := CalculateExpectedOutcome(remainingAfter, failureState.value, probability * FailureChance,
                                                rnd, success.next);
        LeavesConserveSeeds(remainingAfter, successState.value, probability * SuccessChance, rnd, failureState.next);
        LeavesConserveSeeds(remainingAfter, failureState.value, probability * FailureChance, rnd, success.next);
        assert CalculateExpectedOutcome(remaining, s, probability, rnd, at).value.outcomes
            == success.value.outcomes + failure.value.outcomes;
      }
    }
  }

  /** Leaf probabilities are products of the entry probability with 0.6s and
      0.4s, so they keep its sign. */
  lemma {:induction false} LeafProbabilitiesKeepSign(remaining: seq<nat>, s: State, probability: real, rnd: RandomStream, at: nat)
    requires probability >= 0.0
    ensures forall o :: o in CalculateExpectedOutcome(remaining, s, probability, rnd, at).value.outcomes ==>
      o.probability >= 0.0 && (probability > 0.0 ==> o.probability > 0.0)
    decreases |remaining|
  {
    if |remaining| == 0 {
      var o := Outcome(s.seedCounts, probability, TotalT3(s.seedCounts), TotalT4(s.seedCounts));
      assert CalculateExpectedOutcome(remaining, s, probability, rnd, at).value.outcomes == [o];
    } else {
      var plotIndex, remainingAfter := remaining[0], remaining[1..];
      if !Available(s, plotIndex) {
        LeafProbabilitiesKeepSign(remainingAfter, s, probability, rnd, at);
      } else {
        var successState := ApplyPlotActivation(s, plotIndex, true, rnd, at).value;
        var failureState := ApplyPlotActivation(s, plotIndex, false, rnd, successState.next).value;
        var success := CalculateExpectedOutcome(remainingAfter, successState.value, probability * SuccessChance,
                                                rnd, failureState.next);
        var failure := CalculateExpectedOutcome(remainingAfter, failureState.value, probability * FailureChance,
                                                rnd, success.next);
        LeafProbabilitiesKeepSign(remainingAfter, successState.value, probability * SuccessChance, rnd, failureState.next);
        LeafProbabilitiesKeepSign(remainingAfter, failureState.value, probability * FailureChance, rnd, success.next);
        assert CalculateExpectedOutcome(remaining, s, probability, rnd, at).value.outcomes
            == success.value.outcomes + failure.value.outcomes;
      }
    }
  }

  /** Bounding every leaf's share bounds the sum. */
  lemma {:induction false} SumOverBounded(os: seq<Outcome>, f: Outcome -> real, g: Outcome -> real, c: real)
    requires forall o :: o in os ==> f(o) <= c * g(o)
    ensures SumOver(os, f) <= c * SumOver(os, g)
  {
    if |os| > 0 {
      SumOverBounded(os[1..], f, g, c);
    }
  }

  lemma {:induction false} SumOverBoundedBelow(os: seq<Outcome>, f: Outcome -> real, g: Outcome -> real, c: real)
    requires forall o :: o in os ==> c * g(o) <= f(o)
    ensures c * SumOver(os, g) <= SumOver(os, f)
  {
    if |os| > 0 {
      SumOverBoundedBelow(os[1..], f, g, c);
    }
  }
}
