/** The planner's game state and its copy-on-write transition
    (`getInitialGameState` and `applyPlotActivation`). */
module GameState {
  import opened Wrappers
  import opened Seeds

  /** A plot as the user configures it: two colour slots. */
  datatype PlotConfig = PlotConfig(color1: Color, color2: Color)

  /** A plot inside a game state. */
  datatype Plot = Plot(index: nat, color1: Color, color2: Color, active: bool) {
    predicate HasColor(c: Color) {
      c == color1 || c == color2
    }
  }

  /** The available plots and one seed pool per colour. */
  datatype State = State(availablePlots: seq<Plot>, seedCounts: Pools)

  /** Every plot sits at the position its index names. */
  ghost predicate WellIndexed(plots: seq<Plot>) {
    forall i :: 0 <= i < |plots| ==> plots[i].index == i
  }

  /** The starting state: one active plot per configured plot, indexed by its
      position, and 23 T1 seeds of every colour. */
  function InitialState(config: seq<PlotConfig>): (s: State)
    ensures WellIndexed(s.availablePlots)
    ensures |s.availablePlots| == |config|
    ensures forall i :: 0 <= i < |config| ==>
      && s.availablePlots[i].active
      && s.availablePlots[i].color1 == config[i].color1
      && s.availablePlots[i].color2 == config[i].color2
    ensures forall c :: s.seedCounts.Get(c) == Tiers(StartingT1, 0, 0, 0)
  {
    var seeds := Tiers(StartingT1, 0, 0, 0);
    State(seq(|config|, i requires 0 <= i < |config| => Plot(i, config[i].color1, config[i].color2, true)),
          Pools(seeds, seeds, seeds))
  }

  /** Position of the first plot carrying `index`, as `Array.prototype.find`
      would locate it. */
  function FindPlot(plots: seq<Plot>, index: nat): (r: Option<nat>)
    ensures r.Some? ==> r.value < |plots| && plots[r.value].index == index
    ensures r.Some? ==> forall j :: 0 <= j < r.value ==> plots[j].index != index
    ensures r.None? ==> forall j :: 0 <= j < |plots| ==> plots[j].index != index
  {
    if |plots| == 0 then None
    else if plots[0].index == index then Some(0)
    else match FindPlot(plots[1..], index)
      case None => None
      case Some(k) => Some(k + 1)
  }

  /** In a well-indexed list the plot with a given index is found at that
      position, and only there. */
  lemma {:induction false} FindPlotWellIndexed(plots: seq<Plot>, index: nat)
    requires WellIndexed(plots)
    ensures FindPlot(plots, index) == if index < |plots| then Some(index) else None
  {
    if index < |plots| {
      assert plots[index].index == index;
    }
  }

  /** The colours an activation of `p` upgrades: those of the palette that the
      plot does not carry, in palette order. */
  function UpgradedColors(p: Plot): (r: seq<Color>)
    ensures forall c :: c in r <==> !p.HasColor(c)
    ensures forall i, j :: 0 <= i < j < |r| ==> Rank(r[i]) < Rank(r[j])
  {
    Filter(Palette, p)
  }

  /** The colours of `cs` that `p` does not carry, in the order of `cs`. */
  function Filter(cs: seq<Color>, p: Plot): (r: seq<Color>)
    requires forall i, j :: 0 <= i < j < |cs| ==> Rank(cs[i]) < Rank(cs[j])
    ensures forall c :: c in r <==> c in cs && !p.HasColor(c)
    ensures forall i, j :: 0 <= i < j < |r| ==> Rank(r[i]) < Rank(r[j])
  {
    if |cs| == 0 then []
    else if p.HasColor(cs[0]) then Filter(cs[1..], p)
    else
      var rest := Filter(cs[1..], p);
      HeadRanksFirst(cs);
      [cs[0]] + rest
  }

  /** In a list sorted by rank, the head ranks below everything after it. */
  lemma HeadRanksFirst(cs: seq<Color>)
    requires |cs| > 0
    requires forall i, j :: 0 <= i < j < |cs| ==> Rank(cs[i]) < Rank(cs[j])
    ensures forall x :: x in cs[1..] ==> Rank(cs[0]) < Rank(x)
  {
    forall x | x in cs[1..]
      ensures Rank(cs[0]) < Rank(x)
    {
      var k :| 0 <= k < |cs[1..]| && cs[1..][k] == x;
      assert cs[k + 1] == x;
    }
  }

  ghost predicate Distinct(cs: seq<Color>) {
    forall i, j :: 0 <= i < j < |cs| ==> cs[i] != cs[j]
  }

  /** Runs one upgrade round on each listed colour, in order, leaving every
      other colour's pool as it was. */
  function UpgradeColors(pools: Pools, cs: seq<Color>, rnd: RandomStream, at: nat): (r: Drawn<Pools>)
    requires Distinct(cs)
    ensures forall c :: c !in cs ==> r.value.Get(c) == pools.Get(c)
    ensures r.next >= at
    decreases |cs|
  {
    if |cs| == 0 then Drawn(pools, at)
    else
      var up := UpgradeSeeds(pools.Get(cs[0]), rnd, at);
      var rest := pools.Set(cs[0], up.value);
      assert forall c :: c in cs[1..] ==> c != cs[0];
      UpgradeColors(rest, cs[1..], rnd, up.next)
  }

  /** Each listed colour's new pool is exactly what `UpgradeSeeds` makes of
      its old pool, read from some position of the stream at or after `at`. */
  lemma {:induction false} UpgradeColorsRunsRounds(pools: Pools, cs: seq<Color>, rnd: RandomStream, at: nat)
    requires Distinct(cs)
    ensures forall c :: c in cs ==> UpgradedFrom(pools.Get(c), UpgradeColors(pools, cs, rnd, at).value.Get(c), rnd, at)
    decreases |cs|
  {
    if |cs| > 0 {
      var up := UpgradeSeeds(pools.Get(cs[0]), rnd, at);
      var rest := pools.Set(cs[0], up.value);
      assert forall c :: c in cs[1..] ==> c != cs[0];
      UpgradeColorsRunsRounds(rest, cs[1..], rnd, up.next);
      var r := UpgradeColors(pools, cs, rnd, at).value;
      assert r == UpgradeColors(rest, cs[1..], rnd, up.next).value;
      forall c | c in cs
        ensures UpgradedFrom(pools.Get(c), r.Get(c), rnd, at)
      {
        if c == cs[0] {
          assert c !in cs[1..];
          assert UpgradeSeeds(pools.Get(c), rnd, at).value == r.Get(c);
        } else {
          assert c in cs[1..];
          var p: nat :| up.next <= p && UpgradeSeeds(rest.Get(c), rnd, p).value == r.Get(c);
          assert rest.Get(c) == pools.Get(c);
        }
      }
    }
  }

  /** The copy-on-write transition of activating the plot with `plotIndex`:
      every colour the plot does not carry goes through one upgrade round, and
      the plot becomes inactive whether the activation succeeded or failed.
      `None` when no plot has that index (the source throws then). */
  function ApplyPlotActivation(s: State, plotIndex: nat, success: bool, rnd: RandomStream, at: nat)
    : (r: Option<Drawn<State>>)
    ensures r.None? <==> FindPlot(s.availablePlots, plotIndex).None?
    ensures r.Some? ==> |r.value.value.availablePlots| == |s.availablePlots| && r.value.next >= at
  {
    match FindPlot(s.availablePlots, plotIndex)
    case None => None
    case Some(pos) =>
      var plot := s.availablePlots[pos];
      var cs := UpgradedColors(plot);
      UpgradedColorsDistinct(plot);
      var up := UpgradeColors(s.seedCounts, cs, rnd, at);
      Some(Drawn(State(s.availablePlots[pos := plot.(active := false)], up.value), up.next))
  }

  lemma UpgradedColorsDistinct(p: Plot)
    ensures Distinct(UpgradedColors(p))
  {
    var cs := UpgradedColors(p);
    forall i, j | 0 <= i < j < |cs| ensures cs[i] != cs[j] {
      assert Rank(cs[i]) < Rank(cs[j]);
    }
  }

  /** What an activation changes: the activated plot (the first one carrying
      `plotIndex`) becomes inactive, every other plot keeps its index, colours
      and flag; the pools of the plot's own colours stay as they were, every
      other colour goes through one upgrade round; no seed is created or
      destroyed. */
  lemma ApplyPlotActivationEffects(s: State, plotIndex: nat, success: bool, rnd: RandomStream, at: nat)
    requires FindPlot(s.availablePlots, plotIndex).Some?
    ensures
      var pos := FindPlot(s.availablePlots, plotIndex).value;
      var plot := s.availablePlots[pos];
      var after := ApplyPlotActivation(s, plotIndex, success, rnd, at).value.value;
      && |after.availablePlots| == |s.availablePlots|
      && (forall i :: 0 <= i < |s.availablePlots| ==>
            var p, q := s.availablePlots[i], after.availablePlots[i];
            q.index == p.index && q.color1 == p.color1 && q.color2 == p.color2
            && q.active == (p.active && i != pos))
      && (forall c :: plot.HasColor(c) ==> after.seedCounts.Get(c) == s.seedCounts.Get(c))
      && (forall c :: !plot.HasColor(c) ==> IsUpgradeRound(s.seedCounts.Get(c), after.seedCounts.Get(c)))
      && (forall c :: !plot.HasColor(c) ==> UpgradedFrom(s.seedCounts.Get(c), after.seedCounts.Get(c), rnd, at))
  {
    var plot := s.availablePlots[FindPlot(s.availablePlots, plotIndex).value];
    UpgradedColorsDistinct(plot);
    UpgradeColorsRunsRounds(s.seedCounts, UpgradedColors(plot), rnd, at);
    var after := ApplyPlotActivation(s, plotIndex, success, rnd, at).value.value;
    forall c | !plot.HasColor(c)
      ensures IsUpgradeRound(s.seedCounts.Get(c), after.seedCounts.Get(c))
    {
      UpgradedFromIsRound(s.seedCounts.Get(c), after.seedCounts.Get(c), rnd, at);
    }
  }

  /** Every colour the activated plot does not carry goes through
      `UpgradeSeeds`; one with no tier of 1 to 10 seeds ends exactly in the
      expected-value round, e.g. 23 T1 seeds always become 17 T1 and 6 T2. */
  lemma ApplyPlotActivationUpgrades(s: State, plotIndex: nat, success: bool, rnd: RandomStream, at: nat, c: Color)
    requires FindPlot(s.availablePlots, plotIndex).Some?
    requires !s.availablePlots[FindPlot(s.availablePlots, plotIndex).value].HasColor(c)
    ensures var after := ApplyPlotActivation(s, plotIndex, success, rnd, at).value.value;
      && UpgradedFrom(s.seedCounts.Get(c), after.seedCounts.Get(c), rnd, at)
      && (Deterministic(s.seedCounts.Get(c)) ==> after.seedCounts.Get(c) == ExpectedRound(s.seedCounts.Get(c)))
  {
    ApplyPlotActivationEffects(s, plotIndex, success, rnd, at);
    var after := ApplyPlotActivation(s, plotIndex, success, rnd, at).value.value;
    UpgradedFromIsRound(s.seedCounts.Get(c), after.seedCounts.Get(c), rnd, at);
  }

  /** An activation creates and destroys no seed of any colour. */
  lemma ApplyPlotActivationConserves(s: State, plotIndex: nat, success: bool, rnd: RandomStream, at: nat)
    requires FindPlot(s.availablePlots, plotIndex).Some?
    ensures var after := ApplyPlotActivation(s, plotIndex, success, rnd, at).value.value;
      forall c :: Total(after.seedCounts.Get(c)) == Total(s.seedCounts.Get(c))
  {
    ApplyPlotActivationEffects(s, plotIndex, success, rnd, at);
  }

  /** The outcome of an activation does not change the transition: success
      and failure both retire the plot and upgrade the same colours. */
  lemma OutcomeDoesNotChangeTransition(s: State, plotIndex: nat, rnd: RandomStream, at: nat)
    ensures ApplyPlotActivation(s, plotIndex, true, rnd, at) == ApplyPlotActivation(s, plotIndex, false, rnd, at)
  {
  }

  /** Activating the only plot of a fresh yellow/red configuration upgrades
      only the blue pool, to 17 T1 and 6 T2, reads no random number and
      retires the plot. */
  lemma SingleYellowRedPlot(rnd: RandomStream, at: nat)
    ensures ApplyPlotActivation(InitialState([PlotConfig(Yellow, Red)]), 0, true, rnd, at)
      == Some(Drawn(State([Plot(0, Yellow, Red, false)],
                          Pools(Tiers(StartingT1, 0, 0, 0), Tiers(StartingT1, 0, 0, 0), Tiers(17, 6, 0, 0))), at))
  {
    var s := InitialState([PlotConfig(Yellow, Red)]);
    var plot := s.availablePlots[0];
    assert plot == Plot(0, Yellow, Red, true);
    assert FindPlot(s.availablePlots, 0) == Some(0);
    assert UpgradedColors(plot) == [Blue];
    FreshPoolRound(rnd, at);
    var pools := s.seedCounts.Set(Blue, Tiers(17, 6, 0, 0));
    assert UpgradeColors(s.seedCounts, [Blue], rnd, at) == Drawn(pools, at) by {
      assert [Blue][1..] == [];
    }
    assert s.availablePlots[0 := plot.(active := false)] == [Plot(0, Yellow, Red, false)];
  }
}
