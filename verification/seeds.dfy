/** Seed colours, per-colour tier pools and one upgrade round
    (`upgradeSeeds` and `applyUpgradeChance` of `CropRotationOptimizer`). */
module Seeds {
  import opened Wrappers

  /** The fixed three-colour palette, in the order the optimizer iterates it. */
  datatype Color = Yellow | Red | Blue

  const Palette: seq<Color> := [Yellow, Red, Blue]

  /** Position of a colour in the palette. */
  function Rank(c: Color): (r: nat)
    ensures r < |Palette| && Palette[r] == c
  {
    match c
    case Yellow => 0
    case Red => 1
    case Blue => 2
  }

  /** Seed counts of one colour, by tier. */
  datatype Tiers = Tiers(t1: nat, t2: nat, t3: nat, t4: nat)

  function Total(t: Tiers): nat {
    t.t1 + t.t2 + t.t3 + t.t4
  }

  /** Every colour starts with this many T1 seeds and nothing above. */
  const StartingT1: nat := 23

  /** An upgrade chance, in percent. */
  type Percent = k: nat | k <= 100

  const T1ToT2: Percent := 25
  const T2ToT3: Percent := 20
  const T3ToT4: Percent := 5

  /** Counts up to this size are sampled seed by seed; larger ones are rounded. */
  const SampleLimit: nat := 10

  /** The successive results of `Math.random()`, each in [0, 1). */
  type RandomStream = f: nat -> real | forall i :: 0.0 <= f(i) < 1.0 witness (i: nat) => 0.0

  /** One pool per colour. */
  datatype Pools = Pools(yellow: Tiers, red: Tiers, blue: Tiers) {

    function Get(c: Color): Tiers {
      match c
      case Yellow => yellow
      case Red => red
      case Blue => blue
    }

    function Set(c: Color, t: Tiers): (r: Pools)
      ensures r.Get(c) == t
      ensures forall d :: d != c ==> r.Get(d) == Get(d)
    {
      match c
      case Yellow => this.(yellow := t)
      case Red => this.(red := t)
      case Blue => this.(blue := t)
    }
  }

  /** Number of the `n` seeds, drawn at `at`, `at + 1`, ..., whose random
      number falls below the chance `pct`. */
  function Successes(n: nat, pct: Percent, rnd: RandomStream, at: nat): (r: nat)
    ensures r <= n
    ensures pct == 0 ==> r == 0
    ensures pct == 100 ==> r == n
  {
    if n == 0 then 0
    else Successes(n - 1, pct, rnd, at) + (if rnd(at + n - 1) < pct as real / 100.0 then 1 else 0)
  }

  /** Every seed moves exactly when every draw falls below the chance, and
      none moves exactly when no draw does. */
  lemma {:induction false} SampleCountsDraws(n: nat, pct: Percent, rnd: RandomStream, at: nat)
    ensures Successes(n, pct, rnd, at) == n <==> forall i :: at <= i < at + n ==> rnd(i) < pct as real / 100.0
    ensures Successes(n, pct, rnd, at) == 0 <==> forall i :: at <= i < at + n ==> rnd(i) >= pct as real / 100.0
  {
    if n > 0 {
      SampleCountsDraws(n - 1, pct, rnd, at);
    }
  }

  /** `Math.round(n * pct / 100)` for the fixed chances, in integer arithmetic
      (round half up). */
  function RoundedShare(n: nat, pct: Percent): (r: nat)
    ensures r <= n
    ensures -50 < 100 * r - n * pct <= 50
  {
    (n * pct + 50) / 100
  }

  /** How many of `seedCount` seeds move up one tier: none of none, a sample
      of one random draw per seed for small counts, the rounded expected
      share for large ones. */
  function ApplyUpgradeChance(seedCount: nat, pct: Percent, rnd: RandomStream, at: nat): (r: Drawn<nat>)
    ensures r.value <= seedCount
    ensures seedCount == 0 ==> r == Drawn(0, at)
    ensures seedCount > SampleLimit ==> r.next == at && -50 < 100 * r.value - seedCount * pct <= 50
    ensures 0 < seedCount <= SampleLimit ==> r.next == at + seedCount
  {
    if seedCount == 0 then Drawn(0, at)
    else if seedCount <= SampleLimit then Drawn(Successes(seedCount, pct, rnd, at), at + seedCount)
    else Drawn(RoundedShare(seedCount, pct), at)
  }

  /** `after` arises from `before` by moving some seeds up exactly one tier,
      each move bounded by the PRE-round count of the tier it leaves: seeds
      that reach T3 in this round are not moved on to T4, and seeds that reach
      T2 are not moved on to T3. Written with the moves eliminated: T4 gains at
      most the old T3, T1 only shrinks, T1 and T2 together lose at most the old
      T2, and no seed is created or destroyed. */
  predicate IsUpgradeRound(before: Tiers, after: Tiers) {
    && before.t4 <= after.t4 <= before.t4 + before.t3
    && after.t1 <= before.t1
    && before.t1 <= after.t1 + after.t2 <= before.t1 + before.t2
    && Total(after) == Total(before)
  }

  /** One upgrade round of a colour's pool, applied top-down in place:
      T3 to T4, then T2 to T3, then T1 to T2. */
  function UpgradeSeeds(t: Tiers, rnd: RandomStream, at: nat): (r: Drawn<Tiers>)
    ensures IsUpgradeRound(t, r.value)
    ensures Total(r.value) == Total(t)
    ensures r.next >= at
  {
    var toT4 := ApplyUpgradeChance(t.t3, T3ToT4, rnd, at);
    var a := Tiers(t.t1, t.t2, t.t3 - toT4.value, t.t4 + toT4.value);
    var toT3 := ApplyUpgradeChance(a.t2, T2ToT3, rnd, toT4.next);
    var b := Tiers(a.t1, a.t2 - toT3.value, a.t3 + toT3.value, a.t4);
    var toT2 := ApplyUpgradeChance(b.t1, T1ToT2, rnd, toT3.next);
    var c := Tiers(b.t1 - toT2.value, b.t2 + toT2.value, b.t3, b.t4);
    Drawn(c, toT2.next)
  }

  /** `after` is what one upgrade round of `before` gives when it starts
      reading the random stream at some position from `at` on. */
  ghost predicate UpgradedFrom(before: Tiers, after: Tiers, rnd: RandomStream, at: nat) {
    exists p: nat :: at <= p && UpgradeSeeds(before, rnd, p).value == after
  }

  /** A pool that went through one upgrade round, wherever in the stream it
      started, moved seeds up one tier at a time; and when no tier needed
      sampling it ended exactly in the expected-value round. */
  lemma UpgradedFromIsRound(before: Tiers, after: Tiers, rnd: RandomStream, at: nat)
    requires UpgradedFrom(before, after, rnd, at)
    ensures IsUpgradeRound(before, after)
    ensures Deterministic(before) ==> after == ExpectedRound(before)
  {
    var p: nat :| at <= p && UpgradeSeeds(before, rnd, p).value == after;
    if Deterministic(before) {
      UpgradeSeedsIsExpectedRound(before, rnd, p);
    }
  }

  /** The expected-value round: every tier moves its rounded expected share,
      each computed from that tier's count before the round. */
  function ExpectedRound(t: Tiers): (r: Tiers)
    ensures IsUpgradeRound(t, r)
  {
    var toT4 := RoundedShare(t.t3, T3ToT4);
    var toT3 := RoundedShare(t.t2, T2ToT3);
    var toT2 := RoundedShare(t.t1, T1ToT2);
    Tiers(t.t1 - toT2, t.t2 - toT3 + toT2, t.t3 - toT4 + toT3, t.t4 + toT4)
  }

  /** No random draw is needed when no tier below T4 holds 1 to 10 seeds. */
  predicate Deterministic(t: Tiers) {
    (t.t1 == 0 || t.t1 > SampleLimit)
    && (t.t2 == 0 || t.t2 > SampleLimit)
    && (t.t3 == 0 || t.t3 > SampleLimit)
  }

  /** Without sampling, the in-place top-down round equals the simultaneous
      expected-value round and reads no random number. */
  lemma UpgradeSeedsIsExpectedRound(t: Tiers, rnd: RandomStream, at: nat)
    requires Deterministic(t)
    ensures UpgradeSeeds(t, rnd, at) == Drawn(ExpectedRound(t), at)
  {
    ChanceWithoutSampling(t.t3, T3ToT4, rnd, at);
    ChanceWithoutSampling(t.t2, T2ToT3, rnd, at);
    ChanceWithoutSampling(t.t1, T1ToT2, rnd, at);
    RoundedMovesGiveExpectedRound(t, rnd, at);
  }

  /** When each tier's draw is its rounded share and reads no random number,
      the top-down round ends in the expected-value round. */
  lemma RoundedMovesGiveExpectedRound(t: Tiers, rnd: RandomStream, at: nat)
    requires ApplyUpgradeChance(t.t3, T3ToT4, rnd, at) == Drawn(RoundedShare(t.t3, T3ToT4), at)
    requires ApplyUpgradeChance(t.t2, T2ToT3, rnd, at) == Drawn(RoundedShare(t.t2, T2ToT3), at)
    requires ApplyUpgradeChance(t.t1, T1ToT2, rnd, at) == Drawn(RoundedShare(t.t1, T1ToT2), at)
    ensures UpgradeSeeds(t, rnd, at) == Drawn(ExpectedRound(t), at)
  {
    var toT4, toT3, toT2 := RoundedShare(t.t3, T3ToT4), RoundedShare(t.t2, T2ToT3), RoundedShare(t.t1, T1ToT2);
    var a := Tiers(t.t1, t.t2, t.t3 - toT4, t.t4 + toT4);
    var b := Tiers(a.t1, a.t2 - toT3, a.t3 + toT3, a.t4);
    var c := Tiers(b.t1 - toT2, b.t2 + toT2, b.t3, b.t4);
    assert UpgradeSeeds(t, rnd, at) == Drawn(c, at);
    assert c == ExpectedRound(t);
  }

  /** A count of zero or above the sampling limit reads no random number and
      moves its rounded expected share. */
  lemma ChanceWithoutSampling(n: nat, pct: Percent, rnd: RandomStream, at: nat)
    requires n == 0 || n > SampleLimit
    ensures ApplyUpgradeChance(n, pct, rnd, at) == Drawn(RoundedShare(n, pct), at)
  {
  }

  /** A fresh pool of 23 T1 seeds becomes 17 T1 and 6 T2 after one round. */
  lemma FreshPoolRound(rnd: RandomStream, at: nat)
    ensures UpgradeSeeds(Tiers(StartingT1, 0, 0, 0), rnd, at) == Drawn(Tiers(17, 6, 0, 0), at)
  {
  }
}
