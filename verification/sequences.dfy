/** The candidate enumerator (`generateOptimalSequences` and
    `generateSequencesOfLength`): every plot-index sequence of each length,
    in lexicographic order, lengths in increasing order, with a cap that is
    checked once per finished length. */
module Sequences {

  /** Longest sequence the enumerator considers. */
  const MaxLength: nat := 5

  /** The enumerator stops after the first length that leaves more than this
      many sequences. */
  const SequenceCap: nat := 500

  function Min(a: nat, b: nat): nat {
    if a <= b then a else b
  }

  function Pow(b: nat, e: nat): nat {
    if e == 0 then 1 else b * Pow(b, e - 1)
  }

  /** `s` has the given length, starts with `prefix`, and every later entry is
      a plot index below `plotCount`. */
  ghost predicate Extends(s: seq<nat>, prefix: seq<nat>, length: nat, plotCount: nat) {
    && |prefix| <= |s| == length
    && s[..|prefix|] == prefix
    && forall j :: |prefix| <= j < length ==> s[j] < plotCount
  }

  /** `a` comes strictly before `b` in lexicographic order. */
  ghost predicate LexLess(a: seq<nat>, b: seq<nat>) {
    exists k :: 0 <= k < |a| && k < |b| && a[..k] == b[..k] && a[k] < b[k]
  }

  ghost predicate StrictlySorted(ss: seq<seq<nat>>) {
    forall i, j :: 0 <= i < j < |ss| ==> LexLess(ss[i], ss[j])
  }

  /** The sequences that `generateSequencesOfLength(plotCount, length,
      current, sequences)` appends to `sequences`: `current` itself once it
      has the target length, otherwise the extensions by each plot index in
      turn. */
  function GenerateSequencesOfLength(plotCount: nat, length: nat, current: seq<nat>): (r: seq<seq<nat>>)
    requires |current| <= length
    ensures |r| == Pow(plotCount, length - |current|)
    ensures forall i :: 0 <= i < |r| ==> Extends(r[i], current, length, plotCount)
    decreases length - |current|, plotCount + 1
  {
    if |current| == length then
      assert current[..|current|] == current;
      [current]
    else
      PlotIndexLoop(plotCount, length, current, 0)
  }

  /** The `for (plotIndex = from; plotIndex < plotCount; plotIndex++)` loop
      of `generateSequencesOfLength`: push, recurse, pop. */
  function PlotIndexLoop(plotCount: nat, length: nat, current: seq<nat>, from: nat): (r: seq<seq<nat>>)
    requires |current| < length
    requires from <= plotCount
    ensures |r| == (plotCount - from) * Pow(plotCount, length - |current| - 1)
    ensures forall i :: 0 <= i < |r| ==>
      Extends(r[i], current, length, plotCount) && from <= r[i][|current|]
    decreases length - |current|, plotCount - from
  {
    if from == plotCount then []
    else
      var first := GenerateSequencesOfLength(plotCount, length, current + [from]);
      var rest := PlotIndexLoop(plotCount, length, current, from + 1);
      var p := Pow(plotCount, length - |current| - 1);
      assert (plotCount - from) * p == p + (plotCount - (from + 1)) * p;
      assert forall i :: 0 <= i < |first| ==> first[i][..|current|] == current && first[i][|current|] == from by {
        forall i | 0 <= i < |first| ensures first[i][..|current|] == current && first[i][|current|] == from {
          assert first[i][..|current| + 1] == current + [from];
          assert first[i][..|current|] == first[i][..|current| + 1][..|current|];
        }
      }
      first + rest
  }

  /** Every block the enumerator appends is in strictly increasing
      lexicographic order, so in particular holds no sequence twice. */
  lemma {:induction false} GenerateSequencesOfLengthSorted(plotCount: nat, length: nat, current: seq<nat>)
    requires |current| <= length
    ensures StrictlySorted(GenerateSequencesOfLength(plotCount, length, current))
    decreases length - |current|, plotCount + 1
  {
    if |current| < length {
      PlotIndexLoopSorted(plotCount, length, current, 0);
    }
  }

  lemma {:induction false} PlotIndexLoopSorted(plotCount: nat, length: nat, current: seq<nat>, from: nat)
    requires |current| < length
    requires from <= plotCount
    ensures StrictlySorted(PlotIndexLoop(plotCount, length, current, from))
    decreases length - |current|, plotCount - from
  {
    if from < plotCount {
      var first := GenerateSequencesOfLength(plotCount, length, current + [from]);
      var rest := PlotIndexLoop(plotCount, length, current, from + 1);
      GenerateSequencesOfLengthSorted(plotCount, length, current + [from]);
      PlotIndexLoopSorted(plotCount, length, current, from + 1);
      var r := first + rest;
      assert r == PlotIndexLoop(plotCount, length, current, from);
      forall i, j | 0 <= i < j < |r| ensures LexLess(r[i], r[j]) {
        if j < |first| {
          assert LexLess(first[i], first[j]);
        } else if |first| <= i {
          assert LexLess(rest[i - |first|], rest[j - |first|]);
        } else {
          var a, b := first[i], rest[j - |first|];
          var k := |current|;
          assert a[..k + 1] == current + [from];
          assert a[..k] == a[..k + 1][..k];
          assert a[k] == from < b[k];
          assert a[..k] == b[..k];
        }
      }
    }
  }

  /** Every sequence of the target length that extends `current` with plot
      indices below `plotCount` is appended. */
  lemma {:induction false} GenerateSequencesOfLengthComplete(plotCount: nat, length: nat, current: seq<nat>, s: seq<nat>)
    requires |current| <= length
    requires Extends(s, current, length, plotCount)
    ensures s in GenerateSequencesOfLength(plotCount, length, current)
    decreases length - |current|, plotCount + 1
  {
    if |current| == length {
      assert s == s[..|current|];
    } else {
      PlotIndexLoopComplete(plotCount, length, current, 0, s);
    }
  }

  lemma {:induction false} PlotIndexLoopComplete(plotCount: nat, length: nat, current: seq<nat>, from: nat, s: seq<nat>)
    requires |current| < length
    requires from <= plotCount
    requires Extends(s, current, length, plotCount) && from <= s[|current|]
    ensures s in PlotIndexLoop(plotCount, length, current, from)
    decreases length - |current|, plotCount - from
  {
    var k := |current|;
    assert from < plotCount;
    if s[k] == from {
      assert s[..k + 1] == current + [from];
      GenerateSequencesOfLengthComplete(plotCount, length, current + [from], s);
    } else {
      PlotIndexLoopComplete(plotCount, length, current, from + 1, s);
    }
  }

  /** The enumeration of all sequences of one length, from the empty prefix,
      holds exactly the sequences of that length over the plot indices. */
  lemma EnumeratesExactly(plotCount: nat, length: nat, s: seq<nat>)
    ensures s in GenerateSequencesOfLength(plotCount, length, [])
      <==> |s| == length && forall j :: 0 <= j < |s| ==> s[j] < plotCount
  {
    if |s| == length && forall j :: 0 <= j < |s| ==> s[j] < plotCount {
      assert s[..0] == [];
      GenerateSequencesOfLengthComplete(plotCount, length, [], s);
    }
  }

  /** All blocks of lengths 1 to `last`, in increasing order of length. */
  function Blocks(plotCount: nat, last: nat): (r: seq<seq<nat>>)
    ensures |r| == SumOfPowers(plotCount, last)
    ensures forall i :: 0 <= i < |r| ==>
      1 <= |r[i]| <= last && forall j :: 0 <= j < |r[i]| ==> r[i][j] < plotCount
    ensures forall i, j :: 0 <= i < j < |r| ==> |r[i]| <= |r[j]|
  {
    if last == 0 then []
    else Blocks(plotCount, last - 1) + GenerateSequencesOfLength(plotCount, last, [])
  }

  /** plotCount^1 + ... + plotCount^last */
  function SumOfPowers(b: nat, last: nat): nat {
    if last == 0 then 0 else SumOfPowers(b, last - 1) + Pow(b, last)
  }

  /** The candidate list: lengths 1 up to min(5, plotCount), stopping after
      the first length that brings the total above 500. */
  function GenerateOptimalSequences(plotCount: nat): (r: seq<seq<nat>>)
    ensures forall i :: 0 <= i < |r| ==>
      1 <= |r[i]| <= Min(MaxLength, plotCount) && forall j :: 0 <= j < |r[i]| ==> r[i][j] < plotCount
    ensures forall i, j :: 0 <= i < j < |r| ==> |r[i]| <= |r[j]|
  {
    LengthLoop(plotCount, 1, [])
  }

  /** The `for (length = 1; length <= Math.min(5, plotCount); length++)` loop
      of `generateOptimalSequences`, with its `break` once more than 500
      sequences exist. */
  function LengthLoop(plotCount: nat, length: nat, acc: seq<seq<nat>>): (r: seq<seq<nat>>)
    requires 1 <= length
    requires forall i :: 0 <= i < |acc| ==>
      1 <= |acc[i]| < length && |acc[i]| <= Min(MaxLength, plotCount)
      && forall j :: 0 <= j < |acc[i]| ==> acc[i][j] < plotCount
    requires forall i, j :: 0 <= i < j < |acc| ==> |acc[i]| <= |acc[j]|
    ensures forall i :: 0 <= i < |r| ==>
      1 <= |r[i]| <= Min(MaxLength, plotCount) && forall j :: 0 <= j < |r[i]| ==> r[i][j] < plotCount
    ensures forall i, j :: 0 <= i < j < |r| ==> |r[i]| <= |r[j]|
    decreases Min(MaxLength, plotCount) + 1 - length
  {
    if length > Min(MaxLength, plotCount) then acc
    else
      var block := GenerateSequencesOfLength(plotCount, length, []);
      assert forall i :: 0 <= i < |block| ==> |block[i]| == length;
      var next := acc + block;
      if |next| > SequenceCap then next else LengthLoop(plotCount, length + 1, next)
  }

  /** The length after which the enumeration ends, computed from the block
      sizes alone: the first length from `length` on whose running total
      exceeds 500, or min(5, plotCount) if none does. */
  function StopLength(plotCount: nat, length: nat): (last: nat)
    requires 1 <= length <= Min(MaxLength, plotCount) + 1
    requires SumOfPowers(plotCount, length - 1) <= SequenceCap
    ensures length - 1 <= last <= Min(MaxLength, plotCount)
    ensures length <= Min(MaxLength, plotCount) ==> length <= last
    ensures last == Min(MaxLength, plotCount) || SumOfPowers(plotCount, last) > SequenceCap
    ensures forall l :: length - 1 <= l < last ==> SumOfPowers(plotCount, l) <= SequenceCap
    decreases Min(MaxLength, plotCount) + 1 - length
  {
    if length > Min(MaxLength, plotCount) then length - 1
    else if SumOfPowers(plotCount, length) > SequenceCap then length
    else StopLength(plotCount, length + 1)
  }

  /** The candidate list is exactly the blocks of lengths 1 to the stop
      length: the cap is checked only after a whole length is appended. */
  lemma GenerateOptimalSequencesIsBlocks(plotCount: nat)
    ensures GenerateOptimalSequences(plotCount) == Blocks(plotCount, StopLength(plotCount, 1))
  {
    LengthLoopIsBlocks(plotCount, 1);
  }

  lemma {:induction false} LengthLoopIsBlocks(plotCount: nat, length: nat)
    requires 1 <= length <= Min(MaxLength, plotCount) + 1
    requires SumOfPowers(plotCount, length - 1) <= SequenceCap
    ensures LengthLoop(plotCount, length, Blocks(plotCount, length - 1))
      == Blocks(plotCount, StopLength(plotCount, length))
    decreases Min(MaxLength, plotCount) + 1 - length
  {
    if length <= Min(MaxLength, plotCount) && SumOfPowers(plotCount, length) <= SequenceCap {
      LengthLoopIsBlocks(plotCount, length + 1);
    }
  }

  /** With five plots the cap is overshot: lengths 1 to 4 are all kept,
      5 + 25 + 125 + 625 = 780 sequences. */
  lemma FivePlotsOvershootCap(plotCount: nat)
    requires plotCount == 5
    ensures |GenerateOptimalSequences(plotCount)| == 780
  {
    GenerateOptimalSequencesIsBlocks(plotCount);
    assert SumOfPowers(plotCount, 3) == 155;
    assert SumOfPowers(plotCount, 4) == 780;
    assert StopLength(plotCount, 4) == 4;
    assert StopLength(plotCount, 1) == 4;
  }

  /** More plots overshoot further: with six plots lengths 1 to 4 are kept,
      6 + 36 + 216 + 1296 = 1554 sequences. */
  lemma SixPlotsOvershootCap(plotCount: nat)
    requires plotCount == 6
    ensures |GenerateOptimalSequences(plotCount)| == 1554
  {
    GenerateOptimalSequencesIsBlocks(plotCount);
    assert SumOfPowers(plotCount, 3) == 258;
    assert SumOfPowers(plotCount, 4) == 1554;
    assert StopLength(plotCount, 4) == 4;
    assert StopLength(plotCount, 1) == 4;
  }

  /** Up to four plots nothing is cut: every length from 1 to plotCount is
      enumerated. */
  lemma SmallConfigurationsComplete(plotCount: nat)
    requires plotCount <= 4
    ensures GenerateOptimalSequences(plotCount) == Blocks(plotCount, plotCount)
  {
    GenerateOptimalSequencesIsBlocks(plotCount);
    var last := StopLength(plotCount, 1);
    SumOfPowersMonotone(plotCount, 4, last, 4);
    assert SumOfPowers(4, 4) == 340;
  }

  lemma {:induction false} SumOfPowersMonotone(b: nat, b': nat, e: nat, e': nat)
    requires b <= b' && e <= e'
    ensures SumOfPowers(b, e) <= SumOfPowers(b', e')
    decreases e'
  {
    if e' > 0 {
      if e == e' {
        SumOfPowersMonotone(b, b', e - 1, e' - 1);
        PowMonotone(b, b', e);
      } else {
        SumOfPowersMonotone(b, b', e, e' - 1);
      }
    }
  }

  lemma {:induction false} PowMonotone(b: nat, b': nat, e: nat)
    requires b <= b'
    ensures Pow(b, e) <= Pow(b', e)
  {
    if e > 0 {
      PowMonotone(b, b', e - 1);
      ProductMonotone(b, b', Pow(b, e - 1), Pow(b', e - 1));
    }
  }

  lemma ProductMonotone(a: nat, a': nat, x: nat, x': nat)
    requires a <= a' && x <= x'
    ensures a * x <= a' * x'
  {
    assert a' * x' - a * x == (a' - a) * x' + a * (x' - x);
  }
}
