/**
 The schedule reducer of the H3 sampling node: a rounded linspace selects points of a base sigma
 schedule and the terminal sigma is appended. Reals stand for the double precision grid.
 */
module ReducedSigmas {
  import opened Wrappers

  /** Round half to even. */
  function Round(x: real): (r: int)
    ensures r as real - 0.5 <= x <= r as real + 0.5
    ensures x == x.Floor as real ==> r == x.Floor
    ensures x - x.Floor as real == 0.5 ==> r % 2 == 0
  {
    var f := x.Floor;
    var d := x - f as real;
    if d < 0.5 then f
    else if d > 0.5 then f + 1
    else if f % 2 == 0 then f
    else f + 1
  }

  /** The ideal spacing of `target` points over 0..last. */
  function Spacing(last: nat, target: nat): real
    requires target >= 2
  {
    last as real / (target - 1) as real
  }

  function Point(last: nat, target: nat, i: nat): real
    requires target >= 1 && i < target
  {
    if target == 1 then 0.0 else i as real * Spacing(last, target)
  }

  function Indices(last: nat, target: nat): (s: seq<int>)
    requires target >= 1
    ensures |s| == target && forall i: nat :: i < target ==> s[i] == Round(Point(last, target, i))
  {
    seq(target, i requires 0 <= i < target => Round(Point(last, target, i)))
  }

  function UniqueConsecutive(s: seq<int>): seq<int> {
    if |s| <= 1 then s
    else if s[0] == s[1] then UniqueConsecutive(s[1..])
    else [s[0]] + UniqueConsecutive(s[1..])
  }

  function Clamp(s: seq<int>, last: nat): (r: seq<int>)
    ensures |r| == |s|
    ensures forall i :: 0 <= i < |s| ==> 0 <= r[i] <= last && (0 <= s[i] <= last ==> r[i] == s[i])
  {
    seq(|s|, i requires 0 <= i < |s| => if s[i] < 0 then 0 else if s[i] > last then last else s[i])
  }

  function Selected(last: nat, target: nat): seq<int>
    requires target >= 1
  {
    Clamp(UniqueConsecutive(Indices(last, target)), last)
  }

  datatype Error = InvalidTarget | IndexOutOfRange

  function LastOf(s: seq<real>, n: nat): (r: seq<real>)
    ensures |s| >= n ==> |r| == n
  {
    if |s| <= n then s else s[|s| - n..]
  }

  /** The steps the base schedule is asked for. */
  function TotalSteps(steps: nat, denoise: real): (n: nat)
    requires denoise > 0.0
    ensures n >= steps
  {
    if denoise < 1.0 then
      assert steps as real / denoise >= steps as real;
      (steps as real / denoise).Floor
    else steps
  }

  /** Select the rounded indices of the schedule and append its terminal sigma. */
  function Pick(sigmas: seq<real>, steps: nat, target: nat): Result<seq<real>, Error>
    requires 1 <= target <= steps
  {
    if target == steps then Ok(sigmas)
    else
      var indices := Selected(steps - 1, target);
      if sigmas == [] || exists i :: 0 <= i < |indices| && indices[i] >= |sigmas| then Err(IndexOutOfRange)
      else
        Ok(seq(|indices|, i requires 0 <= i < |indices| && 0 <= indices[i] < |sigmas| => sigmas[indices[i]])
           + [sigmas[|sigmas| - 1]])
  }

  /** `calculate` is the sampler library's base schedule for a number of steps. */
  function Reduce(calculate: nat -> seq<real>, steps: int, denoise: real, target: int): Result<seq<real>, Error> {
    if steps < 1 || target < 1 || target > steps then Err(InvalidTarget)
    else if denoise <= 0.0 then Ok([])
    else Pick(LastOf(calculate(TotalSteps(steps, denoise)), steps + 1), steps, target)
  }

  /** The base schedule is asked for steps / denoise steps, rounded down, or for the steps themselves. */
  lemma TotalStepsIs(steps: nat, denoise: real)
    requires denoise > 0.0
    ensures var total := TotalSteps(steps, denoise);
            && (denoise >= 1.0 ==> total == steps)
            && (denoise < 1.0 ==> total as real * denoise <= steps as real < (total + 1) as real * denoise)
  {
    if denoise < 1.0 {
      var x, total := steps as real / denoise, TotalSteps(steps, denoise);
      assert x * denoise == steps as real;
      ScaledOrder(total as real, x, denoise);
      ScaledOrder(x, (total + 1) as real, denoise);
    }
  }

  lemma ScaledOrder(x: real, y: real, d: real)
    requires d > 0.0 && x <= y
    ensures x * d <= y * d && (x < y ==> x * d < y * d)
  {
  }

  // ----- The rounded grid

  lemma SpacingAboveOne(last: nat, target: nat)
    requires 2 <= target <= last
    ensures Spacing(last, target) > 1.0
  {
  }

  lemma PointStep(last: nat, target: nat, i: nat)
    requires target >= 2 && i + 1 < target
    ensures Point(last, target, i + 1) == Point(last, target, i) + Spacing(last, target)
  {
    assert (i + 1) as real == i as real + 1.0;
  }

  /** Points further than one apart never round to the same index. */
  lemma RoundingSeparates(x: real, y: real)
    requires y > x + 1.0
    ensures Round(x) < Round(y)
  {
  }

  /** Rounding a step of d moves by the floor or the ceiling of d, or by d itself when d is whole. */
  lemma GapIsFloorOrCeiling(x: real, d: real)
    requires d == d.Floor as real ==> x == x.Floor as real
    ensures var gap := Round(x + d) - Round(x);
            gap == d.Floor || (gap == d.Floor + 1 && d != d.Floor as real)
  {
    if d == d.Floor as real {
      assert x + d == (x.Floor + d.Floor) as real;
    }
  }

  /** When the spacing is a whole number every point is a whole number. */
  lemma WholeSpacing(last: nat, target: nat, i: nat)
    requires target >= 2 && i < target && Spacing(last, target) == Spacing(last, target).Floor as real
    ensures Point(last, target, i) == Point(last, target, i).Floor as real
  {
    var s := Spacing(last, target).Floor;
    assert Point(last, target, i) == (i * s) as real;
  }

  lemma LastPoint(last: nat, target: nat)
    requires target >= 2
    ensures Point(last, target, target - 1) == last as real
  {
  }

  /** The rounded indices start at 0, rise strictly, and end at `last` when there are at least two. */
  lemma {:induction false} IndicesRise(last: nat, target: nat, i: nat, j: nat)
    requires 1 <= target <= last && i < j < target
    ensures Indices(last, target)[i] < Indices(last, target)[j]
    decreases j
  {
    SpacingAboveOne(last, target);
    PointStep(last, target, j - 1);
    RoundingSeparates(Point(last, target, j - 1), Point(last, target, j));
    if i < j - 1 { IndicesRise(last, target, i, j - 1); }
  }

  lemma IndexEnds(last: nat, target: nat)
    requires 1 <= target <= last
    ensures Indices(last, target)[0] == 0
    ensures target >= 2 ==> Indices(last, target)[target - 1] == last
    ensures forall i: nat :: i < target ==> 0 <= Indices(last, target)[i] <= last
  {
    assert Point(last, target, 0) == 0.0;
    if target >= 2 { LastPoint(last, target); }
    forall i: nat | i < target ensures 0 <= Indices(last, target)[i] <= last {
      if 0 < i { IndicesRise(last, target, 0, i); }
      if i < target - 1 { IndicesRise(last, target, i, target - 1); }
    }
  }

  lemma GapsAreEven(last: nat, target: nat, i: nat)
    requires 2 <= target <= last && i + 1 < target
    ensures var gap, d := Indices(last, target)[i + 1] - Indices(last, target)[i], Spacing(last, target);
            gap == d.Floor || (gap == d.Floor + 1 && d != d.Floor as real)
  {
    PointStep(last, target, i);
    if Spacing(last, target) == Spacing(last, target).Floor as real { WholeSpacing(last, target, i); }
    GapIsFloorOrCeiling(Point(last, target, i), Spacing(last, target));
  }

  lemma {:induction false} NothingToDeduplicate(s: seq<int>)
    requires forall i, j :: 0 <= i < j < |s| ==> s[i] < s[j]
    ensures UniqueConsecutive(s) == s
  {
    if |s| > 1 { NothingToDeduplicate(s[1..]); }
  }

  /** De-duplication and clamping change nothing. */
  lemma SelectedIsRounded(last: nat, target: nat)
    requires 1 <= target <= last
    ensures Selected(last, target) == Indices(last, target)
  {
    var s := Indices(last, target);
    forall i, j | 0 <= i < j < |s| ensures s[i] < s[j] { IndicesRise(last, target, i, j); }
    NothingToDeduplicate(s);
    IndexEnds(last, target);
  }

  lemma SelectedFacts(last: nat, target: nat) returns (s: seq<int>)
    requires 1 <= target <= last
    ensures s == Selected(last, target) && |s| == target && s[0] == 0
    ensures forall i :: 0 <= i < target ==> 0 <= s[i] <= last
    ensures forall i, j :: 0 <= i < j < target ==> s[i] < s[j]
  {
    s := Indices(last, target);
    SelectedIsRounded(last, target);
    IndexEnds(last, target);
    forall i, j | 0 <= i < j < target ensures s[i] < s[j] { IndicesRise(last, target, i, j); }
  }

  // ----- The reduced schedule

  ghost predicate StrictlyDecreasing(s: seq<real>) {
    forall i, j :: 0 <= i < j < |s| ==> s[i] > s[j]
  }

  /** The picked positions rise strictly from the first to the terminal sigma. */
  ghost predicate RisingPicks(picks: seq<int>, steps: nat, target: nat) {
    && |picks| == target + 1 && picks[0] == 0 && picks[target] == steps
    && (forall i :: 0 <= i <= target ==> 0 <= picks[i] <= steps)
    && (forall i, j :: 0 <= i < j <= target ==> picks[i] < picks[j])
  }

  /** The picks before the terminal one are the points of an even grid over 0..steps-1, to the nearest integer. */
  ghost predicate EvenPicks(picks: seq<int>, steps: nat, target: nat)
    requires |picks| == target + 1
  {
    && (target == steps ==> forall i :: 0 <= i <= target ==> picks[i] == i)
    && (2 <= target < steps ==> forall i: nat :: i < target ==> IsNearest(picks[i], i, steps - 1, target - 1))
  }

  /** i * last / parts, rounded to the nearest integer, halves to even. */
  ghost predicate IsNearest(pick: int, i: nat, last: nat, parts: nat)
    requires parts > 0
  {
    var twice := 2 * Excess(pick, i, last, parts);
    && 0 - parts <= twice <= parts
    && (twice == parts || twice == 0 - parts ==> pick % 2 == 0)
  }

  /** How far the pick lies beyond the point, in parts. */
  function Excess(pick: int, i: nat, last: nat, parts: nat): int {
    pick * parts - i * last
  }

  lemma RoundedIsNearest(last: nat, target: nat, i: nat)
    requires 2 <= target <= last && i < target
    ensures IsNearest(Indices(last, target)[i], i, last, target - 1)
  {
    var x, parts := Point(last, target, i), (target - 1) as real;
    assert x * parts == i as real * last as real by {
      assert Spacing(last, target) * parts == last as real;
      assert x * parts == i as real * (Spacing(last, target) * parts);
    }
    NearestToQuotient(x, Round(x), i, last, target - 1);
  }

  function Times(a: real, b: real): real {
    a * b
  }

  lemma ExcessIs(x: real, r: int, i: nat, last: nat, parts: nat)
    requires x * parts as real == i as real * last as real
    ensures Excess(r, i, last, parts) as real == Times(r as real - x, parts as real)
  {
    Distributes(r as real, x, parts as real);
    assert (r * parts) as real == r as real * parts as real && (i * last) as real == i as real * last as real;
  }

  lemma NearestToQuotient(x: real, r: int, i: nat, last: nat, parts: nat)
    requires parts > 0 && x * parts as real == i as real * last as real && r == Round(x)
    ensures IsNearest(r, i, last, parts)
  {
    hide Times, Excess;
    ExcessIs(x, r, i, last, parts);
    HalfScaled(r as real - x, parts);
    if r as real - x == 0.5 || r as real - x == -0.5 {
      HalvesAreEven(x, r);
    }
    WithinHalf(Excess(r, i, last, parts), Times(r as real - x, parts as real), parts, r);
  }

  /** What lies within half of the parts, in whole numbers. */
  lemma WithinHalf(n: int, t: real, parts: nat, r: int)
    requires n as real == t && -(parts as real) <= 2.0 * t <= parts as real
    requires 2.0 * t == parts as real || 2.0 * t == -(parts as real) ==> r % 2 == 0
    ensures 0 - parts <= 2 * n <= parts && (2 * n == parts || 2 * n == 0 - parts ==> r % 2 == 0)
  {
    assert (2 * n) as real == 2.0 * t;
  }

  lemma HalfScaled(d: real, parts: nat)
    requires parts > 0 && -0.5 <= d <= 0.5
    ensures -(parts as real) <= 2.0 * Times(d, parts as real) <= parts as real
    ensures 2.0 * Times(d, parts as real) == parts as real || 2.0 * Times(d, parts as real) == -(parts as real)
            ==> d == 0.5 || d == -0.5
  {
    var p := parts as real;
    ScaledOrder(-0.5, d, p);
    ScaledOrder(d, 0.5, p);
  }

  lemma Distributes(a: real, b: real, c: real)
    ensures (a - b) * c == a * c - b * c
  {
  }

  lemma HalvesAreEven(x: real, r: int)
    requires r == Round(x) && (r as real - x == 0.5 || r as real - x == -0.5)
    ensures r % 2 == 0
  {
    assert x - x.Floor as real == 0.5;
  }

  lemma PickSchedule(base: seq<real>, steps: nat, target: nat) returns (picks: seq<int>)
    requires 1 <= target <= steps && |base| == steps + 1
    ensures RisingPicks(picks, steps, target) && EvenPicks(picks, steps, target)
    ensures var r := Pick(base, steps, target);
            r.Ok? && |r.value| == target + 1 && forall i :: 0 <= i <= target ==> r.value[i] == base[picks[i]]
  {
    if target == steps {
      picks := seq(steps + 1, i => i);
    } else {
      var s := SelectedFacts(steps - 1, target);
      picks := s + [steps];
      SelectedIsRounded(steps - 1, target);
      if target >= 2 {
        forall i: nat | i < target ensures IsNearest(picks[i], i, steps - 1, target - 1) {
          RoundedIsNearest(steps - 1, target, i);
        }
      }
      hide Selected, IsNearest;
    }
  }

  /**
   For a strictly decreasing base schedule the reduced one has target+1 entries, is a subsequence of the last
   steps+1 base entries picked at strictly increasing positions, keeps both end points and stays strictly decreasing.
   */
  lemma ReducedSchedule(calculate: nat -> seq<real>, steps: nat, denoise: real, target: nat) returns (picks: seq<int>)
    requires 1 <= target <= steps && denoise > 0.0
    requires var base := calculate(TotalSteps(steps, denoise)); |base| >= steps + 1 && StrictlyDecreasing(base)
    ensures RisingPicks(picks, steps, target) && EvenPicks(picks, steps, target)
    ensures var base := calculate(TotalSteps(steps, denoise));
            var first, r := |base| - (steps + 1), Reduce(calculate, steps, denoise, target);
            && r.Ok? && |r.value| == target + 1
            && (forall i :: 0 <= i <= target ==> r.value[i] == base[first + picks[i]])
            && r.value[0] == base[first] && r.value[target] == base[|base| - 1]
            && StrictlyDecreasing(r.value)
  {
    var base := LastOf(calculate(TotalSteps(steps, denoise)), steps + 1);
    picks := PickSchedule(base, steps, target);
    hide EvenPicks, Pick;
  }

  /** A longer or empty target is rejected, and a zero denoise yields an empty schedule. */
  lemma ReduceRejects(calculate: nat -> seq<real>, steps: int, denoise: real, target: int)
    ensures Reduce(calculate, steps, denoise, target) == Err(InvalidTarget) <==> !(1 <= target <= steps)
    ensures 1 <= target <= steps && denoise <= 0.0 ==> Reduce(calculate, steps, denoise, target) == Ok([])
  {
  }
}
