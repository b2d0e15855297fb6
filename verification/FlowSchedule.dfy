/** Shifted sigma grids: the worker's aligned pair of schedules, the adapters' direct ones and their nesting. */
module FlowSchedule {
  import opened Wrappers
  import opened Arith

  lemma ShiftDenominator(b: real, shift: real)
    requires 0.0 <= b <= 1.0 && shift > 0.0
    ensures 1.0 + (shift - 1.0) * b > 0.0
  {
    assert 1.0 + (shift - 1.0) * b == (1.0 - b) + shift * b;
    if b < 1.0 { assert shift * b >= 0.0; } else { assert shift * b == shift; }
  }

  lemma UnshiftDenominator(v: real, shift: real)
    requires 0.0 <= v <= 1.0 && shift > 0.0
    ensures shift + v * (1.0 - shift) > 0.0
  {
    assert shift + v * (1.0 - shift) == shift * (1.0 - v) + v;
    if v < 1.0 { assert shift * (1.0 - v) > 0.0; }
  }

  /** The flow shift of the unit grid. */
  function Shifted(b: real, shift: real): real
    requires 0.0 <= b <= 1.0 && shift > 0.0
  {
    ShiftDenominator(b, shift);
    shift * b / (1.0 + (shift - 1.0) * b)
  }

  /** The worker's way back from a shifted sigma to the unit grid. */
  function Unshifted(v: real, shift: real): real
    requires 0.0 <= v <= 1.0 && shift > 0.0
  {
    UnshiftDenominator(v, shift);
    v / (shift + v * (1.0 - shift))
  }

  lemma QuotientLess(p: real, q: real, r: real, t: real)
    requires q > 0.0 && t > 0.0 && p * t < r * q
    ensures p / q < r / t
  {
    var x, y := p / q, r / t;
    assert p == x * q && r == y * t;
    assert p * t == x * (q * t) && r * q == y * (q * t);
    assert (y - x) * (q * t) == y * (q * t) - x * (q * t);
    assert (y - x) * (q * t) > 0.0 && q * t > 0.0;
    assert y > x;
  }

  lemma ShiftedIncreases(a: real, b: real, shift: real)
    requires 0.0 <= a < b <= 1.0 && shift > 0.0
    ensures Shifted(a, shift) < Shifted(b, shift)
  {
    ShiftDenominator(a, shift);
    ShiftDenominator(b, shift);
    var da, db := 1.0 + (shift - 1.0) * a, 1.0 + (shift - 1.0) * b;
    assert (shift * b) * da - (shift * a) * db == shift * (b - a);
    assert shift * (b - a) > 0.0;
    QuotientLess(shift * a, da, shift * b, db);
  }

  lemma ShiftedEnds(shift: real)
    requires shift > 0.0
    ensures Shifted(0.0, shift) == 0.0 && Shifted(1.0, shift) == 1.0
  {
  }

  lemma ShiftedInUnit(b: real, shift: real)
    requires 0.0 <= b <= 1.0 && shift > 0.0
    ensures 0.0 <= Shifted(b, shift) <= 1.0
  {
    ShiftedEnds(shift);
    if 0.0 < b { ShiftedIncreases(0.0, b, shift); }
    if b < 1.0 { ShiftedIncreases(b, 1.0, shift); }
  }

  /** Unshifting undoes the shift on the whole unit interval. */
  lemma UnshiftedInvertsShifted(b: real, shift: real)
    requires 0.0 <= b <= 1.0 && shift > 0.0
    ensures 0.0 <= Shifted(b, shift) <= 1.0
    ensures Unshifted(Shifted(b, shift), shift) == b
  {
    ShiftedInUnit(b, shift);
    ShiftDenominator(b, shift);
    var v, d := Shifted(b, shift), 1.0 + (shift - 1.0) * b;
    UnshiftDenominator(v, shift);
    var e := shift + v * (1.0 - shift);
    assert v * d == shift * b;
    assert e * d == shift * d + (v * d) * (1.0 - shift);
    assert e * d == shift;
    assert (b * e) * d == b * shift;
    assert (v - b * e) * d == 0.0;
    assert v == b * e;
  }

  // ----- The grids

  function Unit(nfe: nat, i: nat): (b: real)
    requires 1 <= nfe && i <= nfe
    ensures 0.0 <= b <= 1.0
  {
    1.0 - i as real / nfe as real
  }

  /** The adapters' schedule of one modality. */
  function Grid(nfe: nat, shift: real): (s: seq<real>)
    requires nfe >= 1 && shift > 0.0
    ensures |s| == nfe + 1 && forall i: nat :: i <= nfe ==> s[i] == Shifted(Unit(nfe, i), shift)
  {
    seq(nfe + 1, i requires 0 <= i < nfe + 1 => Shifted(Unit(nfe, i), shift))
  }

  datatype Schedule = Schedule(video: seq<real>, audio: seq<real>)

  datatype Error = NonPositiveEvaluations

  function AdapterSchedule(nfe: int, videoShift: real, audioShift: real): Result<Schedule, Error>
    requires videoShift > 0.0 && audioShift > 0.0
  {
    if nfe <= 0 then Err(NonPositiveEvaluations)
    else Ok(Schedule(Grid(nfe, videoShift), Grid(nfe, audioShift)))
  }

  lemma GridInUnit(nfe: nat, shift: real)
    requires nfe >= 1 && shift > 0.0
    ensures forall i: nat :: i <= nfe ==> 0.0 <= Grid(nfe, shift)[i] <= 1.0
  {
    forall i: nat | i <= nfe ensures 0.0 <= Grid(nfe, shift)[i] <= 1.0 { ShiftedInUnit(Unit(nfe, i), shift); }
  }

  /** The worker's schedule: the audio grid is computed from the video grid by inverting the video shift. */
  function BinarySchedule(nfe: int, videoShift: real, audioShift: real): Result<Schedule, Error>
    requires videoShift > 0.0 && audioShift > 0.0
  {
    if nfe <= 0 then Err(NonPositiveEvaluations)
    else
      var video := Grid(nfe, videoShift);
      GridInUnit(nfe, videoShift);
      Ok(Schedule(video, seq(nfe + 1, i requires 0 <= i < nfe + 1 =>
        (UnshiftedInvertsShifted(Unit(nfe, i), videoShift);
         Shifted(Unshifted(video[i], videoShift), audioShift)))))
  }

  /** For every number of evaluations both constructions give the same pair of grids. */
  lemma WorkerMatchesAdapter(nfe: int, videoShift: real, audioShift: real)
    requires videoShift > 0.0 && audioShift > 0.0
    ensures BinarySchedule(nfe, videoShift, audioShift) == AdapterSchedule(nfe, videoShift, audioShift)
  {
    if nfe > 0 {
      forall i: nat | i <= nfe
        ensures BinarySchedule(nfe, videoShift, audioShift).value.audio[i] == Grid(nfe, audioShift)[i]
      {
        UnshiftedInvertsShifted(Unit(nfe, i), videoShift);
      }
      assert BinarySchedule(nfe, videoShift, audioShift).value.audio == Grid(nfe, audioShift);
    }
  }

  lemma UnitFalls(nfe: nat, i: nat, j: nat)
    requires 1 <= nfe && i < j <= nfe
    ensures Unit(nfe, i) > Unit(nfe, j)
  {
    QuotientLess(i as real, nfe as real, j as real, nfe as real);
  }

  lemma UnitEnds(nfe: nat)
    requires nfe >= 1
    ensures Unit(nfe, 0) == 1.0 && Unit(nfe, nfe) == 0.0
  {
    var n := nfe as real;
    assert 0.0 / n == 0.0;
    var x := n / n;
    assert x * n == n;
    assert (x - 1.0) * n == 0.0;
  }

  /** A grid falls strictly from 1 to 0. */
  lemma GridFalls(nfe: nat, shift: real)
    requires nfe >= 1 && shift > 0.0
    ensures Grid(nfe, shift)[0] == 1.0 && Grid(nfe, shift)[nfe] == 0.0
    ensures forall i: nat, j: nat :: i < j <= nfe ==> Grid(nfe, shift)[i] > Grid(nfe, shift)[j]
  {
    ShiftedEnds(shift);
    UnitEnds(nfe);
    forall i: nat, j: nat | i < j <= nfe ensures Grid(nfe, shift)[i] > Grid(nfe, shift)[j] {
      UnitFalls(nfe, i, j);
      ShiftedIncreases(Unit(nfe, j), Unit(nfe, i), shift);
    }
  }

  /** The n-step grid is every k-th point of the grid with n*k steps. */
  lemma GridRefines(nfe: nat, k: nat, shift: real, i: nat)
    requires nfe >= 1 && k >= 1 && shift > 0.0 && i <= nfe
    ensures i * k <= nfe * k && nfe * k >= 1
    ensures Grid(nfe * k, shift)[i * k] == Grid(nfe, shift)[i]
  {
    MulMonotone(i, nfe, k);
    MulAtLeast(nfe, k);
    assert (i * k) as real == i as real * k as real;
    assert (nfe * k) as real == nfe as real * k as real;
    var x := i as real / nfe as real;
    assert x * nfe as real == i as real;
    assert (i * k) as real == x * (nfe * k) as real;
    assert (i * k) as real / (nfe * k) as real == x;
  }

  // ----- What the grid points are

  /** Shifting multiplies the odds of a sigma. */
  lemma ShiftMultipliesOdds(b: real, shift: real)
    requires 0.0 <= b <= 1.0 && shift > 0.0
    ensures Shifted(b, shift) * (1.0 - b) == shift * b * (1.0 - Shifted(b, shift))
  {
    ShiftDenominator(b, shift);
    var d := 1.0 + (shift - 1.0) * b;
    var x := Shifted(b, shift);
    assert x * d == shift * b;
    OddsArithmetic(x, b, shift);
  }

  lemma OddsArithmetic(x: real, b: real, shift: real)
    requires x * (1.0 + (shift - 1.0) * b) == shift * b
    ensures x * (1.0 - b) == shift * b * (1.0 - x)
  {
    assert x * (1.0 + (shift - 1.0) * b) == x * (1.0 - b) + x * (shift * b);
    assert shift * b * (1.0 - x) == shift * b - x * (shift * b);
  }

  /** Point i of a grid: its odds are the shift times those of i evaluations done, nfe - i to go. */
  lemma GridOdds(nfe: nat, shift: real, i: nat)
    requires nfe >= 1 && shift > 0.0 && i <= nfe
    ensures Grid(nfe, shift)[i] * i as real == shift * (nfe - i) as real * (1.0 - Grid(nfe, shift)[i])
  {
    var x, n, b := Grid(nfe, shift)[i], nfe as real, Unit(nfe, i);
    ShiftMultipliesOdds(b, shift);
    UnitTimes(nfe, i);
    OddsScale(x, b, shift, n, i as real);
  }

  lemma UnitTimes(nfe: nat, i: nat)
    requires nfe >= 1 && i <= nfe
    ensures Unit(nfe, i) * nfe as real == nfe as real - i as real
  {
    var q := i as real / nfe as real;
    assert q * nfe as real == i as real;
  }

  lemma OddsScale(x: real, b: real, shift: real, n: real, i: real)
    requires x * (1.0 - b) == shift * b * (1.0 - x) && b * n == n - i
    ensures x * i == shift * (n - i) * (1.0 - x)
  {
    assert (1.0 - b) * n == i;
    assert x * i == x * (1.0 - b) * n;
    assert x * (1.0 - b) * n == shift * b * (1.0 - x) * n;
    assert shift * b * (1.0 - x) * n == shift * (b * n) * (1.0 - x);
  }

  /** Every point of a grid has the odds of its shift. */
  ghost predicate HasOdds(s: seq<real>, nfe: nat, shift: real) {
    && |s| == nfe + 1
    && forall i: nat :: i <= nfe ==> s[i] * i as real == shift * (nfe - i) as real * (1.0 - s[i])
  }

  /** The worker's pair of grids: the video's has the odds of the video shift, the audio's those of the audio shift. */
  lemma BinaryScheduleIs(nfe: int, videoShift: real, audioShift: real)
    requires videoShift > 0.0 && audioShift > 0.0
    ensures var r := BinarySchedule(nfe, videoShift, audioShift);
            && (r.Ok? <==> nfe > 0)
            && (r.Ok? ==> HasOdds(r.value.video, nfe, videoShift) && HasOdds(r.value.audio, nfe, audioShift))
  {
    WorkerMatchesAdapter(nfe, videoShift, audioShift);
    if nfe > 0 {
      GridHasOdds(nfe, videoShift);
      GridHasOdds(nfe, audioShift);
    }
  }

  lemma GridHasOdds(nfe: nat, shift: real)
    requires nfe >= 1 && shift > 0.0
    ensures HasOdds(Grid(nfe, shift), nfe, shift)
  {
    hide Grid;
    forall i: nat | i <= nfe
      ensures Grid(nfe, shift)[i] * i as real == shift * (nfe - i) as real * (1.0 - Grid(nfe, shift)[i])
    {
      GridOdds(nfe, shift, i);
    }
  }
}
