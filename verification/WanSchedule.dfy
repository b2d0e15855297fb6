/**
 Wan sigma grids. The grid itself comes from a foreign scheduler; every stage of a progressive distillation
 takes its own grid out of it.
 */
module WanSchedule {
  import opened Wrappers
  import opened Arith
  import opened Totals

  datatype Schedule = Schedule(mode: string, sigmas: seq<real>, timesteps: seq<real>, trainTimesteps: int, shift: real,
                               sourceNfe: Option<int>)

  datatype Error =
    | NoMode | NoEvaluation | TimestepCount | NotEndingAtZero | NotFalling | TimestepsOff
    | FactorTooSmall | FactorDoesNotDivide | NotPositive | NotADivisor

  predicate IsClose(actual: real, wanted: real, relative: real, absolute: real) {
    Magnitude(actual - wanted) <= Max(relative * Max(Magnitude(actual), Magnitude(wanted)), absolute)
  }

  const NATIVE: string := "native"
  const COARSENED: string := "coarsened_from_source"

  /** Quantized timesteps are tolerated where they come from a native scheduler. */
  function Tolerance(mode: string): real {
    if mode == NATIVE || mode == COARSENED then 1.1 else 0.0001
  }

  predicate Falls(sigmas: seq<real>) {
    forall i :: 0 <= i < |sigmas| - 1 ==> sigmas[i] > sigmas[i + 1]
  }

  /** The exact timestep of a sigma. */
  function Wanted(sigma: real, trainTimesteps: int): (t: real)
    ensures t == sigma * trainTimesteps as real
  {
    sigma * trainTimesteps as real
  }

  predicate TimestepMatches(sigma: real, timestep: real, trainTimesteps: int, mode: string) {
    IsClose(timestep, Wanted(sigma, trainTimesteps), 0.00001, Tolerance(mode))
  }

  predicate TimestepsMatch(s: Schedule) {
    |s.timesteps| == |s.sigmas| - 1 &&
    forall i :: 0 <= i < |s.timesteps| ==> TimestepMatches(s.sigmas[i], s.timesteps[i], s.trainTimesteps, s.mode)
  }

  /** The checks of a new schedule, in order; None when it is accepted. */
  function Check(s: Schedule): Option<Error> {
    if s.mode == "" then Some(NoMode)
    else if |s.sigmas| < 2 then Some(NoEvaluation)
    else if |s.timesteps| != |s.sigmas| - 1 then Some(TimestepCount)
    else if s.sigmas[|s.sigmas| - 1] != 0.0 then Some(NotEndingAtZero)
    else if !Falls(s.sigmas) then Some(NotFalling)
    else if !TimestepsMatch(s) then Some(TimestepsOff)
    else None
  }

  /** What an accepted schedule satisfies, and nothing else. */
  lemma AcceptsIff(s: Schedule)
    ensures Check(s) == None <==>
              && s.mode != "" && |s.sigmas| >= 2 && |s.timesteps| == |s.sigmas| - 1
              && s.sigmas[|s.sigmas| - 1] == 0.0
              && (forall i :: 0 <= i < |s.sigmas| - 1 ==> s.sigmas[i] > s.sigmas[i + 1])
              && forall i :: 0 <= i < |s.timesteps| ==> NearTimestep(s, i)
  {
    hide TimestepMatches, NearTimestep;
    if |s.timesteps| == |s.sigmas| - 1 {
      forall i: nat | i < |s.timesteps|
        ensures TimestepMatches(s.sigmas[i], s.timesteps[i], s.trainTimesteps, s.mode) <==> NearTimestep(s, i)
      {
        TimestepIff(s, i);
      }
    }
  }

  lemma TimestepIff(s: Schedule, i: nat)
    requires i < |s.timesteps| && i < |s.sigmas|
    ensures TimestepMatches(s.sigmas[i], s.timesteps[i], s.trainTimesteps, s.mode) <==> NearTimestep(s, i)
  {
    hide Tolerance, IsClose, CloseTo, Wanted;
    ToleranceIs(s.mode);
    CloseIff(s.timesteps[i], Wanted(s.sigmas[i], s.trainTimesteps), Tolerance(s.mode));
  }

  lemma ToleranceIs(mode: string)
    ensures Tolerance(mode) == if mode == "native" || mode == "coarsened_from_source" then 1.1 else 0.0001
  {
  }

  lemma CloseIff(actual: real, wanted: real, absolute: real)
    ensures IsClose(actual, wanted, 0.00001, absolute) <==> CloseTo(actual, wanted, absolute)
  {
  }

  /** Within the absolute tolerance, or within a hundred-thousandth of either number. */
  predicate CloseTo(actual: real, wanted: real, absolute: real) {
    var off := Magnitude(actual - wanted);
    off <= absolute || off <= 0.00001 * Magnitude(actual) || off <= 0.00001 * Magnitude(wanted)
  }

  /** Timestep i is sigma i of the training steps, up to rounding, and up to quantization by a native scheduler. */
  predicate NearTimestep(s: Schedule, i: nat)
    requires i < |s.timesteps| && i < |s.sigmas|
  {
    CloseTo(s.timesteps[i], Wanted(s.sigmas[i], s.trainTimesteps),
            if s.mode == "native" || s.mode == "coarsened_from_source" then 1.1 else 0.0001)
  }

  function Nfe(s: Schedule): int {
    |s.sigmas| - 1
  }

  /** Every step-th entry, from the first. */
  function Every<T>(s: seq<T>, step: nat): (r: seq<T>)
    requires step >= 1
    decreases |s|
  {
    if s == [] then [] else if |s| <= step then [s[0]] else [s[0]] + Every(s[step..], step)
  }

  /** Take every factor-th boundary; the padding never happens, as EveryStageFits shows. */
  function Coarsen(source: Schedule, factor: int): Result<Schedule, Error>
    requires source.sigmas != []
  {
    if factor <= 1 then Err(FactorTooSmall)
    else if Nfe(source) % factor != 0 then Err(FactorDoesNotDivide)
    else
      var selected := Every(source.sigmas, factor);
      var padded := if selected == [] || selected[|selected| - 1] != 0.0 then selected + [0.0] else selected;
      var s := Schedule(COARSENED, padded, Every(source.timesteps, factor), source.trainTimesteps, source.shift,
                        Some(Nfe(source)));
      match Check(s)
      case Some(e) => Err(e)
      case None => Ok(s)
  }

  /** The grid of one stage: the source itself, or a coarsening of it. */
  function Provide(source: Schedule, nfe: int): Result<Schedule, Error>
    requires Check(source) == None
  {
    if nfe <= 0 then Err(NotPositive)
    else if nfe == Nfe(source) then Ok(source)
    else if Nfe(source) % nfe != 0 then Err(NotADivisor)
    else Coarsen(source, Nfe(source) / nfe)
  }

  // ----- What a stage gets

  lemma {:induction false} EveryAt<T>(s: seq<T>, step: nat, n: nat, i: nat)
    requires step >= 1 && n * step < |s| <= n * step + step && i <= n
    ensures |Every(s, step)| == n + 1
    ensures i * step < |s| && Every(s, step)[i] == s[i * step]
    decreases n
  {
    MulMonotone(i, n, step);
    if n > 0 {
      MulAtLeast(n, step);
      assert (n - 1) * step == n * step - step;
      EveryAt(s[step..], step, n - 1, if i > 0 then i - 1 else 0);
      if i > 0 {
        assert (i - 1) * step == i * step - step;
      }
    }
  }

  /** The grid of n evaluations taken out of a source grid of n * k. */
  ghost predicate TakenFrom(s: Schedule, source: Schedule, n: nat, k: nat) {
    && |s.sigmas| == n + 1 && |s.timesteps| == n
    && |source.sigmas| == n * k + 1 && |source.timesteps| == n * k
    && (forall i: nat {:trigger s.sigmas[i]} :: i <= n ==> i * k <= n * k && s.sigmas[i] == source.sigmas[i * k])
    && (forall i: nat {:trigger s.timesteps[i]} :: i < n ==> i * k < n * k && s.timesteps[i] == source.timesteps[i * k])
    && s.trainTimesteps == source.trainTimesteps && s.shift == source.shift
  }

  lemma {:induction false} FallsFurther(sigmas: seq<real>, i: nat, j: nat)
    requires Falls(sigmas) && i < j < |sigmas|
    ensures sigmas[i] > sigmas[j]
    decreases j
  {
    if i < j - 1 { FallsFurther(sigmas, i, j - 1); }
  }

  lemma EveryTakes(source: Schedule, n: nat, k: nat)
    requires Check(source) == None && Nfe(source) == n * k && n >= 1 && k >= 1
    ensures TakenFrom(Schedule(COARSENED, Every(source.sigmas, k), Every(source.timesteps, k), source.trainTimesteps,
                               source.shift, Some(n * k)), source, n, k)
  {
    assert (n - 1) * k == n * k - k;
    forall i: nat | i <= n
      ensures |Every(source.sigmas, k)| == n + 1 && i * k <= n * k && Every(source.sigmas, k)[i] == source.sigmas[i * k]
    {
      EveryAt(source.sigmas, k, n, i);
    }
    EveryAt(source.timesteps, k, n - 1, 0);
    forall i: nat | i < n ensures i * k < n * k && Every(source.timesteps, k)[i] == source.timesteps[i * k] {
      EveryAt(source.timesteps, k, n - 1, i);
    }
  }

  lemma TakenFalls(s: Schedule, source: Schedule, n: nat, k: nat)
    requires Falls(source.sigmas) && k >= 1 && TakenFrom(s, source, n, k)
    ensures Falls(s.sigmas)
  {
    forall i | 0 <= i < n ensures s.sigmas[i] > s.sigmas[i + 1] {
      MulMonotone(i + 1, n, k);
      assert (i + 1) * k == i * k + k;
      assert s.sigmas[i] == source.sigmas[i * k] && s.sigmas[i + 1] == source.sigmas[(i + 1) * k];
      FallsFurther(source.sigmas, i * k, (i + 1) * k);
    }
  }

  lemma TakenMatches(s: Schedule, source: Schedule, n: nat, k: nat)
    requires TimestepsMatch(source) && k >= 1 && TakenFrom(s, source, n, k) && s.mode == COARSENED
    ensures TimestepsMatch(s)
  {
    hide TimestepMatches;
    forall i | 0 <= i < n ensures TimestepMatches(s.sigmas[i], s.timesteps[i], s.trainTimesteps, s.mode) {
      MixBelow(i, 0, k, n);
      assert s.timesteps[i] == source.timesteps[i * k] && s.sigmas[i] == source.sigmas[i * k];
      CoarsenedTolerates(s.sigmas[i], s.timesteps[i], s.trainTimesteps, source.mode);
    }
  }

  lemma CoarsenedTolerates(sigma: real, timestep: real, trainTimesteps: int, mode: string)
    requires TimestepMatches(sigma, timestep, trainTimesteps, mode)
    ensures TimestepMatches(sigma, timestep, trainTimesteps, COARSENED)
  {
    var wanted := Wanted(sigma, trainTimesteps);
    assert IsClose(timestep, wanted, 0.00001, Tolerance(mode));
    MoreTolerant(timestep, wanted, 0.00001, Tolerance(mode));
  }

  lemma MoreTolerant(actual: real, wanted: real, relative: real, absolute: real)
    requires IsClose(actual, wanted, relative, absolute) && absolute <= 1.1
    ensures IsClose(actual, wanted, relative, 1.1)
  {
  }

  /** Whatever is taken evenly out of an accepted schedule is accepted again. */
  lemma TakenIsAccepted(s: Schedule, source: Schedule, n: nat, k: nat)
    requires Check(source) == None && n >= 1 && k >= 1 && TakenFrom(s, source, n, k) && s.mode == COARSENED
    ensures s.sigmas[n] == 0.0 && Check(s) == None
  {
    TakenFalls(s, source, n, k);
    TakenMatches(s, source, n, k);
    hide TimestepsMatch, Falls;
    assert s.sigmas[n] == source.sigmas[n * k];
  }

  lemma WholeIsTaken(source: Schedule)
    requires Check(source) == None
    ensures Nfe(source) >= 1 && TakenFrom(source, source, Nfe(source), 1)
  {
    assert forall i: nat :: i * 1 == i;
  }

  /**
   A stage gets a grid exactly when its evaluations divide the source's; the grid is every k-th boundary and
   timestep of the source, ends at zero without padding and passes the checks of a new schedule.
   */
  lemma EveryStageFits(source: Schedule, nfe: int)
    requires Check(source) == None
    ensures Provide(source, nfe).Ok? <==> nfe > 0 && Nfe(source) % nfe == 0
    ensures Provide(source, nfe).Ok? ==>
              && Check(Provide(source, nfe).value) == None
              && TakenFrom(Provide(source, nfe).value, source, nfe, Nfe(source) / nfe)
              && (if nfe == Nfe(source) then Provide(source, nfe).value == source
                  else IsCoarsened(Provide(source, nfe).value, source))
    ensures Provide(source, nfe).Err? ==>
              Provide(source, nfe).error == if nfe <= 0 then NotPositive else NotADivisor
  {
    if nfe > 0 && Nfe(source) % nfe == 0 {
      var k := Nfe(source) / nfe;
      ExactQuotient(Nfe(source), nfe);
      StageFits(source, nfe, k);
    }
    CoarsenedIs(source, nfe);
    hide Check, TakenFrom, Coarsen, IsCoarsened;
  }

  /** A coarsened schedule says so, and how many evaluations its source had. */
  predicate IsCoarsened(s: Schedule, source: Schedule) {
    s.mode == "coarsened_from_source" && s.sourceNfe == Some(|source.sigmas| - 1)
  }

  lemma CoarsenedIs(source: Schedule, nfe: int)
    requires Check(source) == None
    ensures Provide(source, nfe).Ok? && nfe != Nfe(source) ==> IsCoarsened(Provide(source, nfe).value, source)
    ensures nfe == Nfe(source) ==> Provide(source, nfe) == Ok(source)
  {
    assert Nfe(source) >= 1;
    hide Check, Every;
  }

  /** Coarsening works exactly for a factor above one that divides the evaluations. */
  lemma CoarsensIff(source: Schedule, factor: int)
    requires Check(source) == None
    ensures Coarsen(source, factor).Ok? <==> factor >= 2 && Nfe(source) % factor == 0
    ensures Coarsen(source, factor) == Err(FactorTooSmall) <==> factor <= 1
    ensures Coarsen(source, factor).Ok? ==>
              && IsCoarsened(Coarsen(source, factor).value, source)
              && TakenFrom(Coarsen(source, factor).value, source, Nfe(source) / factor, factor)
  {
    assert Nfe(source) >= 1;
    hide Check, TakenFrom, Every;
    if factor >= 2 && Nfe(source) % factor == 0 {
      var n := Nfe(source) / factor;
      ExactQuotient(Nfe(source), factor);
      assert Nfe(source) == n * factor && n >= 1;
      EveryTakes(source, n, factor);
      var s := Schedule(COARSENED, Every(source.sigmas, factor), Every(source.timesteps, factor), source.trainTimesteps,
                        source.shift, Some(Nfe(source)));
      TakenIsAccepted(s, source, n, factor);
      SigmaCount(s, source, n, factor);
      assert Coarsen(source, factor) == Ok(s);
    }
  }

  lemma SigmaCount(s: Schedule, source: Schedule, n: nat, k: nat)
    requires TakenFrom(s, source, n, k)
    ensures |s.sigmas| == n + 1
  {
  }

  lemma StageFits(source: Schedule, n: nat, k: nat)
    requires Check(source) == None && n >= 1 && k >= 1 && Nfe(source) == n * k
    ensures Provide(source, n).Ok? && Check(Provide(source, n).value) == None
    ensures TakenFrom(Provide(source, n).value, source, n, k)
  {
    hide Check, TakenFrom, Every;
    DivModUnique(n * k, n, k, 0);
    DivModUnique(n * k, k, n, 0);
    if k == 1 {
      WholeIsTaken(source);
    } else {
      NotItself(n, k);
      EveryTakes(source, n, k);
      var s := Schedule(COARSENED, Every(source.sigmas, k), Every(source.timesteps, k), source.trainTimesteps,
                        source.shift, Some(Nfe(source)));
      TakenIsAccepted(s, source, n, k);
    }
  }

  lemma NotItself(n: nat, k: nat)
    requires n >= 1 && k >= 2
    ensures n * k > n
  {
    MulMonotone(2, k, n);
  }

  lemma ExactQuotient(n: nat, d: nat)
    requires n >= 1 && d >= 1 && n % d == 0
    ensures var k := n / d; k >= 1 && d * k == n && (k == 1 <==> d == n) && n % k == 0 && n / k == d
  {
    var k := n / d;
    DivModOf(n, d);
    assert n == k * d;
    DivModUnique(n, k, d, 0);
    if k >= 2 { MulMonotone(2, k, d); }
  }

  lemma TakenFromTaken(s: Schedule, t: Schedule, source: Schedule, n: nat, j: nat, k: nat)
    requires j >= 1 && TakenFrom(t, source, n * j, k) && TakenFrom(s, source, n, k * j)
    ensures TakenFrom(s, t, n, j)
  {
    forall i: nat | i <= n ensures i * j <= n * j && s.sigmas[i] == t.sigmas[i * j] {
      MulMonotone(i, n, j);
      Regroup(i, j, k);
    }
    forall i: nat | i < n ensures i * j < n * j && s.timesteps[i] == t.timesteps[i * j] {
      Regroup(i, j, k);
      MixBelow(i, 0, j, n);
    }
  }

  lemma Regroup(i: nat, j: nat, k: nat)
    ensures i * (k * j) == (i * j) * k
  {
  }

  /**
   Stages nest: the student's boundaries and timesteps are every j-th of the teacher's, the even ones when the
   evaluations halve.
   */
  lemma StagesNest(source: Schedule, student: int, j: nat)
    requires Check(source) == None && j >= 1
    requires Provide(source, student * j).Ok?
    ensures Provide(source, student).Ok? && student > 0
    ensures TakenFrom(Provide(source, student).value, Provide(source, student * j).value, student, j)
  {
    assert Nfe(source) >= 1;
    hide Provide, Check, TakenFrom;
    EveryStageFits(source, student * j);
    PositiveFactor(student, j);
    ExactQuotient(Nfe(source), student * j);
    StagesNestAt(source, student, j, Nfe(source) / (student * j));
  }

  lemma StagesNestAt(source: Schedule, student: nat, j: nat, k: nat)
    requires Check(source) == None && student >= 1 && j >= 1 && k >= 1 && Nfe(source) == (student * j) * k
    ensures Provide(source, student).Ok? && Provide(source, student * j).Ok?
    ensures TakenFrom(Provide(source, student).value, Provide(source, student * j).value, student, j)
  {
    hide Provide, Check, TakenFrom;
    MulAtLeast(student, j);
    MulAtLeast(k, j);
    Regroup(student, j, k);
    StageFits(source, student * j, k);
    StageFits(source, student, k * j);
    TakenFromTaken(Provide(source, student).value, Provide(source, student * j).value, source, student, j, k);
  }

  lemma PositiveFactor(a: int, b: nat)
    requires a * b > 0
    ensures a > 0
  {
    if a <= 0 { MulMonotone(a, 0, b); }
  }
}
