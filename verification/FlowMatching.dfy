/**
 Flow-matching arithmetic over latents as vectors of reals: mixing, Euler steps in the two velocity
 conventions, clean reconstruction and the two-step distillation target.
 */
module FlowMatching {
  import opened Wrappers
  import opened FlowSchedule
  import opened Totals

  type Latent = seq<real>

  /** a*x + b*y, entry by entry. */
  function Combine(a: real, x: Latent, b: real, y: Latent): (r: Latent)
    requires |x| == |y|
    ensures |r| == |x| && forall i :: 0 <= i < |x| ==> r[i] == a * x[i] + b * y[i]
  {
    seq(|x|, i requires 0 <= i < |x| => a * x[i] + b * y[i])
  }

  /** The clean/noise interpolant at a sigma: noise at 1, clean at 0. */
  function Mix(clean: Latent, noise: Latent, sigma: real): (r: Latent)
    requires |clean| == |noise|
    ensures |r| == |clean|
  {
    Combine(1.0 - sigma, clean, sigma, noise)
  }

  /** One Euler step with the H3 sign: the velocity points from noise to clean. */
  function StepH3(latent: Latent, velocity: Latent, current: real, next: real): (r: Latent)
    requires |latent| == |velocity|
    ensures |r| == |latent|
  {
    Combine(1.0, latent, current - next, velocity)
  }

  /** One Euler step with the Wan sign: the velocity points from clean to noise. */
  function StepWan(latent: Latent, velocity: Latent, current: real, next: real): (r: Latent)
    requires |latent| == |velocity|
    ensures |r| == |latent|
  {
    Combine(1.0, latent, next - current, velocity)
  }

  function CleanH3(noisy: Latent, velocity: Latent, sigma: real): (r: Latent)
    requires |noisy| == |velocity|
    ensures |r| == |noisy|
  {
    Combine(1.0, noisy, sigma, velocity)
  }

  function CleanWan(noisy: Latent, velocity: Latent, sigma: real): (r: Latent)
    requires |noisy| == |velocity|
    ensures |r| == |noisy|
  {
    Combine(1.0, noisy, -sigma, velocity)
  }

  /** The true H3 velocity is clean minus noise, the true Wan velocity its negative. */
  function TrueVelocity(clean: Latent, noise: Latent): (r: Latent)
    requires |clean| == |noise|
    ensures |r| == |clean|
  {
    Combine(1.0, clean, -1.0, noise)
  }

  function Negate(x: Latent): (r: Latent)
    ensures |r| == |x| && forall i :: 0 <= i < |x| ==> r[i] == -x[i]
  {
    seq(|x|, i requires 0 <= i < |x| => -x[i])
  }

  // ----- Integration along a schedule

  /** A velocity model: any function of latent and sigma that keeps the shape. */
  type Model = (Latent, real) -> Latent

  ghost predicate KeepsShape(m: Model) {
    forall x, s :: |m(x, s)| == |x|
  }

  /** The latent at boundary k of an Euler integration with the H3 sign. */
  ghost function RunH3(m: Model, x: Latent, sigmas: seq<real>, k: nat): (r: Latent)
    requires KeepsShape(m) && k < |sigmas|
    ensures |r| == |x|
  {
    if k == 0 then x
    else
      var y := RunH3(m, x, sigmas, k - 1);
      StepH3(y, m(y, sigmas[k - 1]), sigmas[k - 1], sigmas[k])
  }

  ghost function RunWan(m: Model, x: Latent, sigmas: seq<real>, k: nat): (r: Latent)
    requires KeepsShape(m) && k < |sigmas|
    ensures |r| == |x|
  {
    if k == 0 then x
    else
      var y := RunWan(m, x, sigmas, k - 1);
      StepWan(y, m(y, sigmas[k - 1]), sigmas[k - 1], sigmas[k])
  }

  /** A model that returns the true velocity wherever a schedule evaluates it on the path of one clean/noise pair. */
  ghost predicate TrueOnPath(m: Model, clean: Latent, noise: Latent, sigmas: seq<real>)
    requires |clean| == |noise|
  {
    forall i :: 0 <= i < |sigmas| - 1 ==> m(Mix(clean, noise, sigmas[i]), sigmas[i]) == TrueVelocity(clean, noise)
  }

  /** The Euler boundaries are exactly the interpolants, whatever the schedule. */
  lemma {:induction false} EulerFollowsInterpolant(m: Model, clean: Latent, noise: Latent, sigmas: seq<real>, k: nat)
    requires KeepsShape(m) && |clean| == |noise| && TrueOnPath(m, clean, noise, sigmas) && k < |sigmas|
    ensures RunH3(m, Mix(clean, noise, sigmas[0]), sigmas, k) == Mix(clean, noise, sigmas[k])
  {
    if k > 0 {
      hide Mix, StepH3, TrueVelocity;
      EulerFollowsInterpolant(m, clean, noise, sigmas, k - 1);
      StepStaysOnPath(clean, noise, sigmas[k - 1], sigmas[k]);
    }
  }

  lemma StepStaysOnPath(clean: Latent, noise: Latent, s: real, t: real)
    requires |clean| == |noise|
    ensures StepH3(Mix(clean, noise, s), TrueVelocity(clean, noise), s, t) == Mix(clean, noise, t)
  {
    var now, velocity := Mix(clean, noise, s), TrueVelocity(clean, noise);
    forall i | 0 <= i < |clean| ensures StepH3(now, velocity, s, t)[i] == Mix(clean, noise, t)[i] {
      var c, n := clean[i], noise[i];
      assert now[i] == (1.0 - s) * c + s * n && velocity[i] == c - n;
      hide TrueVelocity;
      assert StepH3(now, velocity, s, t)[i] == now[i] + (s - t) * (c - n);
      StepArithmetic(c, n, s, t);
    }
  }

  lemma StepArithmetic(c: real, n: real, s: real, t: real)
    ensures ((1.0 - s) * c + s * n) + (s - t) * (c - n) == (1.0 - t) * c + t * n
  {
  }

  /** A schedule that ends at zero ends on the clean latent; one that starts at one starts from pure noise. */
  lemma EulerEndsClean(m: Model, clean: Latent, noise: Latent, sigmas: seq<real>)
    requires KeepsShape(m) && |clean| == |noise| && TrueOnPath(m, clean, noise, sigmas)
    requires |sigmas| >= 1 && sigmas[|sigmas| - 1] == 0.0
    ensures RunH3(m, Mix(clean, noise, sigmas[0]), sigmas, |sigmas| - 1) == clean
    ensures sigmas[0] == 1.0 ==> RunH3(m, noise, sigmas, |sigmas| - 1) == clean
  {
    EulerFollowsInterpolant(m, clean, noise, sigmas, |sigmas| - 1);
    assert Mix(clean, noise, 0.0) == clean;
    assert Mix(clean, noise, 1.0) == noise;
  }

  ghost predicate Opposite(m: Model, w: Model) {
    forall x, s :: w(x, s) == Negate(m(x, s))
  }

  /** For any model, the H3 run and the Wan run of the negated velocity are the same trajectory. */
  lemma {:induction false} ConventionsAgree(m: Model, w: Model, x: Latent, sigmas: seq<real>, k: nat)
    requires KeepsShape(m) && KeepsShape(w) && Opposite(m, w) && k < |sigmas|
    ensures RunH3(m, x, sigmas, k) == RunWan(w, x, sigmas, k)
  {
    if k > 0 {
      ConventionsAgree(m, w, x, sigmas, k - 1);
      var y, s, t := RunH3(m, x, sigmas, k - 1), sigmas[k - 1], sigmas[k];
      forall i | 0 <= i < |x| ensures StepH3(y, m(y, s), s, t)[i] == StepWan(y, w(y, s), s, t)[i] {
        assert (s - t) * m(y, s)[i] == (t - s) * -m(y, s)[i];
      }
    }
  }

  /** Both reconstructions recover the clean latent from any interpolant and its true velocity. */
  lemma ReconstructionsRecoverClean(clean: Latent, noise: Latent, sigma: real)
    requires |clean| == |noise|
    ensures CleanH3(Mix(clean, noise, sigma), TrueVelocity(clean, noise), sigma) == clean
    ensures CleanWan(Mix(clean, noise, sigma), Negate(TrueVelocity(clean, noise)), sigma) == clean
  {
    forall i | 0 <= i < |clean|
      ensures CleanH3(Mix(clean, noise, sigma), TrueVelocity(clean, noise), sigma)[i] == clean[i]
      ensures CleanWan(Mix(clean, noise, sigma), Negate(TrueVelocity(clean, noise)), sigma)[i] == clean[i]
    {
      StepArithmetic(clean[i], noise[i], sigma, 0.0);
      assert -sigma * -(clean[i] - noise[i]) == sigma * (clean[i] - noise[i]);
    }
  }

  // ----- The tiny adapter

  /** The tiny adapter mixes by a time coordinate that is one on clean data. */
  function TinyMix(clean: Latent, noise: Latent, time: real): (r: Latent)
    requires |clean| == |noise|
    ensures |r| == |clean|
  {
    Combine(time, clean, 1.0 - time, noise)
  }

  function TinyClean(noisy: Latent, velocity: Latent, time: real): (r: Latent)
    requires |noisy| == |velocity|
    ensures |r| == |noisy|
  {
    Combine(1.0, noisy, 1.0 - time, velocity)
  }

  /** Mixing and reconstruction agree with each other in the time coordinate. */
  lemma TinyReconstructs(clean: Latent, noise: Latent, time: real)
    requires |clean| == |noise|
    ensures TinyClean(TinyMix(clean, noise, time), TrueVelocity(clean, noise), time) == clean
  {
    forall i | 0 <= i < |clean|
      ensures TinyClean(TinyMix(clean, noise, time), TrueVelocity(clean, noise), time)[i] == clean[i]
    {
      StepArithmetic(clean[i], noise[i], 1.0 - time, 0.0);
    }
  }

  /**
   The tiny scheduler step, however, walks the schedule's sigmas, which are one on noise. Fed with the sigma as
   its time, as the shared algorithm does, a step stays on the interpolant exactly when the interval is empty
   or the clean and noise latents coincide.
   */
  lemma TinyStepStaysIff(clean: Latent, noise: Latent, s: real, t: real)
    requires |clean| == |noise|
    ensures StepH3(TinyMix(clean, noise, s), TrueVelocity(clean, noise), s, t) == TinyMix(clean, noise, t)
            <==> s == t || clean == noise
  {
    var a, b := StepH3(TinyMix(clean, noise, s), TrueVelocity(clean, noise), s, t), TinyMix(clean, noise, t);
    forall i | 0 <= i < |clean| ensures a[i] - b[i] == 2.0 * (s - t) * (clean[i] - noise[i]) {
      TinyDrift(clean[i], noise[i], s, t);
    }
    if a == b && s != t {
      forall i | 0 <= i < |clean| ensures clean[i] == noise[i] {
        assert a[i] == b[i];
        NoZeroProduct(2.0 * (s - t), clean[i] - noise[i]);
      }
    }
    if s == t || clean == noise {
      forall i | 0 <= i < |clean| ensures a[i] == b[i] {
        assert s == t ==> 2.0 * (s - t) * (clean[i] - noise[i]) == 0.0;
      }
    }
  }

  lemma TinyDrift(c: real, n: real, s: real, t: real)
    ensures ((s * c + (1.0 - s) * n) + (s - t) * (c - n)) - (t * c + (1.0 - t) * n) == 2.0 * (s - t) * (c - n)
  {
  }

  lemma NoZeroProduct(a: real, b: real)
    requires a * b == 0.0
    ensures a == 0.0 || b == 0.0
  {
  }

  // ----- Distillation over one student interval

  datatype Pair = Pair(video: Latent, audio: Latent)

  /** The native joint model, before the sign flip of the worker. */
  type JointModel = (Latent, Latent, real) -> Pair

  ghost predicate KeepsShapes(m: JointModel) {
    forall v, a, s :: |m(v, a, s).video| == |v| && |m(v, a, s).audio| == |a|
  }

  function NativePrediction(m: JointModel, x: Pair, sigma: real): Pair {
    Pair(Negate(m(x.video, x.audio, sigma).video), Negate(m(x.video, x.audio, sigma).audio))
  }

  ghost predicate SameShapes(x: Pair, y: Pair) {
    |x.video| == |y.video| && |x.audio| == |y.audio|
  }

  function MixPair(clean: Pair, noise: Pair, video: real, audio: real): Pair
    requires SameShapes(clean, noise)
  {
    Pair(Mix(clean.video, noise.video, video), Mix(clean.audio, noise.audio, audio))
  }

  function StepPair(x: Pair, v: Pair, sigmas: Schedule, i: nat): Pair
    requires SameShapes(x, v) && i + 1 < |sigmas.video| && i + 1 < |sigmas.audio|
  {
    Pair(StepH3(x.video, v.video, sigmas.video[i], sigmas.video[i + 1]),
         StepH3(x.audio, v.audio, sigmas.audio[i], sigmas.audio[i + 1]))
  }

  datatype Target = Target(first: Pair, second: Pair, endpoint: Pair)

  /** Two frozen-teacher steps over student interval k; the two velocities are kept beside the endpoint. */
  ghost function DistillTarget(teacher: JointModel, clean: Pair, noise: Pair, sigmas: Schedule, k: nat): (t: Target)
    requires KeepsShapes(teacher) && SameShapes(clean, noise)
    requires |sigmas.video| == |sigmas.audio| && 2 * k + 2 < |sigmas.video|
    ensures SameShapes(t.first, clean) && SameShapes(t.second, clean) && SameShapes(t.endpoint, clean)
  {
    var j := 2 * k;
    var start := MixPair(clean, noise, sigmas.video[j], sigmas.audio[j]);
    var first := NativePrediction(teacher, start, sigmas.video[j]);
    var middle := StepPair(start, first, sigmas, j);
    var second := NativePrediction(teacher, middle, sigmas.video[j + 1]);
    Target(first, second, StepPair(middle, second, sigmas, j + 1))
  }

  ghost function StudentEndpoint(student: JointModel, clean: Pair, noise: Pair, sigmas: Schedule, k: nat): (e: Pair)
    requires KeepsShapes(student) && SameShapes(clean, noise)
    requires |sigmas.video| == |sigmas.audio| && k + 1 < |sigmas.video|
    ensures SameShapes(e, clean)
  {
    var start := MixPair(clean, noise, sigmas.video[k], sigmas.audio[k]);
    StepPair(start, NativePrediction(student, start, sigmas.video[k]), sigmas, k)
  }

  function Product(a: real, b: real): real {
    a * b
  }

  lemma ProductSign(a: real, b: real)
    ensures (a > 0.0 && b > 0.0) || (a < 0.0 && b < 0.0) ==> Product(a, b) > 0.0
    ensures a == 0.0 ==> Product(a, b) == 0.0
  {
  }

  function Square(d: real): (r: real)
    ensures r >= 0.0 && (r == 0.0 <==> d == 0.0)
  {
    ProductSign(d, d);
    hide Product;
    Product(d, d)
  }

  function SquaredError(x: Latent, y: Latent): (e: real)
    requires |x| == |y|
    ensures e >= 0.0
  {
    if x == [] then 0.0
    else
      var d := x[|x| - 1] - y[|y| - 1];
      SquaredError(x[..|x| - 1], y[..|y| - 1]) + Square(d)
  }

  function MeanSquaredError(x: Latent, y: Latent): real
    requires |x| == |y| && |x| > 0
  {
    SquaredError(x, y) / |x| as real
  }

  /** The distillation loss: the two mean squared errors added. */
  function Loss(endpoint: Pair, target: Pair): real
    requires SameShapes(endpoint, target) && |endpoint.video| > 0 && |endpoint.audio| > 0
  {
    MeanSquaredError(endpoint.video, target.video) + MeanSquaredError(endpoint.audio, target.audio)
  }

  lemma {:induction false} SquaredErrorZeroIff(x: Latent, y: Latent)
    requires |x| == |y|
    ensures SquaredError(x, y) == 0.0 <==> x == y
  {
    if x == [] {
      assert x == y;
    } else {
      var n := |x| - 1;
      SquaredErrorZeroIff(x[..n], y[..n]);
      hide Square;
      assert x == x[..n] + [x[n]] && y == y[..n] + [y[n]];
    }
  }

  lemma LossZeroIff(endpoint: Pair, target: Pair)
    requires SameShapes(endpoint, target) && |endpoint.video| > 0 && |endpoint.audio| > 0
    ensures Loss(endpoint, target) == 0.0 <==> endpoint == target
  {
    SquaredErrorZeroIff(endpoint.video, target.video);
    SquaredErrorZeroIff(endpoint.audio, target.audio);
    QuotientZeroIff(SquaredError(endpoint.video, target.video), |endpoint.video| as real);
    QuotientZeroIff(SquaredError(endpoint.audio, target.audio), |endpoint.audio| as real);
  }

  lemma QuotientZeroIff(a: real, b: real)
    requires a >= 0.0 && b > 0.0
    ensures a / b >= 0.0 && (a / b == 0.0 <==> a == 0.0)
  {
    var q := a / b;
    assert q * b == a;
  }

  /** The mean of two velocities weighted by their interval lengths. */
  function WeightedMean(first: Latent, second: Latent, s0: real, s1: real, s2: real): (r: Latent)
    requires |first| == |second| && s0 > s2
    ensures |r| == |first|
  {
    Combine((s0 - s1) / (s0 - s2), first, (s1 - s2) / (s0 - s2), second)
  }

  /** One student step meets two teacher steps exactly for the interval-weighted mean velocity. */
  lemma TwoStepsInOne(start: Latent, first: Latent, second: Latent, student: Latent, s0: real, s1: real, s2: real)
    requires |start| == |first| == |second| == |student| && s0 > s2
    ensures StepH3(start, student, s0, s2) == StepH3(StepH3(start, first, s0, s1), second, s1, s2)
            <==> student == WeightedMean(first, second, s0, s1, s2)
  {
    var one, two := StepH3(start, student, s0, s2), StepH3(StepH3(start, first, s0, s1), second, s1, s2);
    var mean := WeightedMean(first, second, s0, s1, s2);
    forall i | 0 <= i < |start| ensures one[i] == two[i] <==> student[i] == mean[i] {
      MeanArithmetic(first[i], second[i], student[i], s0 - s1, s1 - s2);
    }
    if one == two { forall i | 0 <= i < |start| ensures student[i] == mean[i] { assert one[i] == two[i]; } }
  }

  lemma MeanArithmetic(a: real, b: real, p: real, u: real, v: real)
    requires u + v > 0.0
    ensures (u + v) * p == u * a + v * b <==> p == u / (u + v) * a + v / (u + v) * b
  {
    var w := u + v;
    var x, y := u / w, v / w;
    assert x * w == u && y * w == v;
    assert (x * a + y * b) * w == u * a + v * b;
    if w * p == u * a + v * b { NoZeroProduct(w, p - (x * a + y * b)); }
  }

  /**
   With the worker's own schedules, n student steps against 2n teacher steps, the loss of interval k is zero
   exactly when in both modalities the student velocity is the interval-weighted mean of the teacher velocities.
   */
  lemma DistillLossZeroIff(teacher: JointModel, student: JointModel, clean: Pair, noise: Pair, nfe: nat, k: nat,
                           videoShift: real, audioShift: real, coarse: Schedule, fine: Schedule)
    requires KeepsShapes(teacher) && KeepsShapes(student) && SameShapes(clean, noise)
    requires |clean.video| > 0 && |clean.audio| > 0 && videoShift > 0.0 && audioShift > 0.0
    requires k < nfe && BinarySchedule(nfe, videoShift, audioShift) == Ok(coarse)
    requires BinarySchedule(2 * nfe, videoShift, audioShift) == Ok(fine)
    ensures |fine.video| == |fine.audio| == 2 * nfe + 1 && |coarse.video| == |coarse.audio| == nfe + 1
    ensures fine.video[2 * k] > fine.video[2 * k + 2] && fine.audio[2 * k] > fine.audio[2 * k + 2]
    ensures var t := DistillTarget(teacher, clean, noise, fine, k);
            var start := MixPair(clean, noise, coarse.video[k], coarse.audio[k]);
            var p := NativePrediction(student, start, coarse.video[k]);
            var j := 2 * k;
            Loss(StudentEndpoint(student, clean, noise, coarse, k), t.endpoint) == 0.0 <==>
              && p.video == WeightedMean(t.first.video, t.second.video, fine.video[j], fine.video[j + 1],
                                         fine.video[j + 2])
              && p.audio == WeightedMean(t.first.audio, t.second.audio, fine.audio[j], fine.audio[j + 1],
                                         fine.audio[j + 2])
  {
    SchedulesAlign(nfe, k, videoShift, audioShift, coarse, fine);
    var t := DistillTarget(teacher, clean, noise, fine, k);
    var start := MixPair(clean, noise, coarse.video[k], coarse.audio[k]);
    var p := NativePrediction(student, start, coarse.video[k]);
    LossZeroIff(StudentEndpoint(student, clean, noise, coarse, k), t.endpoint);
    TwoStepsInOne(start.video, t.first.video, t.second.video, p.video, fine.video[2 * k], fine.video[2 * k + 1],
                  fine.video[2 * k + 2]);
    TwoStepsInOne(start.audio, t.first.audio, t.second.audio, p.audio, fine.audio[2 * k], fine.audio[2 * k + 1],
                  fine.audio[2 * k + 2]);
  }

  /** The student boundaries of an interval are the outer teacher boundaries. */
  lemma SchedulesAlign(nfe: nat, k: nat, videoShift: real, audioShift: real, coarse: Schedule, fine: Schedule)
    requires videoShift > 0.0 && audioShift > 0.0 && k < nfe
    requires BinarySchedule(nfe, videoShift, audioShift) == Ok(coarse)
    requires BinarySchedule(2 * nfe, videoShift, audioShift) == Ok(fine)
    ensures |fine.video| == |fine.audio| == 2 * nfe + 1 && |coarse.video| == |coarse.audio| == nfe + 1
    ensures coarse.video[k] == fine.video[2 * k] && coarse.video[k + 1] == fine.video[2 * k + 2]
    ensures coarse.audio[k] == fine.audio[2 * k] && coarse.audio[k + 1] == fine.audio[2 * k + 2]
    ensures fine.video[2 * k] > fine.video[2 * k + 2] && fine.audio[2 * k] > fine.audio[2 * k + 2]
  {
    WorkerMatchesAdapter(nfe, videoShift, audioShift);
    WorkerMatchesAdapter(2 * nfe, videoShift, audioShift);
    assert nfe * 2 == 2 * nfe && k * 2 == 2 * k && (k + 1) * 2 == 2 * k + 2;
    GridRefines(nfe, 2, videoShift, k);
    GridRefines(nfe, 2, videoShift, k + 1);
    GridRefines(nfe, 2, audioShift, k);
    GridRefines(nfe, 2, audioShift, k + 1);
    GridFalls(2 * nfe, videoShift);
    GridFalls(2 * nfe, audioShift);
  }

  // ----- The formulas, entry by entry

  ghost predicate IsMix(x: Latent, clean: Latent, noise: Latent, sigma: real) {
    |x| == |clean| == |noise| && forall i :: 0 <= i < |x| ==> x[i] == (1.0 - sigma) * clean[i] + sigma * noise[i]
  }

  /** y is one step of length d from x along v. */
  ghost predicate IsStep(y: Latent, x: Latent, v: Latent, d: real) {
    |y| == |x| == |v| && forall i :: 0 <= i < |y| ==> y[i] == x[i] + d * v[i]
  }

  ghost predicate IsOpposite(x: Latent, y: Latent) {
    |x| == |y| && forall i :: 0 <= i < |x| ==> x[i] == 0.0 - y[i]
  }

  /** What the mixing, stepping and reconstruction formulas of the three adapters compute. */
  lemma EntryFormulas(x: Latent, y: Latent, s: real, t: real)
    requires |x| == |y|
    ensures IsMix(Mix(x, y, s), x, y, s) && IsMix(TinyMix(x, y, s), y, x, s)
    ensures IsStep(StepH3(x, y, s, t), x, y, s - t) && IsStep(StepWan(x, y, s, t), x, y, t - s)
    ensures IsStep(CleanH3(x, y, s), x, y, s) && IsStep(CleanWan(x, y, s), x, y, -s)
    ensures IsStep(TinyClean(x, y, s), x, y, 1.0 - s)
    ensures IsStep(TrueVelocity(x, y), x, y, -1.0)
  {
  }

  /**
   The distillation target: mix at the even boundary, predict with the flipped sign, step to the odd boundary, predict
   there, and step to the next even one; audio has sigmas of its own, and the model sees the video's.
   */
  lemma TargetIs(teacher: JointModel, clean: Pair, noise: Pair, sigmas: Schedule, k: nat) returns (start: Pair,
                 middle: Pair)
    requires KeepsShapes(teacher) && SameShapes(clean, noise)
    requires |sigmas.video| == |sigmas.audio| && 2 * k + 2 < |sigmas.video|
    ensures var t, v, a, j := DistillTarget(teacher, clean, noise, sigmas, k), sigmas.video, sigmas.audio, 2 * k;
            var raw, later := teacher(start.video, start.audio, v[j]), teacher(middle.video, middle.audio, v[j + 1]);
            && IsMix(start.video, clean.video, noise.video, v[j]) && IsMix(start.audio, clean.audio, noise.audio, a[j])
            && IsOpposite(t.first.video, raw.video) && IsOpposite(t.first.audio, raw.audio)
            && IsStep(middle.video, start.video, t.first.video, v[j] - v[j + 1])
            && IsStep(middle.audio, start.audio, t.first.audio, a[j] - a[j + 1])
            && IsOpposite(t.second.video, later.video) && IsOpposite(t.second.audio, later.audio)
            && IsStep(t.endpoint.video, middle.video, t.second.video, v[j + 1] - v[j + 2])
            && IsStep(t.endpoint.audio, middle.audio, t.second.audio, a[j + 1] - a[j + 2])
  {
    var j := 2 * k;
    start := MixPair(clean, noise, sigmas.video[j], sigmas.audio[j]);
    var first := NativePrediction(teacher, start, sigmas.video[j]);
    middle := StepPair(start, first, sigmas, j);
    var second := NativePrediction(teacher, middle, sigmas.video[j + 1]);
    MixPairIs(clean, noise, sigmas.video[j], sigmas.audio[j]);
    PredictionIs(teacher, start, sigmas.video[j]);
    StepPairIs(start, first, sigmas, j);
    PredictionIs(teacher, middle, sigmas.video[j + 1]);
    StepPairIs(middle, second, sigmas, j + 1);
    hide IsMix, IsStep, IsOpposite, MixPair, StepPair, NativePrediction;
  }

  lemma MixPairIs(clean: Pair, noise: Pair, video: real, audio: real)
    requires SameShapes(clean, noise)
    ensures IsMix(MixPair(clean, noise, video, audio).video, clean.video, noise.video, video)
    ensures IsMix(MixPair(clean, noise, video, audio).audio, clean.audio, noise.audio, audio)
  {
  }

  lemma StepPairIs(x: Pair, v: Pair, sigmas: Schedule, i: nat)
    requires SameShapes(x, v) && i + 1 < |sigmas.video| && i + 1 < |sigmas.audio|
    ensures IsStep(StepPair(x, v, sigmas, i).video, x.video, v.video, sigmas.video[i] - sigmas.video[i + 1])
    ensures IsStep(StepPair(x, v, sigmas, i).audio, x.audio, v.audio, sigmas.audio[i] - sigmas.audio[i + 1])
  {
  }

  lemma PredictionIs(m: JointModel, x: Pair, sigma: real)
    ensures IsOpposite(NativePrediction(m, x, sigma).video, m(x.video, x.audio, sigma).video)
    ensures IsOpposite(NativePrediction(m, x, sigma).audio, m(x.video, x.audio, sigma).audio)
  {
  }

  /** The student's endpoint: mix at its boundary, predict with the flipped sign, one step over its interval. */
  lemma EndpointIs(student: JointModel, clean: Pair, noise: Pair, sigmas: Schedule, k: nat) returns (start: Pair,
                   velocity: Pair)
    requires KeepsShapes(student) && SameShapes(clean, noise)
    requires |sigmas.video| == |sigmas.audio| && k + 1 < |sigmas.video|
    ensures var e, v, a := StudentEndpoint(student, clean, noise, sigmas, k), sigmas.video, sigmas.audio;
            var raw := student(start.video, start.audio, v[k]);
            && IsMix(start.video, clean.video, noise.video, v[k]) && IsMix(start.audio, clean.audio, noise.audio, a[k])
            && IsOpposite(velocity.video, raw.video) && IsOpposite(velocity.audio, raw.audio)
            && IsStep(e.video, start.video, velocity.video, v[k] - v[k + 1])
            && IsStep(e.audio, start.audio, velocity.audio, a[k] - a[k + 1])
  {
    start := MixPair(clean, noise, sigmas.video[k], sigmas.audio[k]);
    velocity := NativePrediction(student, start, sigmas.video[k]);
    MixPairIs(clean, noise, sigmas.video[k], sigmas.audio[k]);
    PredictionIs(student, start, sigmas.video[k]);
    StepPairIs(start, velocity, sigmas, k);
    hide IsMix, IsStep, IsOpposite, MixPair, StepPair, NativePrediction;
  }

  /** The squared differences of the entries. */
  function Squares(x: Latent, y: Latent): (d: seq<real>)
    requires |x| == |y|
    ensures |d| == |x|
  {
    if x == [] then [] else Squares(x[..|x| - 1], y[..|y| - 1]) + [Square(x[|x| - 1] - y[|y| - 1])]
  }

  lemma {:induction false} SquaresAt(x: Latent, y: Latent, i: nat)
    requires |x| == |y| && i < |x|
    ensures Squares(x, y)[i] == Square(x[i] - y[i])
  {
    hide Square;
    if i < |x| - 1 { SquaresAt(x[..|x| - 1], y[..|y| - 1], i); }
  }

  lemma SquareIs(d: real)
    ensures Square(d) == d * d
  {
  }

  lemma {:induction false} SquaredErrorIs(x: Latent, y: Latent)
    requires |x| == |y|
    ensures SquaredError(x, y) == SumOf(Squares(x, y))
  {
    hide Square;
    if x != [] {
      var n := |x| - 1;
      SquaredErrorIs(x[..n], y[..n]);
      SumOfLast(Squares(x, y));
      hide SumOf;
      assert Squares(x, y)[..n] == Squares(x[..n], y[..n]);
    }
  }

  /** The loss is the mean squared error of the video plus that of the audio. */
  lemma LossIs(endpoint: Pair, target: Pair)
    requires SameShapes(endpoint, target) && |endpoint.video| > 0 && |endpoint.audio| > 0
    ensures Loss(endpoint, target)
            == SumOf(Squares(endpoint.video, target.video)) / |endpoint.video| as real
               + SumOf(Squares(endpoint.audio, target.audio)) / |endpoint.audio| as real
    ensures forall x: Latent, y: Latent, i: nat :: |x| == |y| && i < |x| ==>
              Squares(x, y)[i] == (x[i] - y[i]) * (x[i] - y[i])
  {
    SquaredErrorIs(endpoint.video, target.video);
    SquaredErrorIs(endpoint.audio, target.audio);
    forall x: Latent, y: Latent, i: nat | |x| == |y| && i < |x|
      ensures Squares(x, y)[i] == (x[i] - y[i]) * (x[i] - y[i])
    {
      SquaresAt(x, y, i);
      SquareIs(x[i] - y[i]);
    }
  }
}
