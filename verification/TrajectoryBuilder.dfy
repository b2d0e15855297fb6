/**
 Building a teacher trajectory with the adapter's native scheduler, and replaying a stored one. The teacher's
 forward pass, its schedules and its noise are arbitrary functions; conditioning is fixed inside the teacher.
 */
module TrajectoryBuilder {
  import opened Wrappers
  import opened Tensors
  import opened SchedulerMachine
  import opened SchedulerTrajectory
  import TR = TrajectoryRecord
  import FlowMatching

  /** `predict` gives None when the forward pass raises. */
  datatype Teacher = Teacher(
    predict: (Tensor, real) -> Option<Tensor>,
    schedule: nat -> Option<seq<real>>,
    timetable: seq<real> -> Option<seq<real>>,
    noise: (seq<nat>, int) -> Tensor)

  datatype Labels = Labels(cacheItem: string, cacheDigest: string, conditioningDigest: string,
                           teacherCheckpointDigest: string, schedulerDigest: string)

  datatype BuildError =
    | NotBinaryPair | NoVideo | NotFiveDimensional | BadSigmaTable | BadTimetable | ShapeMismatch | PredictFailed
    | Scheduler(Failure) | Rejected(TR.Rejection) | ReplayDiffers

  // ----- What the loops compute

  datatype Rolled = Rolled(states: seq<Tensor>, predictions: seq<Tensor>, snapshots: seq<Snapshot>)

  /** Integrate from boundary i to the end, keeping every boundary state, prediction and scheduler snapshot. */
  function Roll(c: Context, solver: Solver, teacher: Teacher, state: Tensor, sigmas: seq<real>, i: nat)
    : (r: Result<Rolled, BuildError>)
    requires i < |sigmas|
    ensures r.Ok? ==>
              |r.value.states| == |sigmas| - i == |r.value.snapshots| && |r.value.predictions| == |sigmas| - i - 1
    ensures r.Ok? ==> r.value.states[0] == state && r.value.snapshots[0] == CaptureContext(c)
    decreases |sigmas| - i
  {
    if i + 1 == |sigmas| then Ok(Rolled([state], [], [CaptureContext(c)]))
    else
      match teacher.predict(state, sigmas[i])
      case None => Err(PredictFailed)
      case Some(prediction) =>
        var (after, sample) := StepContext(c, solver, state, prediction, Interval(sigmas[i], sigmas[i + 1]));
        if sample.Err? then Err(Scheduler(sample.error))
        else
          var rest :- Roll(after, solver, teacher, sample.value, sigmas, i + 1);
          Ok(Rolled([state] + rest.states, [prediction] + rest.predictions, [CaptureContext(c)] + rest.snapshots))
  }

  /** The replay keeps only the states, and integrates by Euler steps when the adapter has no native trajectory. */
  function Replay(c: Option<Context>, solver: Solver, teacher: Teacher, state: Tensor, sigmas: seq<real>, i: nat)
    : (r: Result<seq<Tensor>, BuildError>)
    requires i < |sigmas|
    decreases |sigmas| - i
  {
    if i + 1 == |sigmas| then Ok([state])
    else
      match teacher.predict(state, sigmas[i])
      case None => Err(PredictFailed)
      case Some(prediction) =>
        var interval := Interval(sigmas[i], sigmas[i + 1]);
        var (after, sample) := match c
                               case None => (None, EulerStep(state, prediction, interval))
                               case Some(context) =>
                                 var (moved, x) := StepContext(context, solver, state, prediction, interval);
                                 (Some(moved), x);
        if sample.Err? then Err(Scheduler(sample.error))
        else
          var rest :- Replay(after, solver, teacher, sample.value, sigmas, i + 1);
          Ok([state] + rest)
  }

  /** Replaying a rolled trajectory gives its states, because latent and scheduler move together. */
  lemma {:induction false} ReplayFollowsRoll(c: Context, solver: Solver, teacher: Teacher, state: Tensor,
                                             sigmas: seq<real>, i: nat)
    requires i < |sigmas| && Roll(c, solver, teacher, state, sigmas, i).Ok?
    ensures Replay(Some(c), solver, teacher, state, sigmas, i)
            == Ok(Roll(c, solver, teacher, state, sigmas, i).value.states)
    decreases |sigmas| - i
  {
    if i + 1 < |sigmas| {
      var prediction := teacher.predict(state, sigmas[i]).value;
      var (after, sample) := StepContext(c, solver, state, prediction, Interval(sigmas[i], sigmas[i + 1]));
      ReplayFollowsRoll(after, solver, teacher, sample.value, sigmas, i + 1);
    }
  }

  // ----- Assembling the record

  function Schedule(teacher: Teacher, nfe: nat): Result<seq<real>, BuildError> {
    match teacher.schedule(nfe)
    case None => Err(BadSigmaTable)
    case Some(sigmas) => if |sigmas| == nfe + 1 then Ok(sigmas) else Err(BadSigmaTable)
  }

  function Timetable(teacher: Teacher, sigmas: seq<real>, nfe: nat): Result<seq<real>, BuildError> {
    match teacher.timetable(sigmas)
    case None => Err(BadTimetable)
    case Some(timesteps) => if |timesteps| == nfe then Ok(timesteps) else Err(BadTimetable)
  }

  function Begun(solver: Solver, configured: Native, sigmas: seq<real>): Result<Option<Context>, BuildError> {
    if !solver.hasTrajectory then Ok(None)
    else
      match Prepare(solver, configured, sigmas, 0)
      case Err(e) => Err(Scheduler(e))
      case Ok(c) => Ok(Some(c))
  }

  function Noised(clean: Tensor, noise: Tensor, sigma: real): Result<Tensor, BuildError> {
    if |clean.data| != |noise.data| then Err(ShapeMismatch) else Ok(Lerp(clean, sigma, noise))
  }

  /** The integrated trajectory from the noised clean latent; without a native scheduler the first capture fails. */
  function RollAll(solver: Solver, configured: Native, teacher: Teacher, clean: Tensor, noise: Tensor,
                   sigmas: seq<real>)
    : Result<Rolled, BuildError>
    requires sigmas != []
  {
    var begun :- Begun(solver, configured, sigmas);
    var state :- Noised(clean, noise, sigmas[0]);
    match begun
    case None => Err(Scheduler(SnapshotMissing))
    case Some(c) => Roll(c, solver, teacher, state, sigmas, 0)
  }

  function RecordOf(labels: Labels, sourceNfe: nat, targetNfe: nat, source: seq<real>, target: seq<real>,
                    sourceTimes: seq<real>, targetTimes: seq<real>, payload: TR.Payload): TR.Record {
    TR.Record(TR.SCHEMA_VERSION, labels.cacheItem, labels.cacheDigest, labels.conditioningDigest,
              TR.TensorDigest(payload.cleanLatent), TR.TensorDigest(payload.noise),
              labels.teacherCheckpointDigest, labels.schedulerDigest, sourceNfe, targetNfe,
              source, target, sourceTimes, targetTimes, TR.TENSOR_ARTIFACT, TR.TensorsDigest(payload))
  }

  /** The trajectory the builder puts together, before it is validated. */
  function Assemble(solver: Solver, configured: Native, teacher: Teacher, labels: Labels, video: Option<Tensor>,
                    seed: int,
                    sourceNfe: int, targetNfe: int): Result<TR.Trajectory, BuildError>
  {
    if sourceNfe != 2 * targetNfe || targetNfe <= 0 then Err(NotBinaryPair)
    else if video.None? then Err(NoVideo)
    else if |video.value.shape| != 5 then Err(NotFiveDimensional)
    else
      var clean := video.value;
      var source :- Schedule(teacher, sourceNfe);
      var target :- Schedule(teacher, targetNfe);
      var sourceTimes :- Timetable(teacher, source, sourceNfe);
      var targetTimes :- Timetable(teacher, target, targetNfe);
      var noise := teacher.noise(clean.shape, seed);
      var rolled :- RollAll(solver, configured, teacher, clean, noise, source);
      var payload := TR.Payload(noise, clean, rolled.states, rolled.snapshots, rolled.predictions);
      Ok(TR.Trajectory(RecordOf(labels, sourceNfe, targetNfe, source, target, sourceTimes, targetTimes, payload),
                       payload))
  }

  function Build(solver: Solver, configured: Native, teacher: Teacher, labels: Labels, video: Option<Tensor>, seed: int,
                 sourceNfe: int, targetNfe: int): Result<TR.Trajectory, BuildError>
  {
    var t :- Assemble(solver, configured, teacher, labels, video, seed, sourceNfe, targetNfe);
    match TR.Validate(t)
    case Some(e) => Err(Rejected(e))
    case None => Ok(t)
  }

  ghost predicate AllTensorsFinite(p: TR.Payload) {
    p.noise.AllFinite() && p.cleanLatent.AllFinite() && TR.EachFinite(p.states) && TR.EachFinite(p.predictions)
  }

  /** What the builder assembles validates exactly when both sigma tables fall to zero and every tensor is finite. */
  lemma AssembledValidatesIff(solver: Solver, configured: Native, teacher: Teacher, labels: Labels,
                              video: Option<Tensor>,
                              seed: int, sourceNfe: int, targetNfe: int)
    requires Assemble(solver, configured, teacher, labels, video, seed, sourceNfe, targetNfe).Ok?
    ensures var t := Assemble(solver, configured, teacher, labels, video, seed, sourceNfe, targetNfe).value;
            TR.Validate(t) == None <==>
            TR.FallsToZero(t.metadata.sourceSigmas) && TR.FallsToZero(t.metadata.targetSigmas)
              && AllTensorsFinite(t.tensors)
  {
    hide Roll, Prepare;
    var source := Schedule(teacher, sourceNfe).value;
    var noise := teacher.noise(video.value.shape, seed);
    var rolled := RollAll(solver, configured, teacher, video.value, noise, source);
    RollCounts(solver, configured, teacher, video.value, noise, source);
  }

  /**
   A teacher and a solver that produce no infinities from finite inputs: `good` holds of the schedulers they run
   with, such as those whose stored tensors are finite.
   */
  ghost predicate KeepFinite(solver: Solver, teacher: Teacher, good: Native -> bool) {
    && (forall x: Tensor, sigma :: x.AllFinite() && teacher.predict(x, sigma).Some? ==>
          teacher.predict(x, sigma).value.AllFinite())
    && (forall n, p: Tensor, t, x: Tensor ::
          good(n) && p.AllFinite() && x.AllFinite() && solver.step(n, p, t, x).sample.Some? ==>
          solver.step(n, p, t, x).sample.value.AllFinite() && good(n.(attrs := solver.step(n, p, t, x).after)))
    && (forall n, nfe :: good(n) && solver.setTimesteps(n, nfe).Some? ==>
          good(n.(attrs := solver.setTimesteps(n, nfe).value)))
    && (forall n, start :: good(n) && solver.setBeginIndex(n, start).Some? ==>
          good(n.(attrs := solver.setBeginIndex(n, start).value)))
  }

  lemma {:induction false} RollStaysFinite(c: Context, solver: Solver, teacher: Teacher, good: Native -> bool,
                                           state: Tensor,
                                           sigmas: seq<real>, i: nat)
    requires i < |sigmas| && Roll(c, solver, teacher, state, sigmas, i).Ok?
    requires KeepFinite(solver, teacher, good) && good(c.native) && state.AllFinite()
    ensures var rolled := Roll(c, solver, teacher, state, sigmas, i).value;
            TR.EachFinite(rolled.states) && TR.EachFinite(rolled.predictions)
    decreases |sigmas| - i
  {
    if i + 1 < |sigmas| {
      hide NativeTimestep;
      var prediction := teacher.predict(state, sigmas[i]).value;
      var (after, sample) := StepContext(c, solver, state, prediction, Interval(sigmas[i], sigmas[i + 1]));
      RollStaysFinite(after, solver, teacher, good, sample.value, sigmas, i + 1);
    }
  }

  /**
   With such a teacher and solver the builder's record validates exactly when the clean latent and the noise are
   finite and both schedules fall to zero; a bad input is always caught.
   */
  lemma BuilderAcceptsIff(solver: Solver, configured: Native, teacher: Teacher, labels: Labels, video: Option<Tensor>,
                          seed: int, sourceNfe: int, targetNfe: int, good: Native -> bool)
    requires Assemble(solver, configured, teacher, labels, video, seed, sourceNfe, targetNfe).Ok?
    requires KeepFinite(solver, teacher, good) && good(configured)
    ensures Build(solver, configured, teacher, labels, video, seed, sourceNfe, targetNfe).Ok? <==>
            && video.value.AllFinite() && teacher.noise(video.value.shape, seed).AllFinite()
            && TR.FallsToZero(teacher.schedule(sourceNfe).value) && TR.FallsToZero(teacher.schedule(targetNfe).value)
  {
    hide Roll, StepContext, TR.Validate, TR.FallsToZero;
    var clean, noise := video.value, teacher.noise(video.value.shape, seed);
    var source := Schedule(teacher, sourceNfe).value;
    AssembledValidatesIff(solver, configured, teacher, labels, video, seed, sourceNfe, targetNfe);
    if clean.AllFinite() && noise.AllFinite() {
      var c := Begun(solver, configured, source).value.value;
      RollStaysFinite(c, solver, teacher, good, Noised(clean, noise, source[0]).value, source, 0);
    }
  }

  lemma RollCounts(solver: Solver, configured: Native, teacher: Teacher, clean: Tensor, noise: Tensor,
                   sigmas: seq<real>)
    requires sigmas != [] && RollAll(solver, configured, teacher, clean, noise, sigmas).Ok?
    ensures var rolled := RollAll(solver, configured, teacher, clean, noise, sigmas).value;
            |rolled.states| == |sigmas| == |rolled.snapshots| && |rolled.predictions| == |sigmas| - 1
  {
  }

  // ----- What a built record says

  /** The values of a finite tensor. */
  function Values(t: Tensor): (x: FlowMatching.Latent)
    requires t.AllFinite()
    ensures |x| == |t.data| && forall i :: 0 <= i < |x| ==> t.data[i] == Finite(x[i])
  {
    seq(|t.data|, i requires 0 <= i < |t.data| => t.data[i].value)
  }

  /** Noising mixes entry by entry: all noise at sigma one, all clean at sigma zero, the flow interpolant in between. */
  lemma NoisedIsInterpolant(clean: Tensor, noise: Tensor, sigma: real)
    requires |clean.data| == |noise.data| && clean.AllFinite() && noise.AllFinite()
    ensures var noised := Noised(clean, noise, sigma);
            && noised.Ok? && noised.value.shape == clean.shape && noised.value.AllFinite()
            && |noised.value.data| == |clean.data|
            && (forall i :: 0 <= i < |clean.data| ==>
                  noised.value.data[i] == Finite((1.0 - sigma) * clean.data[i].value + sigma * noise.data[i].value))
            && Values(noised.value) == FlowMatching.Mix(Values(clean), Values(noise), sigma)
            && (sigma == 1.0 ==> noised.value.data == noise.data) && (sigma == 0.0 ==> noised.value.data == clean.data)
  {
    var noised := Noised(clean, noise, sigma).value;
    var c, n := Values(clean), Values(noise);
    forall i | 0 <= i < |clean.data|
      ensures noised.data[i] == Finite((1.0 - sigma) * c[i] + sigma * n[i])
      ensures FlowMatching.Mix(c, n, sigma)[i] == (1.0 - sigma) * c[i] + sigma * n[i]
      ensures sigma == 1.0 ==> noised.data[i] == noise.data[i]
      ensures sigma == 0.0 ==> noised.data[i] == clean.data[i]
    {
      assert clean.data[i].Finite? && noise.data[i].Finite?;
    }
    assert Values(noised) == FlowMatching.Mix(c, n, sigma);
    assert sigma == 1.0 ==> noised.data == noise.data;
    assert sigma == 0.0 ==> noised.data == clean.data;
  }

  /** The contexts of an integration at its boundaries. */
  ghost function ContextsOf(c: Context, solver: Solver, teacher: Teacher, state: Tensor, sigmas: seq<real>, i: nat)
    : (contexts: seq<Context>)
    requires i < |sigmas| && Roll(c, solver, teacher, state, sigmas, i).Ok?
    ensures |contexts| == |sigmas| - i && contexts[0] == c
    decreases |sigmas| - i
  {
    if i + 1 == |sigmas| then [c]
    else
      var prediction := teacher.predict(state, sigmas[i]).value;
      var (after, sample) := StepContext(c, solver, state, prediction, Interval(sigmas[i], sigmas[i + 1]));
      [c] + ContextsOf(after, solver, teacher, sample.value, sigmas, i + 1)
  }

  /** At boundary i + j the teacher predicts at the state and its sigma, and the native step leads to the next one. */
  ghost predicate StepsOn(contexts: seq<Context>, rolled: Rolled, solver: Solver, teacher: Teacher, sigmas: seq<real>,
                          i: nat, j: nat)
    requires i + |contexts| == |sigmas| && |contexts| == |rolled.states| == |rolled.snapshots|
    requires |rolled.predictions| == |contexts| - 1 && j < |contexts|
  {
    && rolled.snapshots[j] == CaptureContext(contexts[j])
    && (j < |contexts| - 1 ==>
          && teacher.predict(rolled.states[j], sigmas[i + j]) == Some(rolled.predictions[j])
          && StepContext(contexts[j], solver, rolled.states[j], rolled.predictions[j],
                         Interval(sigmas[i + j], sigmas[i + j + 1]))
             == (contexts[j + 1], Ok(rolled.states[j + 1])))
  }

  lemma {:induction false} RollStepsOn(c: Context, solver: Solver, teacher: Teacher, state: Tensor, sigmas: seq<real>,
                                       i: nat,
                                       j: nat)
    requires i + j < |sigmas| && Roll(c, solver, teacher, state, sigmas, i).Ok?
    ensures StepsOn(ContextsOf(c, solver, teacher, state, sigmas, i), Roll(c, solver, teacher, state, sigmas, i).value,
                    solver, teacher, sigmas, i, j)
    decreases j
  {
    hide StepContext, CaptureContext;
    if j > 0 {
      var prediction := teacher.predict(state, sigmas[i]).value;
      var (after, sample) := StepContext(c, solver, state, prediction, Interval(sigmas[i], sigmas[i + 1]));
      RollStepsOn(after, solver, teacher, sample.value, sigmas, i + 1, j - 1);
    }
  }

  /** The record names what it was built from: labels, schedules, timetables, noise, clean latent and digests. */
  ghost predicate Names(m: TR.Record, p: TR.Payload, teacher: Teacher, labels: Labels, clean: Tensor, seed: int,
                        sourceNfe: nat, targetNfe: nat)
  {
    && m.schemaVersion == 1 && m.sourceNfe == sourceNfe && m.targetNfe == targetNfe && sourceNfe == 2 * targetNfe
    && m.cacheItem == labels.cacheItem && m.cacheDigest == labels.cacheDigest
    && m.conditioningDigest == labels.conditioningDigest
    && m.teacherCheckpointDigest == labels.teacherCheckpointDigest && m.schedulerDigest == labels.schedulerDigest
    && teacher.schedule(sourceNfe) == Some(m.sourceSigmas) && teacher.schedule(targetNfe) == Some(m.targetSigmas)
    && teacher.timetable(m.sourceSigmas) == Some(m.sourceTimesteps)
    && teacher.timetable(m.targetSigmas) == Some(m.targetTimesteps)
    && p.cleanLatent == clean && p.noise == teacher.noise(clean.shape, seed)
    && m.cleanLatentDigest == TR.TensorDigest(p.cleanLatent) && m.noiseDigest == TR.TensorDigest(p.noise)
    && m.tensorDigest == TR.TensorsDigest(p) && m.tensorArtifact == "trajectory-tensors.pt"
  }

  /**
   A built record names its inputs, and its states, predictions and snapshots are the integration of the teacher's
   predictions by the native scheduler, from the noised clean latent at the first source sigma.
   */
  lemma BuiltIsIntegration(solver: Solver, configured: Native, teacher: Teacher, labels: Labels, video: Option<Tensor>,
                           seed: int, sourceNfe: int, targetNfe: int) returns (contexts: seq<Context>)
    requires Build(solver, configured, teacher, labels, video, seed, sourceNfe, targetNfe).Ok?
    ensures var t := Build(solver, configured, teacher, labels, video, seed, sourceNfe, targetNfe).value;
            var m, p := t.metadata, t.tensors;
            && video.Some? && targetNfe > 0 && Names(m, p, teacher, labels, video.value, seed, sourceNfe, targetNfe)
            && |contexts| == |p.states| == |m.sourceSigmas| == |p.snapshots| && |p.predictions| == |m.sourceSigmas| - 1
            && Prepare(solver, configured, m.sourceSigmas, 0) == Ok(contexts[0])
            && Noised(p.cleanLatent, p.noise, m.sourceSigmas[0]) == Ok(p.states[0])
            && forall j: nat :: j < |m.sourceSigmas| ==>
                 StepsOn(contexts, Rolled(p.states, p.predictions, p.snapshots), solver, teacher, m.sourceSigmas, 0, j)
  {
    hide Roll, Prepare, StepsOn, TR.Validate, StepContext;
    var source := Schedule(teacher, sourceNfe).value;
    var noise := teacher.noise(video.value.shape, seed);
    var begun := Begun(solver, configured, source).value.value;
    var first := Noised(video.value, noise, source[0]).value;
    contexts := ContextsOf(begun, solver, teacher, first, source, 0);
    forall j: nat | j < |source|
      ensures StepsOn(contexts, Roll(begun, solver, teacher, first, source, 0).value, solver, teacher, source, 0, j)
    {
      RollStepsOn(begun, solver, teacher, first, source, 0, j);
    }
  }

  /** Building fails exactly when one of these things is missing, raises, or is rejected. */
  lemma AssemblesIff(solver: Solver, configured: Native, teacher: Teacher, labels: Labels, video: Option<Tensor>,
                     seed: int, sourceNfe: int, targetNfe: int)
    ensures Assemble(solver, configured, teacher, labels, video, seed, sourceNfe, targetNfe).Ok? <==>
              && sourceNfe == 2 * targetNfe && targetNfe > 0 && video.Some? && |video.value.shape| == 5
              && teacher.schedule(sourceNfe).Some? && |teacher.schedule(sourceNfe).value| == sourceNfe + 1
              && teacher.schedule(targetNfe).Some? && |teacher.schedule(targetNfe).value| == targetNfe + 1
              && (var source, target := teacher.schedule(sourceNfe).value, teacher.schedule(targetNfe).value;
                  && teacher.timetable(source).Some? && |teacher.timetable(source).value| == sourceNfe
                  && teacher.timetable(target).Some? && |teacher.timetable(target).value| == targetNfe
                  && solver.hasTrajectory && Prepare(solver, configured, source, 0).Ok?
                  && (var noise := teacher.noise(video.value.shape, seed);
                      && |video.value.data| == |noise.data|
                      && Roll(Prepare(solver, configured, source, 0).value, solver, teacher,
                              Noised(video.value, noise, source[0]).value, source, 0).Ok?))
  {
    hide Roll, Prepare;
  }

  // ----- Replaying a record

  function ReplayAll(solver: Solver, configured: Native, teacher: Teacher,
                     t: TR.Trajectory): Result<seq<Tensor>, BuildError> {
    if TR.Validate(t).Some? then Err(Rejected(TR.Validate(t).value))
    else if teacher.schedule(t.metadata.sourceNfe).None? then Err(BadSigmaTable)
    else
      var begun :- Begun(solver, configured, teacher.schedule(t.metadata.sourceNfe).value);
      var state :- Noised(t.tensors.cleanLatent, t.tensors.noise, t.metadata.sourceSigmas[0]);
      Replay(begun, solver, teacher, state, t.metadata.sourceSigmas, 0)
  }

  /** Without a native trajectory a replay is a chain of Euler steps along the teacher's predictions. */
  lemma {:induction false} ReplayByEuler(solver: Solver, teacher: Teacher, state: Tensor, sigmas: seq<real>, i: nat,
                                         j: nat)
    requires i + j < |sigmas| && Replay(None, solver, teacher, state, sigmas, i).Ok?
    ensures var states := Replay(None, solver, teacher, state, sigmas, i).value;
            && |states| == |sigmas| - i && states[0] == state
            && (i + j + 1 < |sigmas| ==>
                  && teacher.predict(states[j], sigmas[i + j]).Some?
                  && var prediction := teacher.predict(states[j], sigmas[i + j]).value;
                  && EulerStep(states[j], prediction, Interval(sigmas[i + j], sigmas[i + j + 1])) == Ok(states[j + 1]))
    decreases |sigmas| - i
  {
    hide EulerStep;
    if i + 1 < |sigmas| {
      var prediction := teacher.predict(state, sigmas[i]).value;
      var next := EulerStep(state, prediction, Interval(sigmas[i], sigmas[i + 1])).value;
      ReplayByEuler(solver, teacher, next, sigmas, i + 1, if j > 0 then j - 1 else 0);
    }
  }

  /** Replaying what was built reproduces every stored boundary state, whatever the adapter did in between. */
  lemma ReplayReproduces(solver: Solver, configured: Native, teacher: Teacher, labels: Labels, video: Option<Tensor>,
                         seed: int, sourceNfe: int, targetNfe: int)
    requires Build(solver, configured, teacher, labels, video, seed, sourceNfe, targetNfe).Ok?
    ensures var t := Build(solver, configured, teacher, labels, video, seed, sourceNfe, targetNfe).value;
            ReplayAll(solver, configured, teacher, t) == Ok(t.tensors.states)
  {
    hide Roll, Replay, Prepare, TR.Validate;
    var source := Schedule(teacher, sourceNfe).value;
    var noise := teacher.noise(video.value.shape, seed);
    var state := Noised(video.value, noise, source[0]).value;
    ReplayFollowsRoll(Begun(solver, configured, source).value.value, solver, teacher, state, source, 0);
  }

  /**
   Every stored snapshot resumes the trajectory: restored over any scheduler of the same kind, the teacher runs
   on from the stored state through exactly the stored rest.
   */
  lemma {:induction false} SnapshotsResume(c: Context, solver: Solver, configured: Native, teacher: Teacher,
                                           state: Tensor,
                                           sigmas: seq<real>, i: nat, k: nat, now: Context)
    requires Confined(solver) && SameKind(c.native, configured) && SameKind(now.native, configured)
    requires i <= k < |sigmas| && Roll(c, solver, teacher, state, sigmas, i).Ok?
    ensures var rolled := Roll(c, solver, teacher, state, sigmas, i).value;
            var resumed :=
              Roll(RestoreContext(now, rolled.snapshots[k - i]), solver, teacher, rolled.states[k - i], sigmas, k);
            resumed == Ok(Rolled(rolled.states[k - i..], rolled.predictions[k - i..], rolled.snapshots[k - i..]))
    decreases k - i
  {
    hide StepContext, RestoreContext, CaptureContext, SameKind, Confined;
    var rolled := Roll(c, solver, teacher, state, sigmas, i).value;
    if i == k {
      BackToCapture(c, now, configured);
      assert rolled.states[0..] == rolled.states && rolled.predictions[0..] == rolled.predictions
          && rolled.snapshots[0..] == rolled.snapshots;
    } else {
      var prediction := teacher.predict(state, sigmas[i]).value;
      var (after, sample) := StepContext(c, solver, state, prediction, Interval(sigmas[i], sigmas[i + 1]));
      StepKeepsKind(c, solver, configured, state, prediction, Interval(sigmas[i], sigmas[i + 1]));
      SnapshotsResume(after, solver, configured, teacher, sample.value, sigmas, i + 1, k, now);
      var rest := Roll(after, solver, teacher, sample.value, sigmas, i + 1).value;
      assert rolled.states[k - i..] == rest.states[k - i - 1..];
      assert rolled.predictions[k - i..] == rest.predictions[k - i - 1..];
      assert rolled.snapshots[k - i..] == rest.snapshots[k - i - 1..];
    }
  }

  lemma StepKeepsKind(c: Context, solver: Solver, configured: Native, latent: Tensor, prediction: Tensor,
                      interval: Interval)
    requires Confined(solver) && SameKind(c.native, configured)
    ensures SameKind(StepContext(c, solver, latent, prediction, interval).0.native, configured)
  {
    ApplyKeepsKind(Some(c), solver, configured, StepCall(0, latent, prediction, interval));
  }

  // ----- The builder's and the replay's loops

  /** What was kept so far, before what is still to come. */
  function Behind(kept: Rolled, rest: Result<Rolled, BuildError>): Result<Rolled, BuildError> {
    match rest
    case Err(e) => Err(e)
    case Ok(r) => Ok(Rolled(kept.states + r.states, kept.predictions + r.predictions, kept.snapshots + r.snapshots))
  }

  /** One turn of the loop moves one boundary from what is to come to what is kept. */
  lemma RollTurn(kept: Rolled, c: Context, solver: Solver, teacher: Teacher, state: Tensor, sigmas: seq<real>, i: nat)
    requires i + 1 < |sigmas|
    ensures var interval := Interval(sigmas[i], sigmas[i + 1]);
            Behind(kept, Roll(c, solver, teacher, state, sigmas, i))
            == match teacher.predict(state, sigmas[i])
               case None => Err(PredictFailed)
               case Some(p) =>
                 var (after, sample) := StepContext(c, solver, state, p, interval);
                 match sample
                 case Err(e) => Err(Scheduler(e))
                 case Ok(x) => Behind(Rolled(kept.states + [state], kept.predictions + [p],
                                             kept.snapshots + [CaptureContext(c)]),
                                      Roll(after, solver, teacher, x, sigmas, i + 1))
  {
    hide StepContext, CaptureContext;
    if teacher.predict(state, sigmas[i]).Some? {
      var p := teacher.predict(state, sigmas[i]).value;
      var (after, sample) := StepContext(c, solver, state, p, Interval(sigmas[i], sigmas[i + 1]));
      if sample.Ok? && Roll(after, solver, teacher, sample.value, sigmas, i + 1).Ok? {
        var rest := Roll(after, solver, teacher, sample.value, sigmas, i + 1).value;
        assert kept.states + ([state] + rest.states) == (kept.states + [state]) + rest.states;
        assert kept.predictions + ([p] + rest.predictions) == (kept.predictions + [p]) + rest.predictions;
        assert kept.snapshots + ([CaptureContext(c)] + rest.snapshots)
               == (kept.snapshots + [CaptureContext(c)]) + rest.snapshots;
      }
    }
  }

  /** The values of a capture, as the record keeps them. */
  method CaptureValues(adapter: WanAdapter, role: Role) returns (r: Result<Snapshot, Failure>)
    requires adapter.Valid()
    ensures adapter.Valid()
    ensures r == Capture(adapter.machine, role)
  {
    hide WanAdapter.Valid;
    var captured := adapter.CaptureNative(role);
    if captured.Err? {
      return Err(captured.error);
    }
    var values := captured.value.Read();
    r := Ok(values);
  }

  /** One model evaluation and one scheduler step. */
  method Evaluate(adapter: WanAdapter, role: Role, teacher: Teacher, state: Tensor, current: real, next: real)
    returns (r: Result<(Tensor, Tensor), BuildError>)
    requires adapter.Valid()
    modifies adapter.Repr
    ensures adapter.Valid() && fresh(adapter.Repr - old(adapter.Repr))
    ensures adapter.scheduler.View() == old(adapter.scheduler.View())
    ensures match teacher.predict(state, current)
            case None => r == Err(PredictFailed) && adapter.machine == old(adapter.machine)
            case Some(p) =>
              var (after, sample) :=
                Step(old(adapter.machine), role, adapter.solver, state, p, Interval(current, next));
              adapter.machine == after
              && r == match sample case Ok(x) => Ok((p, x)) case Err(e) => Err(Scheduler(e))
  {
    adapter.NativesInRepr();
    hide WanAdapter.Valid, Step;
    var prediction := teacher.predict(state, current);
    if prediction.None? {
      return Err(PredictFailed);
    }
    var sample := adapter.SchedulerStep(role, state, prediction.value, Interval(current, next));
    r := match sample case Ok(x) => Ok((prediction.value, x)) case Err(e) => Err(Scheduler(e));
  }

  /** Begin a fresh native trajectory and integrate it, keeping states, predictions and snapshots. */
  method Integrate(adapter: WanAdapter, role: Role, teacher: Teacher, clean: Tensor, noise: Tensor, sigmas: seq<real>)
    returns (r: Result<Rolled, BuildError>)
    requires adapter.Valid() && sigmas != []
    modifies adapter.Repr
    ensures adapter.Valid() && fresh(adapter.Repr - old(adapter.Repr))
    ensures adapter.scheduler.View() == old(adapter.scheduler.View())
    ensures r == RollAll(adapter.solver, old(adapter.scheduler.View()), teacher, clean, noise, sigmas)
  {
    hide WanAdapter.Valid, Prepare, StepContext, CaptureContext;
    ghost var configured := adapter.scheduler.View();
    ghost var whole := RollAll(adapter.solver, configured, teacher, clean, noise, sigmas);
    var failure := adapter.BeginTrajectory(role, Some(sigmas), 0);
    if failure.Some? {
      return Err(Scheduler(failure.value));
    }
    var initial := Noised(clean, noise, sigmas[0]);
    if initial.Err? {
      return Err(initial.error);
    }
    var state := initial.value;
    var first := CaptureValues(adapter, role);
    if first.Err? {
      return Err(Scheduler(first.error));
    }
    var states, predictions, snapshots := [state], [], [first.value];
    ghost var kept := Rolled([], [], []);
    BehindNothing(Roll(adapter.machine[role], adapter.solver, teacher, state, sigmas, 0));
    for i := 0 to |sigmas| - 1
      invariant adapter.Valid() && fresh(adapter.Repr - old(adapter.Repr)) && adapter.scheduler.View() == configured
      invariant role in adapter.machine
      invariant states == kept.states + [state] && predictions == kept.predictions
      invariant snapshots == kept.snapshots + [CaptureContext(adapter.machine[role])]
      invariant whole == Behind(kept, Roll(adapter.machine[role], adapter.solver, teacher, state, sigmas, i))
    {
      RollTurn(kept, adapter.machine[role], adapter.solver, teacher, state, sigmas, i);
      var evaluated := Evaluate(adapter, role, teacher, state, sigmas[i], sigmas[i + 1]);
      if evaluated.Err? {
        return Err(evaluated.error);
      }
      kept := Rolled(states, predictions + [evaluated.value.0], snapshots);
      predictions := predictions + [evaluated.value.0];
      state := evaluated.value.1;
      states := states + [state];
      var captured := CaptureValues(adapter, role);
      snapshots := snapshots + [captured.value];
    }
    assert predictions + [] == predictions;
    r := Ok(Rolled(states, predictions, snapshots));
  }

  lemma BehindNothing(r: Result<Rolled, BuildError>)
    ensures Behind(Rolled([], [], []), r) == r
  {
    if r.Ok? {
      assert [] + r.value.states == r.value.states && [] + r.value.predictions == r.value.predictions
          && [] + r.value.snapshots == r.value.snapshots;
    }
  }

  /** Run the teacher once and put its whole trajectory into a validated record. */
  method BuildRecord(adapter: WanAdapter, role: Role, teacher: Teacher, labels: Labels, video: Option<Tensor>,
                     seed: int,
                     sourceNfe: int, targetNfe: int) returns (r: Result<TR.Trajectory, BuildError>)
    requires adapter.Valid()
    modifies adapter.Repr
    ensures adapter.Valid() && fresh(adapter.Repr - old(adapter.Repr))
    ensures adapter.scheduler.View() == old(adapter.scheduler.View())
    ensures r == Build(adapter.solver, old(adapter.scheduler.View()), teacher, labels, video, seed, sourceNfe,
                       targetNfe)
  {
    hide WanAdapter.Valid, RollAll, TR.Validate;
    if sourceNfe != 2 * targetNfe || targetNfe <= 0 {
      return Err(NotBinaryPair);
    }
    if video.None? {
      return Err(NoVideo);
    }
    var clean := video.value;
    if |clean.shape| != 5 {
      return Err(NotFiveDimensional);
    }
    var source :- Schedule(teacher, sourceNfe);
    var target :- Schedule(teacher, targetNfe);
    var sourceTimes :- Timetable(teacher, source, sourceNfe);
    var targetTimes :- Timetable(teacher, target, targetNfe);
    var noise := teacher.noise(clean.shape, seed);
    var integrated := Integrate(adapter, role, teacher, clean, noise, source);
    if integrated.Err? {
      return Err(integrated.error);
    }
    var rolled := integrated.value;
    var payload := TR.Payload(noise, clean, rolled.states, rolled.snapshots, rolled.predictions);
    var t := TR.Trajectory(RecordOf(labels, sourceNfe, targetNfe, source, target, sourceTimes, targetTimes, payload),
                           payload);
    var rejection := TR.Validate(t);
    r := if rejection.Some? then Err(Rejected(rejection.value)) else Ok(t);
  }

  function StatesBehind(kept: seq<Tensor>, rest: Result<seq<Tensor>, BuildError>): Result<seq<Tensor>, BuildError> {
    match rest
    case Err(e) => Err(e)
    case Ok(r) => Ok(kept + r)
  }

  lemma ReplayTurn(kept: seq<Tensor>, m: Machine, role: Role, solver: Solver, teacher: Teacher, state: Tensor,
                   sigmas: seq<real>, i: nat)
    requires i + 1 < |sigmas|
    ensures StatesBehind(kept, Replay(Lookup(m, role), solver, teacher, state, sigmas, i))
            == match teacher.predict(state, sigmas[i])
               case None => Err(PredictFailed)
               case Some(p) =>
                 var (after, sample) := Step(m, role, solver, state, p, Interval(sigmas[i], sigmas[i + 1]));
                 match sample
                 case Err(e) => Err(Scheduler(e))
                 case Ok(x) => StatesBehind(kept + [state],
                                            Replay(Lookup(after, role), solver, teacher, x, sigmas, i + 1))
  {
    hide StepContext, EulerStep;
    if teacher.predict(state, sigmas[i]).Some? {
      var p := teacher.predict(state, sigmas[i]).value;
      var (after, sample) := Step(m, role, solver, state, p, Interval(sigmas[i], sigmas[i + 1]));
      if sample.Ok? && Replay(Lookup(after, role), solver, teacher, sample.value, sigmas, i + 1).Ok? {
        var rest := Replay(Lookup(after, role), solver, teacher, sample.value, sigmas, i + 1).value;
        assert kept + ([state] + rest) == (kept + [state]) + rest;
      }
    }
  }

  /** Replay a stored record with the adapter and return all boundary states. */
  method ReplayRecord(adapter: WanAdapter, role: Role, teacher: Teacher, t: TR.Trajectory)
    returns (r: Result<seq<Tensor>, BuildError>)
    requires adapter.Valid()
    modifies adapter.Repr
    ensures adapter.Valid() && fresh(adapter.Repr - old(adapter.Repr))
    ensures adapter.scheduler.View() == old(adapter.scheduler.View())
    ensures r == ReplayAll(adapter.solver, old(adapter.scheduler.View()), teacher, t)
  {
    hide WanAdapter.Valid, Prepare, Step, TR.Validate;
    ghost var configured := adapter.scheduler.View();
    ghost var whole := ReplayAll(adapter.solver, configured, teacher, t);
    var rejection := TR.Validate(t);
    if rejection.Some? {
      return Err(Rejected(rejection.value));
    }
    ValidSigmas(t);
    var schedule := teacher.schedule(t.metadata.sourceNfe);
    if schedule.None? {
      return Err(BadSigmaTable);
    }
    var failure := adapter.BeginTrajectory(role, schedule, 0);
    if failure.Some? {
      return Err(Scheduler(failure.value));
    }
    var sigmas := t.metadata.sourceSigmas;
    var initial := Noised(t.tensors.cleanLatent, t.tensors.noise, sigmas[0]);
    if initial.Err? {
      return Err(initial.error);
    }
    var state := initial.value;
    var states := [state];
    ghost var kept: seq<Tensor> := [];
    assert whole == Replay(Lookup(adapter.machine, role), adapter.solver, teacher, state, sigmas, 0);
    assert whole.Ok? ==> [] + whole.value == whole.value;
    for i := 0 to |sigmas| - 1
      invariant adapter.Valid() && fresh(adapter.Repr - old(adapter.Repr)) && adapter.scheduler.View() == configured
      invariant states == kept + [state]
      invariant whole
                == StatesBehind(kept, Replay(Lookup(adapter.machine, role), adapter.solver, teacher, state, sigmas, i))
    {
      ReplayTurn(kept, adapter.machine, role, adapter.solver, teacher, state, sigmas, i);
      var evaluated := Evaluate(adapter, role, teacher, state, sigmas[i], sigmas[i + 1]);
      if evaluated.Err? {
        return Err(evaluated.error);
      }
      kept := states;
      state := evaluated.value.1;
      states := states + [state];
    }
    r := Ok(states);
  }

  lemma ValidSigmas(t: TR.Trajectory)
    requires TR.Validate(t) == None
    ensures t.metadata.sourceNfe >= 0 && t.metadata.sourceSigmas != []
  {
  }

  // ----- Building into a directory

  const AUDIT_TOLERANCE: real := 0.0001

  /** The largest difference between two boundary lists is within the tolerance. */
  predicate WithinTolerance(actual: seq<Tensor>, expected: seq<Tensor>) {
    forall i, j :: 0 <= i < |actual| && i < |expected| && 0 <= j < |actual[i].data| && j < |expected[i].data| ==>
      ScalarsNear(actual[i].data[j], expected[i].data[j])
  }

  predicate ScalarsNear(x: Scalar, y: Scalar) {
    x.Finite? && y.Finite? && -AUDIT_TOLERANCE <= x.value - y.value <= AUDIT_TOLERANCE
  }

  lemma EqualIsWithinTolerance(states: seq<Tensor>)
    requires TR.EachFinite(states)
    ensures WithinTolerance(states, states)
  {
    forall i, j | 0 <= i < |states| && 0 <= j < |states[i].data|
      ensures ScalarsNear(states[i].data[j], states[i].data[j])
    {
      assert states[i].AllFinite();
    }
  }

  /** A file can be under both fixed names, and neither is in the way of the other. */
  predicate PlacesForBoth(locate: TR.Locator, d: TR.Disk) {
    && TR.Apart(locate, TR.TENSOR_ARTIFACT)
    && TR.CanHold(d, locate(TR.TENSOR_ARTIFACT)) && TR.CanHold(d, locate(TR.RECORD_ARTIFACT))
  }

  /**
   Build, save, and audit by replaying: the audit never rejects, and the directory then loads the built trajectory.
   A save that cannot write one of the two files raises.
   */
  method BuildInto(adapter: WanAdapter, role: Role, teacher: Teacher, labels: Labels, video: Option<Tensor>, seed: int,
                   sourceNfe: int, targetNfe: int, dir: TR.Directory) returns (r: Result<TR.Trajectory, BuildError>)
    requires adapter.Valid() && dir !in adapter.Repr && TR.Tree(dir.disk)
    modifies adapter.Repr, dir
    ensures adapter.Valid() && fresh(adapter.Repr - old(adapter.Repr))
    ensures var configured := old(adapter.scheduler.View());
            var built := Build(adapter.solver, configured, teacher, labels, video, seed, sourceNfe, targetNfe);
            && (built.Err? ==> r == built && dir.disk == old(dir.disk))
            && (built.Ok? ==>
                  var (after, done) := TR.Perform(old(dir.disk), TR.SaveOps(dir.locate, built.value));
                  && dir.disk == after && r == (if done then built else Err(Rejected(TR.NotAFile)))
                  && (TR.Load(dir.locate, after) == Ok(built.value) <==> PlacesForBoth(dir.locate, old(dir.disk)))
                  && (PlacesForBoth(dir.locate, old(dir.disk)) ==> done))
  {
    hide WanAdapter.Valid, Assemble, ReplayAll, TR.Validate, TR.SaveOps, TR.Perform, TR.Tree, TR.Load, PlacesForBoth;
    ghost var configured := adapter.scheduler.View();
    r := BuildRecord(adapter, role, teacher, labels, video, seed, sourceNfe, targetNfe);
    if r.Err? {
      return;
    }
    BuiltLoads(dir.locate, dir.disk, adapter.solver, configured, teacher, labels, video, seed, sourceNfe, targetNfe);
    var rejection := dir.Save(r.value);
    if rejection.Some? {
      return Err(Rejected(rejection.value));
    }
    ReplayReproduces(adapter.solver, configured, teacher, labels, video, seed, sourceNfe, targetNfe);
    var replayed := ReplayRecord(adapter, role, teacher, r.value);
    FiniteStates(r.value);
    EqualIsWithinTolerance(r.value.tensors.states);
    var passed := WithinTolerance(replayed.value, r.value.tensors.states);
    r := if passed then Ok(r.value) else Err(ReplayDiffers);
  }

  lemma FiniteStates(t: TR.Trajectory)
    requires TR.Validate(t) == None
    ensures TR.EachFinite(t.tensors.states)
  {
  }

  lemma BuiltLoads(locate: TR.Locator, d: TR.Disk, solver: Solver, configured: Native, teacher: Teacher, labels: Labels,
                   video: Option<Tensor>, seed: int, sourceNfe: int, targetNfe: int)
    requires TR.Tree(d) && Build(solver, configured, teacher, labels, video, seed, sourceNfe, targetNfe).Ok?
    ensures var t := Build(solver, configured, teacher, labels, video, seed, sourceNfe, targetNfe).value;
            && TR.Validate(t) == None
            && (TR.Load(locate, TR.Saved(locate, d, t)) == Ok(t) <==> PlacesForBoth(locate, d))
            && (PlacesForBoth(locate, d) ==> TR.Perform(d, TR.SaveOps(locate, t)).1)
  {
    hide RollAll, TR.Validate, TR.SaveOps, TR.Perform, TR.Tree, TR.Load;
    var t := Build(solver, configured, teacher, labels, video, seed, sourceNfe, targetNfe).value;
    assert t.metadata.tensorArtifact == TR.TENSOR_ARTIFACT;
    TR.SaveThenLoadIff(locate, d, t);
    if PlacesForBoth(locate, d) {
      TR.SaveApart(locate, d, t);
    }
  }
}
