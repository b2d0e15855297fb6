/**
 Native scheduler trajectories as a machine over values: every role owns a scheduler (a record of named
 attributes) and the index of its next step. The classes of SchedulerTrajectory refine these functions.
 */
module SchedulerMachine {
  import opened Wrappers
  import opened Tensors

  type Role = nat

  datatype Value = NoneValue | Integer(int) | Text(string) | Floats(values: seq<real>) | TensorValue(Tensor)
                 | Sequence(items: seq<Value>)

  type Attrs = map<string, Value>
  datatype Native = Native(className: string, attrs: Attrs)

  /** The attributes that a snapshot covers. */
  const MUTABLE_NAMES: set<string> :=
    {"sigmas", "timesteps", "num_inference_steps", "model_outputs", "timestep_list", "lower_order_nums",
     "last_sample", "_step_index", "_begin_index"}

  datatype Outcome = Outcome(after: Attrs, sample: Option<Tensor>)

  /**
   The foreign scheduler: deterministic in its attributes. `None` means that it raised; a step may have
   changed attributes before it raised.
   */
  datatype Solver = Solver(
    hasTrajectory: bool,
    canBegin: bool,
    setTimesteps: (Native, nat) -> Option<Attrs>,
    setBeginIndex: (Native, nat) -> Option<Attrs>,
    step: (Native, Tensor, real, Tensor) -> Outcome)

  datatype Failure = TrajectoryInvalid | InitFailed | ScheduleMismatch | StepFailed | SnapshotMissing | SnapshotInvalid

  datatype Context = Context(native: Native, index: nat)
  type Machine = map<Role, Context>

  const TOLERANCE: real := 0.00005

  predicate Near(x: real, y: real) {
    -TOLERANCE <= x - y <= TOLERANCE
  }

  predicate AllNear(xs: seq<real>, ys: seq<real>) {
    |xs| == |ys| && forall i :: 0 <= i < |xs| ==> Near(xs[i], ys[i])
  }

  function FloatsOf(native: Native, name: string): Option<seq<real>> {
    if name in native.attrs && native.attrs[name].Floats? then Some(native.attrs[name].values) else None
  }

  /** A numeric table attribute; missing and None count as absent. */
  predicate HasTable(native: Native, name: string) {
    FloatsOf(native, name).Some?
  }

  function Prefix(xs: seq<real>, n: nat): seq<real> {
    if n <= |xs| then xs[..n] else xs
  }

  // ----- Begin

  /** Set up a copy of the configured scheduler for a trajectory from `start`. */
  function Prepare(solver: Solver, configured: Native, sigmas: seq<real>, start: int): Result<Context, Failure> {
    var nfe := |sigmas| - 1;
    if nfe <= 0 || start < 0 || start >= nfe then Err(TrajectoryInvalid)
    else
      match solver.setTimesteps(configured, nfe)
      case None => Err(InitFailed)
      case Some(attrs) =>
        var native := configured.(attrs := attrs);
        if HasTable(native, "sigmas") && !AllNear(Prefix(FloatsOf(native, "sigmas").value, nfe), sigmas[..nfe]) then
          Err(ScheduleMismatch)
        else if solver.canBegin then
          match solver.setBeginIndex(native, start)
          case None => Err(InitFailed)
          case Some(begun) => Ok(Context(native.(attrs := begun), start))
        else if start != 0 then Err(TrajectoryInvalid)
        else Ok(Context(native, start))
  }

  /** The role's old trajectory is dropped first, whatever happens next. */
  function Begin(m: Machine, role: Role, solver: Solver, configured: Native, sigmas: Option<seq<real>>, start: int)
    : (r: (Machine, Option<Failure>))
  {
    var dropped := m - {role};
    if !solver.hasTrajectory || sigmas.None? then (dropped, None)
    else
      match Prepare(solver, configured, sigmas.value, start)
      case Err(e) => (dropped, Some(e))
      case Ok(c) => (dropped[role := c], None)
  }

  // ----- Step

  datatype Interval = Interval(current: real, next: real)

  /** The native table entry of the step, when the interval given by the caller is the scheduler's own. */
  function NativeTimestep(c: Context, interval: Interval): Result<real, Failure> {
    if !HasTable(c.native, "sigmas") || !HasTable(c.native, "timesteps") then Err(StepFailed)
    else
      var sigmas, timesteps := FloatsOf(c.native, "sigmas").value, FloatsOf(c.native, "timesteps").value;
      if c.index >= |timesteps| || c.index + 1 >= |sigmas| then Err(StepFailed)
      else if !Near(sigmas[c.index], interval.current) || !Near(sigmas[c.index + 1], interval.next) then
        Err(ScheduleMismatch)
      else Ok(timesteps[c.index])
  }

  function StepContext(c: Context, solver: Solver, latent: Tensor, prediction: Tensor, interval: Interval)
    : (Context, Result<Tensor, Failure>)
  {
    match NativeTimestep(c, interval)
    case Err(e) => (c, Err(e))
    case Ok(timestep) =>
      var outcome := solver.step(c.native, prediction, timestep, latent);
      var after := c.native.(attrs := outcome.after);
      if outcome.sample.None? || outcome.sample.value.shape != latent.shape then
        (Context(after, c.index), Err(StepFailed))
      else
        (Context(after, c.index + 1), Ok(outcome.sample.value))
  }

  /** Without a trajectory: one Euler step over the interval. */
  function EulerStep(latent: Tensor, prediction: Tensor, interval: Interval): Result<Tensor, Failure> {
    if |latent.data| != |prediction.data| then Err(StepFailed)
    else Ok(Axpy(latent, interval.next - interval.current, prediction))
  }

  function Step(m: Machine, role: Role, solver: Solver, latent: Tensor, prediction: Tensor, interval: Interval)
    : (Machine, Result<Tensor, Failure>)
  {
    if role !in m then (m, EulerStep(latent, prediction, interval))
    else
      var (c, sample) := StepContext(m[role], solver, latent, prediction, interval);
      (m[role := c], sample)
  }

  // ----- Capture and restore

  datatype Snapshot = Snapshot(index: nat, className: string, state: Attrs)

  function Covered(attrs: Attrs): Attrs {
    map name | name in attrs && name in MUTABLE_NAMES :: attrs[name]
  }

  function Uncovered(attrs: Attrs): Attrs {
    attrs - MUTABLE_NAMES
  }

  function CaptureContext(c: Context): Snapshot {
    Snapshot(c.index, c.native.className, Covered(c.native.attrs))
  }

  function Capture(m: Machine, role: Role): Result<Snapshot, Failure> {
    if role in m then Ok(CaptureContext(m[role])) else Err(SnapshotMissing)
  }

  function RestoreContext(c: Context, s: Snapshot): Context {
    Context(c.native.(attrs := c.native.attrs + s.state), s.index)
  }

  function Restore(m: Machine, role: Role, s: Snapshot): (Machine, Option<Failure>) {
    if role !in m then (m, Some(SnapshotMissing))
    else if s.className != "" && s.className != m[role].native.className then (m, Some(SnapshotInvalid))
    else (m[role := RestoreContext(m[role], s)], None)
  }

  // ----- Interleaved calls of many roles

  datatype Call =
    | BeginCall(role: Role, sigmas: Option<seq<real>>, start: int)
    | StepCall(role: Role, latent: Tensor, prediction: Tensor, interval: Interval)
    | CaptureCall(role: Role)
    | RestoreCall(role: Role, snapshot: Snapshot)

  datatype Reply = Done | Sample(Tensor) | Captured(snapshot: Snapshot) | Failed(Failure)

  function ReplyOf(failure: Option<Failure>): Reply {
    match failure
    case None => Done
    case Some(f) => Failed(f)
  }

  /** The effect of a call on the context of its own role. */
  function Apply(c: Option<Context>, solver: Solver, configured: Native, call: Call): (Option<Context>, Reply) {
    match call
    case BeginCall(_, sigmas, start) =>
      if !solver.hasTrajectory || sigmas.None? then (None, Done)
      else
        (match Prepare(solver, configured, sigmas.value, start)
         case Err(e) => (None, Failed(e))
         case Ok(begun) => (Some(begun), Done))
    case StepCall(_, latent, prediction, interval) =>
      (match c
       case None =>
         (None, match EulerStep(latent, prediction, interval) case Ok(x) => Sample(x) case Err(e) => Failed(e))
       case Some(context) =>
         var (after, sample) := StepContext(context, solver, latent, prediction, interval);
         (Some(after), match sample case Ok(x) => Sample(x) case Err(e) => Failed(e)))
    case CaptureCall(_) =>
      (match c
       case None => (c, Failed(SnapshotMissing))
       case Some(context) => (c, Captured(CaptureContext(context))))
    case RestoreCall(_, s) =>
      (match c
       case None => (c, Failed(SnapshotMissing))
       case Some(context) =>
         if s.className != "" && s.className != context.native.className then (c, Failed(SnapshotInvalid))
         else (Some(RestoreContext(context, s)), Done))
  }

  /** The adapter's methods, as one dispatch. */
  function Perform(m: Machine, solver: Solver, configured: Native, call: Call): (Machine, Reply) {
    match call
    case BeginCall(role, sigmas, start) =>
      var (after, failure) := Begin(m, role, solver, configured, sigmas, start);
      (after, ReplyOf(failure))
    case StepCall(role, latent, prediction, interval) =>
      var (after, sample) := Step(m, role, solver, latent, prediction, interval);
      (after, match sample case Ok(x) => Sample(x) case Err(e) => Failed(e))
    case CaptureCall(role) =>
      (m, match Capture(m, role) case Ok(s) => Captured(s) case Err(e) => Failed(e))
    case RestoreCall(role, s) =>
      var (after, failure) := Restore(m, role, s);
      (after, ReplyOf(failure))
  }

  function PerformAll(m: Machine, solver: Solver, configured: Native, calls: seq<Call>): (Machine, seq<Reply>)
    decreases |calls|
  {
    if calls == [] then (m, [])
    else
      var (m1, reply) := Perform(m, solver, configured, calls[0]);
      var (m2, replies) := PerformAll(m1, solver, configured, calls[1..]);
      (m2, [reply] + replies)
  }

  /** One role on its own. */
  function ApplyAll(c: Option<Context>, solver: Solver, configured: Native, calls: seq<Call>)
    : (Option<Context>, seq<Reply>)
    decreases |calls|
  {
    if calls == [] then (c, [])
    else
      var (c1, reply) := Apply(c, solver, configured, calls[0]);
      var (c2, replies) := ApplyAll(c1, solver, configured, calls[1..]);
      (c2, [reply] + replies)
  }

  function Lookup(m: Machine, role: Role): Option<Context> {
    if role in m then Some(m[role]) else None
  }

  function CallsOf(calls: seq<Call>, role: Role): seq<Call> {
    if calls == [] then []
    else (if calls[0].role == role then [calls[0]] else []) + CallsOf(calls[1..], role)
  }

  /** The replies that went to `role`. */
  function RepliesTo(calls: seq<Call>, replies: seq<Reply>, role: Role): seq<Reply>
    requires |calls| == |replies|
  {
    if calls == [] then []
    else (if calls[0].role == role then [replies[0]] else []) + RepliesTo(calls[1..], replies[1..], role)
  }

  lemma {:induction false} OneReplyEach(m: Machine, solver: Solver, configured: Native, calls: seq<Call>)
    ensures |PerformAll(m, solver, configured, calls).1| == |calls|
    decreases |calls|
  {
    if calls != [] {
      OneReplyEach(Perform(m, solver, configured, calls[0]).0, solver, configured, calls[1..]);
    }
  }

  lemma PerformIsLocal(m: Machine, solver: Solver, configured: Native, call: Call, role: Role)
    ensures var (after, reply) := Perform(m, solver, configured, call);
            && (role != call.role ==> Lookup(after, role) == Lookup(m, role))
            && (role == call.role ==> (Lookup(after, role), reply) == Apply(Lookup(m, role), solver, configured, call))
  {
  }

  /** In any interleaving, each role sees exactly what it would see alone. */
  lemma {:induction false} RolesAreIndependent(m: Machine, solver: Solver, configured: Native, calls: seq<Call>,
                                               role: Role)
    ensures |PerformAll(m, solver, configured, calls).1| == |calls|
    ensures var (after, replies) := PerformAll(m, solver, configured, calls);
            (Lookup(after, role), RepliesTo(calls, replies, role))
            == ApplyAll(Lookup(m, role), solver, configured, CallsOf(calls, role))
    decreases |calls|
  {
    OneReplyEach(m, solver, configured, calls);
    if calls != [] {
      hide Apply, Perform, Lookup;
      var (m1, reply) := Perform(m, solver, configured, calls[0]);
      var (m2, replies) := PerformAll(m1, solver, configured, calls[1..]);
      PerformIsLocal(m, solver, configured, calls[0], role);
      RolesAreIndependent(m1, solver, configured, calls[1..], role);
      assert ([reply] + replies)[1..] == replies;
      if calls[0].role == role {
        assert ([calls[0]] + CallsOf(calls[1..], role))[1..] == CallsOf(calls[1..], role);
      } else {
        assert [] + CallsOf(calls[1..], role) == CallsOf(calls[1..], role);
        assert [] + RepliesTo(calls[1..], replies, role) == RepliesTo(calls[1..], replies, role);
      }
    }
  }

  // ----- What a snapshot brings back

  /** Restoring recreates the captured scheduler exactly when nothing outside the covered names differs. */
  lemma RestoreExactIff(captured: Context, later: Context)
    requires captured.native.className == later.native.className
    ensures RestoreContext(later, CaptureContext(captured)) == captured <==>
            && Uncovered(later.native.attrs) == Uncovered(captured.native.attrs)
            && Covered(later.native.attrs).Keys <= Covered(captured.native.attrs).Keys
  {
    var a, b := captured.native.attrs, later.native.attrs;
    var restored := b + Covered(a);
    if Uncovered(b) == Uncovered(a) && Covered(b).Keys <= Covered(a).Keys {
      forall name ensures name in restored <==> name in a
                  ensures name in a ==> restored[name] == a[name]
      {
        if name !in MUTABLE_NAMES {
          assert name in Uncovered(b) <==> name in Uncovered(a);
          if name in a { assert Uncovered(b)[name] == Uncovered(a)[name]; }
        } else if name in b {
          assert name in Covered(b).Keys;
        }
      }
      assert restored == a;
    }
    if restored == a {
      assert Uncovered(b) == Uncovered(a) by {
        forall name ensures name in Uncovered(b) <==> name in Uncovered(a)
                    ensures name in Uncovered(a) ==> Uncovered(b)[name] == Uncovered(a)[name]
        {
          if name !in MUTABLE_NAMES { assert name in restored <==> name in b; }
        }
      }
      forall name | name in Covered(b).Keys ensures name in Covered(a).Keys {
        assert name in restored;
      }
    }
  }

  /** The same kind of scheduler: equal class, equal attributes outside the covered names, equal attribute names. */
  ghost predicate SameKind(a: Native, b: Native) {
    a.className == b.className && SameNames(a.attrs, b.attrs)
  }

  ghost predicate SameNames(a: Attrs, b: Attrs) {
    Uncovered(a) == Uncovered(b) && a.Keys == b.Keys
  }

  /** The nine names are all of the scheduler's mutable state: nothing else is written, none comes or goes. */
  ghost predicate Confined(solver: Solver) {
    && (forall n, nfe :: solver.setTimesteps(n, nfe).Some? ==> SameNames(solver.setTimesteps(n, nfe).value, n.attrs))
    && (forall n, start :: solver.setBeginIndex(n, start).Some? ==>
          SameNames(solver.setBeginIndex(n, start).value, n.attrs))
    && (forall n, p, t, x :: SameNames(solver.step(n, p, t, x).after, n.attrs))
  }

  /** Snapshots come from captures of the same kind of scheduler. */
  ghost predicate SnapshotFits(s: Snapshot, configured: Native) {
    s.className == configured.className && s.state.Keys == Covered(configured.attrs).Keys
  }

  ghost predicate CallFits(call: Call, configured: Native) {
    call.RestoreCall? ==> SnapshotFits(call.snapshot, configured)
  }

  ghost predicate ContextFits(c: Option<Context>, configured: Native) {
    c.Some? ==> SameKind(c.value.native, configured)
  }

  lemma SameKindCovered(a: Native, b: Native)
    requires SameKind(a, b)
    ensures Covered(a.attrs).Keys == Covered(b.attrs).Keys
  {
    assert forall name :: name in Covered(a.attrs).Keys <==> name in a.attrs.Keys && name in MUTABLE_NAMES;
    assert forall name :: name in Covered(b.attrs).Keys <==> name in b.attrs.Keys && name in MUTABLE_NAMES;
  }

  lemma CaptureFits(c: Context, configured: Native)
    requires SameKind(c.native, configured)
    ensures SnapshotFits(CaptureContext(c), configured)
  {
    SameKindCovered(c.native, configured);
  }

  lemma RestoreKeepsKind(c: Context, s: Snapshot, configured: Native)
    requires SameKind(c.native, configured) && SnapshotFits(s, configured)
    ensures SameKind(RestoreContext(c, s).native, configured)
  {
    SameKindCovered(c.native, configured);
    var restored := c.native.attrs + s.state;
    assert forall name :: name in s.state.Keys ==> name in Covered(configured.attrs).Keys;
    assert restored.Keys == c.native.attrs.Keys;
    assert Uncovered(restored) == Uncovered(c.native.attrs);
  }

  lemma ApplyKeepsKind(c: Option<Context>, solver: Solver, configured: Native, call: Call)
    requires Confined(solver) && ContextFits(c, configured) && CallFits(call, configured)
    ensures ContextFits(Apply(c, solver, configured, call).0, configured)
  {
    if call.RestoreCall? && c.Some? {
      RestoreKeepsKind(c.value, call.snapshot, configured);
    }
  }

  lemma {:induction false} ApplyAllKeepsKind(c: Option<Context>, solver: Solver, configured: Native, calls: seq<Call>)
    requires Confined(solver) && ContextFits(c, configured)
    requires forall call :: call in calls ==> CallFits(call, configured)
    ensures ContextFits(ApplyAll(c, solver, configured, calls).0, configured)
    decreases |calls|
  {
    if calls != [] {
      hide Apply, ContextFits, CallFits, Confined;
      ApplyKeepsKind(c, solver, configured, calls[0]);
      ApplyAllKeepsKind(Apply(c, solver, configured, calls[0]).0, solver, configured, calls[1..]);
    }
  }

  /**
   Capture, then any interleaving of calls of any roles, then restore: the role stands exactly where it stood
   at the capture, so every later call answers as it would have answered then.
   */
  lemma RestoreResumes(m: Machine, solver: Solver, configured: Native, role: Role, between: seq<Call>, later: seq<Call>)
    requires Confined(solver) && role in m && ContextFits(Lookup(m, role), configured)
    requires forall call :: call in between ==> CallFits(call, configured)
    requires role in PerformAll(m, solver, configured, between).0
    ensures var m1 := PerformAll(m, solver, configured, between).0;
            var (m2, failure) := Restore(m1, role, Capture(m, role).value);
            && failure == None && m2[role] == m[role]
            && (forall other :: other != role ==> Lookup(m2, other) == Lookup(m1, other))
            && |PerformAll(m2, solver, configured, later).1| == |later| == |PerformAll(m, solver, configured, later).1|
            && RepliesTo(later, PerformAll(m2, solver, configured, later).1, role)
               == RepliesTo(later, PerformAll(m, solver, configured, later).1, role)
  {
    hide Apply, Perform, PerformAll, ApplyAll, Confined, SameKind, RestoreContext, CaptureContext, CallFits;
    var m1 := PerformAll(m, solver, configured, between).0;
    RolesAreIndependent(m, solver, configured, between, role);
    CallsOfSubset(between, role);
    ApplyAllKeepsKind(Lookup(m, role), solver, configured, CallsOf(between, role));
    BackToCapture(m[role], m1[role], configured);
    var m2 := Restore(m1, role, Capture(m, role).value).0;
    RolesAreIndependent(m2, solver, configured, later, role);
    RolesAreIndependent(m, solver, configured, later, role);
  }

  ghost predicate MachineFits(m: Machine, configured: Native) {
    forall role :: role in m ==> SameKind(m[role].native, configured)
  }

  /** Every restored snapshot is known already or was captured earlier in the run. */
  ghost predicate Earned(m: Machine, solver: Solver, configured: Native, calls: seq<Call>, known: set<Snapshot>)
    decreases |calls|
  {
    calls == [] ||
    var (m1, reply) := Perform(m, solver, configured, calls[0]);
    && (calls[0].RestoreCall? ==> calls[0].snapshot in known)
    && Earned(m1, solver, configured, calls[1..], if reply.Captured? then known + {reply.snapshot} else known)
  }

  lemma PerformFits(m: Machine, solver: Solver, configured: Native, call: Call)
    requires Confined(solver) && MachineFits(m, configured) && CallFits(call, configured)
    ensures MachineFits(Perform(m, solver, configured, call).0, configured)
    ensures var reply := Perform(m, solver, configured, call).1;
            reply.Captured? ==> SnapshotFits(reply.snapshot, configured)
  {
    PerformIsLocal(m, solver, configured, call, call.role);
    ApplyKeepsKind(Lookup(m, call.role), solver, configured, call);
    var after := Perform(m, solver, configured, call).0;
    forall role | role in after ensures SameKind(after[role].native, configured) {
      PerformIsLocal(m, solver, configured, call, role);
      assert Lookup(after, role) == Some(after[role]);
    }
    if call.CaptureCall? && call.role in m {
      CaptureFits(m[call.role], configured);
    }
  }

  /** Snapshots that were captured from this kind of scheduler fit it wherever they are restored. */
  lemma {:induction false} EarnedFits(m: Machine, solver: Solver, configured: Native, calls: seq<Call>,
                                      known: set<Snapshot>)
    requires Confined(solver) && MachineFits(m, configured) && Earned(m, solver, configured, calls, known)
    requires forall s :: s in known ==> SnapshotFits(s, configured)
    ensures MachineFits(PerformAll(m, solver, configured, calls).0, configured)
    ensures forall call :: call in calls ==> CallFits(call, configured)
    decreases |calls|
  {
    if calls != [] {
      hide Perform, SnapshotFits, Confined, MachineFits;
      var (m1, reply) := Perform(m, solver, configured, calls[0]);
      PerformFits(m, solver, configured, calls[0]);
      EarnedFits(m1, solver, configured, calls[1..], if reply.Captured? then known + {reply.snapshot} else known);
    }
  }

  /**
   An adapter that only ever restores what it captured: capture, any interleaving, restore, and the role's later
   calls answer as they would have answered at the capture.
   */
  lemma CaptureThenRestore(m: Machine, solver: Solver, configured: Native, role: Role, between: seq<Call>,
                           later: seq<Call>)
    requires Confined(solver) && MachineFits(m, configured) && role in m
    requires Earned(m, solver, configured, [CaptureCall(role)] + between, {})
    requires role in PerformAll(m, solver, configured, between).0
    ensures var m1 := PerformAll(m, solver, configured, between).0;
            var (m2, failure) := Restore(m1, role, Capture(m, role).value);
            && failure == None && m2[role] == m[role]
            && |PerformAll(m2, solver, configured, later).1| == |later| == |PerformAll(m, solver, configured, later).1|
            && RepliesTo(later, PerformAll(m2, solver, configured, later).1, role)
               == RepliesTo(later, PerformAll(m, solver, configured, later).1, role)
  {
    var calls := [CaptureCall(role)] + between;
    assert calls[1..] == between;
    EarnedFits(m, solver, configured, calls, {});
    forall call | call in between ensures CallFits(call, configured) {
      assert call in calls;
    }
    RestoreResumes(m, solver, configured, role, between, later);
  }

  lemma BackToCapture(captured: Context, now: Context, configured: Native)
    requires SameKind(captured.native, configured) && SameKind(now.native, configured)
    ensures CaptureContext(captured).className == now.native.className
    ensures RestoreContext(now, CaptureContext(captured)) == captured
  {
    RestoreExactIff(captured, now);
    SameKindCovered(captured.native, configured);
    SameKindCovered(now.native, configured);
  }

  lemma {:induction false} CallsOfSubset(calls: seq<Call>, role: Role)
    ensures forall call :: call in CallsOf(calls, role) ==> call in calls
  {
    if calls != [] {
      CallsOfSubset(calls[1..], role);
    }
  }

  /** Step, restore, step again: the second step answers differently from the first. */
  ghost predicate Diverges(solver: Solver, c: Context, x: Tensor, interval: Interval) {
    var (moved, first) := StepContext(c, solver, x, x, interval);
    StepContext(RestoreContext(moved, CaptureContext(c)), solver, x, x, interval).1 != first
  }

  /** An attribute outside the nine names that a step reads and writes survives the restore. */
  lemma HiddenStateEscapes()
    ensures exists solver, c, x, interval :: Diverges(solver, c, x, interval)
  {
    var native :=
      Native("Momentum", map["sigmas" := Floats([1.0, 0.0]), "timesteps" := Floats([999.0]), "momentum" := Integer(0)]);
    var solver := Solver(true, true, (n: Native, nfe) => Some(n.attrs), (n: Native, start) => Some(n.attrs),
      (n: Native, p, t, x) =>
        Outcome(n.attrs["momentum" := Integer(1)],
                Some(Tensor([1], [if "momentum" in n.attrs && n.attrs["momentum"] == Integer(0) then Finite(0.0)
                                  else NonFinite]))));
    var c, x, interval := Context(native, 0), Tensor([1], [Finite(0.0)]), Interval(1.0, 0.0);
    var (moved, first) := StepContext(c, solver, x, x, interval);
    assert first == Ok(Tensor([1], [Finite(0.0)]));
    var restored := RestoreContext(moved, CaptureContext(c));
    assert "momentum" !in CaptureContext(c).state;
    assert restored.native.attrs["momentum"] == Integer(1);
    assert CaptureContext(c).state["sigmas"] == Floats([1.0, 0.0]);
    assert CaptureContext(c).state["timesteps"] == Floats([999.0]);
    assert StepContext(restored, solver, x, x, interval).1 == Ok(Tensor([1], [NonFinite]));
    assert Diverges(solver, c, x, interval);
  }

  /** A capture holds the index, the class and the values of the nine mutable attributes that there are. */
  lemma CaptureIs(m: Machine, role: Role)
    ensures Capture(m, role).Ok? <==> role in m
    ensures role in m ==>
              var s, native := Capture(m, role).value, m[role].native;
              && s.index == m[role].index && s.className == native.className
              && (forall name :: name in s.state ==> name in native.attrs && s.state[name] == native.attrs[name])
              && (forall name :: name in s.state <==>
                    && name in native.attrs
                    && (name == "sigmas" || name == "timesteps" || name == "num_inference_steps"
                        || name == "model_outputs" || name == "timestep_list" || name == "lower_order_nums"
                        || name == "last_sample" || name == "_step_index" || name == "_begin_index"))
  {
  }

  /** A restore is refused exactly when there is no trajectory or the snapshot names another class. */
  lemma RestoreRefusedIff(m: Machine, role: Role, s: Snapshot)
    ensures Restore(m, role, s).1 == None <==>
              role in m && (s.className == "" || s.className == m[role].native.className)
    ensures Restore(m, role, s).1 != None ==> Restore(m, role, s).0 == m
  {
  }

  // ----- What a begin sets up

  /** The sigmas that a scheduler shows after its setup are absent, or those of the schedule but for the last one. */
  ghost predicate ShowsSchedule(attrs: Attrs, sigmas: seq<real>) {
    "sigmas" in attrs && attrs["sigmas"].Floats? ==>
      var shown := attrs["sigmas"].values;
      |shown| >= |sigmas| - 1 && forall i :: 0 <= i < |sigmas| - 1 ==> -0.00005 <= shown[i] - sigmas[i] <= 0.00005
  }

  /** When a begin succeeds, and the scheduler it leaves: set up for all evaluations, then for the start index. */
  lemma PreparesIff(solver: Solver, configured: Native, sigmas: seq<real>, start: int)
    ensures var nfe, prepared := |sigmas| - 1, Prepare(solver, configured, sigmas, start);
            && (prepared.Ok? <==>
                  && nfe > 0 && 0 <= start < nfe
                  && solver.setTimesteps(configured, nfe).Some?
                  && (var ready := configured.(attrs := solver.setTimesteps(configured, nfe).value);
                      && ShowsSchedule(ready.attrs, sigmas)
                      && (if solver.canBegin then solver.setBeginIndex(ready, start).Some? else start == 0)))
            && (prepared.Ok? ==>
                  var ready := configured.(attrs := solver.setTimesteps(configured, nfe).value);
                  prepared.value
                    == Context(if solver.canBegin then ready.(attrs := solver.setBeginIndex(ready, start).value)
                                            else ready,
                                            start))
            && (prepared == Err(ScheduleMismatch) <==>
                  && nfe > 0 && 0 <= start < nfe && solver.setTimesteps(configured, nfe).Some?
                  && !ShowsSchedule(solver.setTimesteps(configured, nfe).value, sigmas))
            && (nfe <= 0 || start < 0 || start >= nfe ==> prepared == Err(TrajectoryInvalid))
            && (prepared == Err(TrajectoryInvalid) && 0 <= start < nfe ==> start != 0 && !solver.canBegin)
  {
    var nfe := |sigmas| - 1;
    if nfe > 0 && 0 <= start < nfe && solver.setTimesteps(configured, nfe).Some? {
      var ready := configured.(attrs := solver.setTimesteps(configured, nfe).value);
      if HasTable(ready, "sigmas") {
        var shown := FloatsOf(ready, "sigmas").value;
        var prefix := Prefix(shown, nfe);
        assert AllNear(prefix, sigmas[..nfe]) <==> ShowsSchedule(ready.attrs, sigmas) by {
          if |shown| >= nfe {
            assert forall i :: 0 <= i < nfe ==> prefix[i] == shown[i] && sigmas[..nfe][i] == sigmas[i];
          }
          if AllNear(prefix, sigmas[..nfe]) {
            forall i | 0 <= i < nfe ensures -0.00005 <= shown[i] - sigmas[i] <= 0.00005 {
              assert Near(prefix[i], sigmas[..nfe][i]);
            }
          }
        }
      }
    }
  }

  // ----- What a step computes

  /** Entry k of a numeric table attribute. */
  ghost predicate HasEntry(native: Native, name: string, k: nat, x: real) {
    name in native.attrs && native.attrs[name].Floats? && k < |native.attrs[name].values|
      && native.attrs[name].values[k] == x
  }

  ghost predicate NoEntry(native: Native, name: string, k: nat) {
    forall x :: !HasEntry(native, name, k, x)
  }

  /**
   A step over the scheduler's own interval runs the foreign step at the context's own timestep; over another interval
   it is refused and nothing changes.
   */
  lemma StepUsesOwnEntries(c: Context, solver: Solver, latent: Tensor, prediction: Tensor, interval: Interval,
                           current: real, next: real, timestep: real)
    requires HasEntry(c.native, "sigmas", c.index, current) && HasEntry(c.native, "sigmas", c.index + 1, next)
    requires HasEntry(c.native, "timesteps", c.index, timestep)
    ensures var (after, reply) := StepContext(c, solver, latent, prediction, interval);
            var foreign := solver.step(c.native, prediction, timestep, latent);
            if -0.00005 <= current - interval.current <= 0.00005 && -0.00005 <= next - interval.next <= 0.00005 then
              && after.native == c.native.(attrs := foreign.after)
              && (if foreign.sample.Some? && foreign.sample.value.shape == latent.shape
                  then reply == Ok(foreign.sample.value) && after.index == c.index + 1
                  else reply == Err(StepFailed) && after.index == c.index)
            else after == c && reply == Err(ScheduleMismatch)
  {
  }

  /** Without these entries there is no step. */
  lemma StepNeedsEntries(c: Context, solver: Solver, latent: Tensor, prediction: Tensor, interval: Interval)
    requires || NoEntry(c.native, "sigmas", c.index) || NoEntry(c.native, "sigmas", c.index + 1)
             || NoEntry(c.native, "timesteps", c.index)
    ensures StepContext(c, solver, latent, prediction, interval) == (c, Err(StepFailed))
  {
    if HasTable(c.native, "sigmas") && HasTable(c.native, "timesteps") {
      var sigmas, timesteps := FloatsOf(c.native, "sigmas").value, FloatsOf(c.native, "timesteps").value;
      if c.index < |timesteps| && c.index + 1 < |sigmas| {
        assert HasEntry(c.native, "sigmas", c.index, sigmas[c.index])
               && HasEntry(c.native, "sigmas", c.index + 1, sigmas[c.index + 1])
            && HasEntry(c.native, "timesteps", c.index, timesteps[c.index]);
      }
    }
  }

  /** The step without a native trajectory: latent + (next - current) * prediction, entry by entry. */
  lemma EulerStepIs(latent: Tensor, prediction: Tensor, interval: Interval)
    ensures EulerStep(latent, prediction, interval).Ok? <==> |latent.data| == |prediction.data|
    ensures |latent.data| == |prediction.data| ==>
              var after := EulerStep(latent, prediction, interval).value;
              && after.shape == latent.shape && |after.data| == |latent.data|
              && forall i :: 0 <= i < |latent.data| && latent.data[i].Finite? && prediction.data[i].Finite? ==>
                   after.data[i]
                     == Finite(latent.data[i].value + (interval.next - interval.current) * prediction.data[i].value)
  {
  }

  // ----- How many steps a trajectory accepts

  /** The solver leaves its tables alone once they are set. */
  ghost predicate TablesStay(solver: Solver) {
    && (forall n: Native, p, t, x :: SameTables(n.(attrs := solver.step(n, p, t, x).after), n))
    && (forall n: Native, start :: solver.setBeginIndex(n, start).Some? ==>
          SameTables(n.(attrs := solver.setBeginIndex(n, start).value), n))
  }

  /** A step never raises and keeps the latent's shape. */
  ghost predicate Steady(solver: Solver) {
    forall n, p, t, x ::
      solver.step(n, p, t, x).sample.Some? && solver.step(n, p, t, x).sample.value.shape == x.shape
  }

  ghost predicate SameTables(a: Native, b: Native) {
    FloatsOf(a, "sigmas") == FloatsOf(b, "sigmas") && FloatsOf(a, "timesteps") == FloatsOf(b, "timesteps")
  }

  /** set_timesteps(nfe) fills in nfe timesteps and nfe + 1 sigmas. */
  ghost predicate Tabulates(solver: Solver) {
    forall n, nfe :: solver.setTimesteps(n, nfe).Some? ==>
      HasTables(n.(attrs := solver.setTimesteps(n, nfe).value), nfe)
  }

  predicate HasTables(n: Native, nfe: nat) {
    && HasTable(n, "sigmas") && |FloatsOf(n, "sigmas").value| == nfe + 1
    && HasTable(n, "timesteps") && |FloatsOf(n, "timesteps").value| == nfe
  }

  datatype Input = Input(latent: Tensor, prediction: Tensor, interval: Interval)

  /** Offer steps one after the other; count the accepted ones. */
  function Drive(c: Context, solver: Solver, inputs: seq<Input>): (Context, nat)
    decreases |inputs|
  {
    if inputs == [] then (c, 0)
    else
      var (c1, sample) := StepContext(c, solver, inputs[0].latent, inputs[0].prediction, inputs[0].interval);
      var (c2, n) := Drive(c1, solver, inputs[1..]);
      (c2, n + if sample.Ok? then 1 else 0)
  }

  lemma StepOnTables(c: Context, solver: Solver, nfe: nat, input: Input)
    requires TablesStay(solver) && HasTables(c.native, nfe)
    ensures var (c1, sample) := StepContext(c, solver, input.latent, input.prediction, input.interval);
            && SameTables(c1.native, c.native) && HasTables(c1.native, nfe)
            && c1.index == c.index + (if sample.Ok? then 1 else 0)
            && (sample.Ok? ==> c.index < nfe)
            && (Steady(solver) ==>
                  (sample.Ok? <==> && c.index < nfe
                                   && Near(FloatsOf(c.native, "sigmas").value[c.index], input.interval.current)
                                   && Near(FloatsOf(c.native, "sigmas").value[c.index + 1], input.interval.next)))
  {
  }

  /** No more than the remaining steps are ever accepted, whatever is offered. */
  lemma {:induction false} AcceptsAtMost(c: Context, solver: Solver, nfe: nat, inputs: seq<Input>)
    requires TablesStay(solver) && HasTables(c.native, nfe) && c.index <= nfe
    ensures Drive(c, solver, inputs).1 <= nfe - c.index
    ensures Drive(c, solver, inputs).0.index == c.index + Drive(c, solver, inputs).1
    decreases |inputs|
  {
    if inputs != [] {
      hide StepContext, HasTables, Steady, TablesStay;
      StepOnTables(c, solver, nfe, inputs[0]);
      AcceptsAtMost(StepContext(c, solver, inputs[0].latent, inputs[0].prediction, inputs[0].interval).0, solver, nfe,
                    inputs[1..]);
    }
  }

  ghost predicate Scheduled(inputs: seq<Input>, sigmas: seq<real>, start: nat) {
    && start + |inputs| < |sigmas|
    && forall k :: 0 <= k < |inputs| ==> inputs[k].interval == Interval(sigmas[start + k], sigmas[start + k + 1])
  }

  lemma {:induction false} ScheduledAccepted(c: Context, solver: Solver, sigmas: seq<real>, inputs: seq<Input>)
    requires Steady(solver) && TablesStay(solver) && |sigmas| >= 2 && HasTables(c.native, |sigmas| - 1)
    requires Scheduled(inputs, sigmas, c.index)
    requires AllNear(FloatsOf(c.native, "sigmas").value[..|sigmas| - 1], sigmas[..|sigmas| - 1])
    ensures var atEnd := c.index + |inputs| == |sigmas| - 1 && |inputs| > 0;
            Drive(c, solver, inputs).1
            == |inputs|
               - if atEnd && !Near(FloatsOf(c.native, "sigmas").value[|sigmas| - 1], sigmas[|sigmas| - 1]) then 1 else 0
    decreases |inputs|
  {
    if inputs != [] {
      var nfe, table := |sigmas| - 1, FloatsOf(c.native, "sigmas").value;
      StepOnTables(c, solver, nfe, inputs[0]);
      assert inputs[0].interval == Interval(sigmas[c.index], sigmas[c.index + 1]);
      assert Near(table[..nfe][c.index], sigmas[..nfe][c.index]);
      assert c.index + 1 < nfe ==> Near(table[..nfe][c.index + 1], sigmas[..nfe][c.index + 1]);
      var (c1, sample) := StepContext(c, solver, inputs[0].latent, inputs[0].prediction, inputs[0].interval);
      if |inputs| == 1 {
        assert inputs[1..] == [];
        assert Drive(c1, solver, []) == (c1, 0);
      } else {
        hide StepContext, Steady, TablesStay;
        assert sample.Ok?;
        assert Scheduled(inputs[1..], sigmas, c1.index) by {
          forall k | 0 <= k < |inputs[1..]|
            ensures inputs[1..][k].interval == Interval(sigmas[c1.index + k], sigmas[c1.index + k + 1])
          {
            assert inputs[1..][k] == inputs[k + 1];
          }
        }
        ScheduledAccepted(c1, solver, sigmas, inputs[1..]);
      }
    }
  }

  /**
   A trajectory begun at `start` accepts at most nfe - start steps, and all of them when they are offered in
   schedule order exactly if the scheduler's last sigma is the schedule's: beginning never compares that one.
   */
  lemma AcceptsExactly(solver: Solver, configured: Native, sigmas: seq<real>, start: nat, inputs: seq<Input>)
    requires TablesStay(solver) && Tabulates(solver) && Prepare(solver, configured, sigmas, start).Ok?
    ensures var c, nfe := Prepare(solver, configured, sigmas, start).value, |sigmas| - 1;
            && start < nfe && HasTables(c.native, nfe) && c.index == start
            && Drive(c, solver, inputs).1 <= nfe - start
            && (Steady(solver) && Scheduled(inputs, sigmas, start) && |inputs| == nfe - start ==>
                  (Drive(c, solver, inputs).1 == nfe - start <==>
                   Near(FloatsOf(c.native, "sigmas").value[nfe], sigmas[nfe])))
  {
    var c, nfe := Prepare(solver, configured, sigmas, start).value, |sigmas| - 1;
    PreparedTables(solver, configured, sigmas, start);
    AcceptsAtMost(c, solver, nfe, inputs);
    if Steady(solver) && Scheduled(inputs, sigmas, start) && |inputs| == nfe - start {
      ScheduledAccepted(c, solver, sigmas, inputs);
    }
  }

  lemma PreparedTables(solver: Solver, configured: Native, sigmas: seq<real>, start: nat)
    requires TablesStay(solver) && Tabulates(solver) && Prepare(solver, configured, sigmas, start).Ok?
    ensures var c, nfe := Prepare(solver, configured, sigmas, start).value, |sigmas| - 1;
            && start < nfe && HasTables(c.native, nfe) && c.index == start
            && AllNear(FloatsOf(c.native, "sigmas").value[..nfe], sigmas[..nfe])
  {
    var nfe := |sigmas| - 1;
    var native := configured.(attrs := solver.setTimesteps(configured, nfe).value);
    assert HasTables(native, nfe);
    if solver.canBegin {
      assert SameTables(native.(attrs := solver.setBeginIndex(native, start).value), native);
    }
  }

  /** The step's interval is the scheduler's own entry. */
  predicate OnTable(c: Context, interval: Interval) {
    && HasTable(c.native, "sigmas")
    && var sigmas := FloatsOf(c.native, "sigmas").value;
    c.index + 1 < |sigmas| && Near(sigmas[c.index], interval.current) && Near(sigmas[c.index + 1], interval.next)
  }

  /** Every step goes through, whatever its interval is. */
  ghost predicate Unchecked(m: Machine, role: Role, solver: Solver) {
    forall latent: Tensor, prediction: Tensor, interval :: |latent.data| == |prediction.data| ==>
      Step(m, role, solver, latent, prediction, interval).1.Ok?
  }

  /** Only steps over the scheduler's own intervals go through. */
  ghost predicate Checked(m: Machine, role: Role, solver: Solver) {
    role in m && forall latent, prediction, interval ::
      Step(m, role, solver, latent, prediction, interval).1.Ok? ==> OnTable(m[role], interval)
  }

  lemma {:induction false} DriveKeepsTables(c: Context, solver: Solver, nfe: nat, inputs: seq<Input>)
    requires TablesStay(solver) && HasTables(c.native, nfe)
    ensures SameTables(Drive(c, solver, inputs).0.native, c.native) && HasTables(Drive(c, solver, inputs).0.native, nfe)
    decreases |inputs|
  {
    if inputs != [] {
      hide StepContext, HasTables, Steady, TablesStay;
      StepOnTables(c, solver, nfe, inputs[0]);
      DriveKeepsTables(StepContext(c, solver, inputs[0].latent, inputs[0].prediction, inputs[0].interval).0, solver,
                       nfe,
                       inputs[1..]);
    }
  }

  /**
   The k-th accepted step of a trajectory begun at `start` runs the foreign step at entry start + k of the timesteps,
   whatever was offered and refused before.
   */
  lemma StepsWalkTheTable(solver: Solver, configured: Native, sigmas: seq<real>, start: nat, inputs: seq<Input>,
                          input: Input)
    requires TablesStay(solver) && Tabulates(solver) && Prepare(solver, configured, sigmas, start).Ok?
    ensures var begun := Prepare(solver, configured, sigmas, start).value;
            var (c, k) := Drive(begun, solver, inputs);
            var reply := StepContext(c, solver, input.latent, input.prediction, input.interval).1;
            reply.Ok? ==>
              && HasTable(begun.native, "timesteps") && start + k < |FloatsOf(begun.native, "timesteps").value|
              && Some(reply.value) == solver.step(c.native, input.prediction,
                                                  FloatsOf(begun.native, "timesteps").value[start + k],
                                                    input.latent).sample
  {
    var begun, nfe := Prepare(solver, configured, sigmas, start).value, |sigmas| - 1;
    PreparedTables(solver, configured, sigmas, start);
    AcceptsAtMost(begun, solver, nfe, inputs);
    DriveKeepsTables(begun, solver, nfe, inputs);
    hide TablesStay, Tabulates, Prepare, Drive;
    var (c, k) := Drive(begun, solver, inputs);
    assert c.index == start + k;
  }

  /**
   After a begin, and until the role's next begin, its steps are checked against the native table exactly when the
   scheduler has trajectories, there is a schedule, and the setup succeeds. Otherwise every interval is accepted,
   and without a trajectory to begin that happens without an error.
   */
  lemma ChecksStepsIff(m: Machine, role: Role, solver: Solver, configured: Native, sigmas: Option<seq<real>>,
                       start: int,
                       between: seq<Call>)
    requires forall call :: call in between ==> !(call.BeginCall? && call.role == role)
    ensures var (begun, failure) := Begin(m, role, solver, configured, sigmas, start);
            var after := PerformAll(begun, solver, configured, between).0;
            var sets := solver.hasTrajectory && sigmas.Some? && Prepare(solver, configured, sigmas.value, start).Ok?;
            && (Checked(after, role, solver) <==> sets)
            && (Unchecked(after, role, solver) <==> !sets)
            && (failure == None <==> sets || !solver.hasTrajectory || sigmas.None?)
  {
    var (begun, failure) := Begin(m, role, solver, configured, sigmas, start);
    var after := PerformAll(begun, solver, configured, between).0;
    RolesAreIndependent(begun, solver, configured, between, role);
    CallsOfSubset(between, role);
    CallsOfRole(between, role);
    NoBeginKeepsRole(Lookup(begun, role), solver, configured, CallsOf(between, role));
    assert role in after <==> role in begun;
    if role in after {
      var sigma := if HasTable(after[role].native, "sigmas")
        && after[role].index < |FloatsOf(after[role].native, "sigmas").value|
                   then FloatsOf(after[role].native, "sigmas").value[after[role].index] else 0.0;
      var x := Tensor([0], []);
      assert Step(after, role, solver, x, x, Interval(sigma + 1.0, 0.0)).1.Err?;
    } else {
      hide PerformAll, Begin;
      assert Unchecked(after, role, solver);
    }
  }

  lemma {:induction false} CallsOfRole(calls: seq<Call>, role: Role)
    ensures forall call :: call in CallsOf(calls, role) ==> call.role == role
  {
    if calls != [] {
      CallsOfRole(calls[1..], role);
    }
  }

  lemma {:induction false} NoBeginKeepsRole(c: Option<Context>, solver: Solver, configured: Native, calls: seq<Call>)
    requires forall call :: call in calls ==> !call.BeginCall?
    ensures ApplyAll(c, solver, configured, calls).0.Some? == c.Some?
    decreases |calls|
  {
    if calls != [] {
      NoBeginKeepsRole(Apply(c, solver, configured, calls[0]).0, solver, configured, calls[1..]);
    }
  }
}
