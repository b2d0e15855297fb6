/**
 The Wan campaign as a durable state machine. Every durable write of `run_campaign` is one action,
 the process may die between any two of them, and a new process starts from what is on disk.
 */
module Campaign {
  import opened Wrappers
  import opened CampaignDecision

  type Fingerprint = nat

  datatype Proposal = Proposal(recipe: nat, parent: Digest)

  datatype CheckpointRef = Initial | ChildOf(round: nat)

  datatype EvaluationFile = EvaluationSkipped | Evaluated(evaluation: Evaluation)

  datatype FingerprintFile = FingerprintFile(fingerprint: Fingerprint, duplicate: bool)

  /** The artifacts of one round directory. */
  datatype RoundDir = RoundDir(
    proposal: Option<Proposal>,
    fingerprint: Option<FingerprintFile>,
    stepCheckpoint: bool,
    training: Option<Training>,
    evaluation: Option<EvaluationFile>,
    decision: Option<Decision>)

  const EMPTY_ROUND := RoundDir(None, None, false, None, None, None)

  /** campaign-state.json */
  datatype State = State(
    nextRound: nat,
    failed: set<nat>,
    parentRef: CheckpointRef,
    parentDigest: Digest,
    parentEval: Evaluation)

  datatype Disk = Disk(
    rounds: map<nat, RoundDir>,
    childFiles: map<nat, Digest>,
    state: Option<State>,
    cachedParentEval: Option<Evaluation>,
    fingerprints: map<Fingerprint, nat>)

  /** The part of a loop configuration that enters a fingerprint, such as the device and the evaluator. */
  type Identity = nat

  /** What the operator may edit between two launches. */
  datatype Settings = Settings(identity: Identity, thresholds: Thresholds)

  /** What a campaign root is bound to for good. */
  datatype Config = Config(
    initial: Digest,
    fingerprintOf: (Proposal, Digest, Identity) -> Fingerprint)

  /** How a round ends. */
  datatype Outcome = Duplicate | TrainingFailure | Judged(evaluation: Evaluation, decision: Decision,
                                                          gate: Option<CorrectnessGate>)

  /** The position of the process between two durable writes. */
  datatype Pc =
    | Startup(todo: set<nat>, completeMax: nat)
    | AtRound(round: nat)
    | SavingProposal(round: nat, proposal: Proposal, fingerprint: Fingerprint, duplicate: bool)
    | SavingFingerprint(round: nat, proposal: Proposal, fingerprint: Fingerprint, duplicate: bool)
    | SkippingTraining(round: nat)
    | ReadyToTrain(round: nat, fingerprint: Fingerprint)
    | TrainingRound(round: nat, fingerprint: Fingerprint)
    | SkippingEvaluation(round: nat, outcome: Outcome)
    | Evaluating(round: nat)
    | Deciding(round: nat, outcome: Outcome)
    | SavingState(round: nat, outcome: Outcome)

  /** The volatile part of the process; `memFailed` is the failed list of the in-memory state dictionary. */
  datatype Proc = Proc(
    pc: Pc,
    failed: set<nat>,
    resumable: set<nat>,
    memFailed: set<nat>,
    parentRef: CheckpointRef,
    parentDigest: Digest,
    parentEval: Option<Evaluation>,
    settings: Settings)

  /**
   A disk, perhaps a process, and history variables: for which fingerprints a worker was started in which round,
   the rounds whose children became the parent with the terms they met, the accepted rounds a crash has
   orphaned, and the identities of all launches.
   */
  datatype Sys = Sys(
    disk: Disk,
    proc: Option<Proc>,
    trained: set<(nat, Fingerprint)>,
    path: seq<nat>,
    terms: seq<Terms>,
    orphaned: set<nat>,
    identities: set<Identity>)

  datatype Action =
    | Launch(settings: Settings)
    | MarkIncomplete(round: nat)
    | EvaluateParent(evaluation: Evaluation)
    | SaveStart
    | SkipFailed
    | Propose(proposal: Proposal)
    | Resume
    | SaveProposal
    | SaveFingerprint
    | SkipTraining
    | StartTraining
    | WriteStepCheckpoint
    | WriteChild(child: Digest)
    | FinishTraining(report: Option<WorkerReport>)
    | SkipEvaluation
    | FinishEvaluation(result: Evaluation, gate: Option<CorrectnessGate>)
    | SaveDecision
    | SaveState
    | Crash

  // ----- Reading the disk

  function Dir(d: Disk, r: nat): RoundDir {
    if r in d.rounds then d.rounds[r] else EMPTY_ROUND
  }

  predicate Touched(d: Disk, r: nat) {
    var dir := Dir(d, r);
    dir.proposal.Some? || dir.training.Some? || dir.evaluation.Some? || dir.decision.Some?
  }

  predicate Complete(d: Disk, r: nat) {
    var dir := Dir(d, r);
    dir.proposal.Some? && dir.training.Some? && dir.evaluation.Some? && dir.decision.Some?
  }

  predicate AcceptedRound(d: Disk, r: nat) {
    Complete(d, r) && Dir(d, r).decision.value.accepted
  }

  function FailedOnDisk(d: Disk): set<nat> {
    if d.state.Some? then d.state.value.failed else {}
  }

  function NextOnDisk(d: Disk): nat {
    if d.state.Some? then d.state.value.nextRound else 1
  }

  function ChildFile(d: Disk, r: nat): Option<Digest> {
    if r in d.childFiles then Some(d.childFiles[r]) else None
  }

  function FileDigest(c: Config, d: Disk, ref: CheckpointRef): Option<Digest> {
    match ref
    case Initial => Some(c.initial)
    case ChildOf(r) => ChildFile(d, r)
  }

  ghost function MaxOf(s: set<nat>): (m: nat)
    ensures forall x :: x in s ==> x <= m
    ensures m == 0 || m in s
  {
    if s == {} then 0
    else
      var x :| x in s;
      var rest := MaxOf(s - {x});
      assert forall y :: y in s ==> y == x || y in s - {x};
      if x > rest then x else rest
  }

  ghost function MinOf(s: set<nat>): (m: nat)
    requires s != {}
    ensures m in s
    ensures forall x :: x in s ==> m <= x
  {
    var x :| x in s;
    assert forall y :: y in s ==> y == x || y in s - {x};
    if s - {x} == {} then x
    else
      var rest := MinOf(s - {x});
      if x < rest then x else rest
  }

  predicate Interrupted(d: Disk, r: nat) {
    Touched(d, r) && !Complete(d, r)
  }

  predicate LooksResumable(d: Disk, r: nat) {
    Dir(d, r).proposal.Some? && Dir(d, r).training.None? && Dir(d, r).stepCheckpoint
  }

  function CompleteRounds(d: Disk): set<nat> {
    set r | r in d.rounds && Complete(d, r)
  }

  function InterruptedRounds(d: Disk): set<nat> {
    set r | r in d.rounds && Interrupted(d, r)
  }

  function WithDir(d: Disk, r: nat, dir: RoundDir): Disk {
    d.(rounds := d.rounds[r := dir])
  }

  // ----- The actions

  const INCOMPLETE := Decision(false, IncompleteRound)

  /** A new process reads the rounds and the state; nothing is written yet. */
  ghost function Start(c: Config, d: Disk, settings: Settings): Proc {
    var failed := FailedOnDisk(d);
    var open := InterruptedRounds(d) - failed;
    var resumable := set r | r in open && LooksResumable(d, r);
    Proc(Startup(open - resumable, MaxOf(CompleteRounds(d))), failed, resumable, failed,
         if d.state.Some? then d.state.value.parentRef else Initial,
         if d.state.Some? then d.state.value.parentDigest else c.initial,
         if d.state.Some? then Some(d.state.value.parentEval) else None,
         settings)
  }

  ghost function StartRound(d: Disk, p: Proc): nat
    requires p.pc.Startup?
  {
    if p.resumable != {} then MinOf(p.resumable)
    else if NextOnDisk(d) > p.pc.completeMax then NextOnDisk(d) else p.pc.completeMax + 1
  }

  function StartEval(d: Disk, p: Proc): Option<Evaluation> {
    if p.parentEval.Some? then p.parentEval else d.cachedParentEval
  }

  function DecisionOf(o: Outcome): Decision {
    match o
    case Duplicate => Decision(false, DuplicateFingerprint)
    case TrainingFailure => Decision(false, TrainingFailed)
    case Judged(_, d, _) => d
  }

  function At(s: Sys, p: Proc, pc: Pc): Sys {
    s.(proc := Some(p.(pc := pc)))
  }

  function Put(s: Sys, p: Proc, r: nat, dir: RoundDir, pc: Pc): Sys {
    s.(disk := WithDir(s.disk, r, dir), proc := Some(p.(pc := pc)))
  }

  /** The state file written when a round has ended, and the parent the process continues with. */
  function EndRound(s: Sys, p: Proc, r: nat, o: Outcome): Sys
    requires p.parentEval.Some?
    requires o.Judged? && o.decision.accepted ==> r in s.disk.childFiles
  {
    var failed := match o
      case Duplicate => p.failed
      case TrainingFailure => p.memFailed + {r}
      case Judged(_, _, _) => p.memFailed;
    var promoted := o.Judged? && o.decision.accepted;
    var ref := if promoted then ChildOf(r) else p.parentRef;
    var digest := if promoted then s.disk.childFiles[r] else p.parentDigest;
    var ev := if promoted then o.evaluation else p.parentEval.value;
    s.(disk := s.disk.(state := Some(State(r + 1, failed, ref, digest, ev))),
       proc := Some(Proc(AtRound(r + 1), p.failed, p.resumable, failed, ref, digest, Some(ev), p.settings)),
       path := if promoted then s.path + [r] else s.path,
       terms := if promoted then s.terms + [Terms(p.settings.thresholds, o.gate)] else s.terms)
  }

  /** The orphans a crash at this point creates: an accepted decision is on disk, the new parent is not. */
  function OrphanedBy(p: Proc): set<nat> {
    if p.pc.SavingState? && p.pc.outcome.Judged? && p.pc.outcome.decision.accepted then {p.pc.round} else {}
  }

  ghost function Launched(c: Config, s: Sys, settings: Settings): Sys {
    s.(proc := Some(Start(c, s.disk, settings)), identities := s.identities + {settings.identity})
  }

  /** One action of the machine; None when the source would raise or the action does not apply. */
  ghost function Next(c: Config, s: Sys, a: Action): Option<Sys> {
    if s.proc.None? then
      if a.Launch? then Some(Launched(c, s, a.settings)) else None
    else if a.Crash? then Some(s.(proc := None, orphaned := s.orphaned + OrphanedBy(s.proc.value)))
    else
      var p := s.proc.value;
      match p.pc
      case Startup(_, _) => NextStartup(c, s, p, a)
      case AtRound(_) => NextAtRound(c, s, p, a)
      case _ => NextInRound(c, s, p, a)
  }

  ghost function NextStartup(c: Config, s: Sys, p: Proc, a: Action): Option<Sys>
    requires p.pc.Startup?
  {
    match a
    case MarkIncomplete(r) =>
      if r !in p.pc.todo then None
      else Some(s.(disk := WithDir(s.disk, r, Dir(s.disk, r).(decision := Some(INCOMPLETE))),
                   proc := Some(p.(failed := p.failed + {r}, pc := p.pc.(todo := p.pc.todo - {r})))))
    case EvaluateParent(e) =>
      if p.pc.todo == {} && StartEval(s.disk, p).None? && e.subject == p.parentDigest then
        Some(s.(disk := s.disk.(cachedParentEval := Some(e)), proc := Some(p.(parentEval := Some(e)))))
      else None
    case SaveStart =>
      if p.pc.todo == {} && StartEval(s.disk, p).Some?
        && FileDigest(c, s.disk, p.parentRef) == Some(p.parentDigest) then
        var ev := StartEval(s.disk, p).value;
        var r := StartRound(s.disk, p);
        Some(s.(disk := s.disk.(state := Some(State(r, p.failed, p.parentRef, p.parentDigest, ev))),
                proc := Some(p.(pc := AtRound(r), memFailed := p.failed, parentEval := Some(ev)))))
      else None
    case _ => None
  }

  function NextAtRound(c: Config, s: Sys, p: Proc, a: Action): Option<Sys>
    requires p.pc.AtRound?
  {
    var r := p.pc.round;
    match a
    case SkipFailed =>
      if r in p.failed && r !in p.resumable then Some(At(s, p, AtRound(r + 1))) else None
    case Propose(proposal) =>
      if r in p.failed || r in p.resumable || proposal.parent != p.parentDigest then None
      else
        var f := c.fingerprintOf(proposal, p.parentDigest, p.settings.identity);
        var duplicate := f in s.disk.fingerprints;
        var s1 := if duplicate then s else s.(disk := s.disk.(fingerprints := s.disk.fingerprints[f := r]));
        Some(At(s1, p, SavingProposal(r, proposal, f, duplicate)))
    case Resume =>
      if r !in p.resumable || Dir(s.disk, r).proposal.None? then None
      else
        var proposal := Dir(s.disk, r).proposal.value;
        var f := c.fingerprintOf(proposal, p.parentDigest, p.settings.identity);
        var stored := Dir(s.disk, r).fingerprint;
        if proposal.parent != p.parentDigest || (stored.Some? && stored.value.fingerprint != f) then None
        else Some(At(s, p, SavingProposal(r, proposal, f, false)))
    case _ => None
  }

  function NextInRound(c: Config, s: Sys, p: Proc, a: Action): Option<Sys>
    requires !p.pc.Startup? && !p.pc.AtRound?
  {
    var r := p.pc.round;
    var dir := Dir(s.disk, r);
    match a
    case SaveProposal =>
      if !p.pc.SavingProposal? then None
      else Some(Put(s, p, r, dir.(proposal := Some(p.pc.proposal)),
                    SavingFingerprint(r, p.pc.proposal, p.pc.fingerprint, p.pc.duplicate)))
    case SaveFingerprint =>
      if !p.pc.SavingFingerprint? then None
      else
        var f := p.pc.fingerprint;
        var saved := dir.(fingerprint := Some(FingerprintFile(f, p.pc.duplicate)));
        if p.pc.duplicate then Some(Put(s, p, r, saved, SkippingTraining(r)))
        else Some(Put(s, p, r, saved, ReadyToTrain(r, f)))
    case SkipTraining =>
      if !p.pc.SkippingTraining? then None
      else Some(Put(s, p, r, dir.(training := Some(Skipped)), SkippingEvaluation(r, Duplicate)))
    case StartTraining =>
      if !p.pc.ReadyToTrain? then None
      else Some(At(s, p, TrainingRound(r, p.pc.fingerprint)).(trained := s.trained + {(r, p.pc.fingerprint)}))
    case WriteStepCheckpoint =>
      if !p.pc.TrainingRound? then None
      else Some(Put(s, p, r, dir.(stepCheckpoint := true), p.pc))
    case WriteChild(child) =>
      if !p.pc.TrainingRound? then None
      else Some(s.(disk := s.disk.(childFiles := s.disk.childFiles[r := child])))
    case FinishTraining(report) =>
      if !p.pc.TrainingRound? then None
      else
        var t := BindTraining(report, ChildFile(s.disk, r), p.parentDigest);
        Some(Put(s, p, r, dir.(training := Some(t)),
                 if t.Succeeded? then Evaluating(r) else SkippingEvaluation(r, TrainingFailure)))
    case SkipEvaluation =>
      if !p.pc.SkippingEvaluation? then None
      else Some(Put(s, p, r, dir.(evaluation := Some(EvaluationSkipped)), Deciding(r, p.pc.outcome)))
    case FinishEvaluation(e, gate) =>
      if !p.pc.Evaluating? || p.parentEval.None? || (e.success && ChildFile(s.disk, r) != Some(e.subject)) then None
      else
        var decision := Judge(p.settings.thresholds, p.parentEval.value, e, gate);
        Some(Put(s, p, r, dir.(evaluation := Some(Evaluated(e))), Deciding(r, Judged(e, decision, gate))))
    case SaveDecision =>
      if !p.pc.Deciding? then None
      else Some(Put(s, p, r, dir.(decision := Some(DecisionOf(p.pc.outcome))), SavingState(r, p.pc.outcome)))
    case SaveState =>
      if !p.pc.SavingState? || p.parentEval.None?
         || (p.pc.outcome.Judged? && p.pc.outcome.decision.accepted && r !in s.disk.childFiles) then None
      else Some(EndRound(s, p, r, p.pc.outcome))
    case _ => None
  }

  // ----- Runs

  const EMPTY_DISK := Disk(map[], map[], None, None, map[])
  const INIT := Sys(EMPTY_DISK, None, {}, [], [], {}, {})

  /** A run: any number of launches, each with settings of its own, of writes and of crashes, from an empty root. */
  ghost predicate Run(c: Config, trace: seq<Sys>, actions: seq<Action>) {
    && |trace| == |actions| + 1
    && trace[0] == INIT
    && forall k :: 0 <= k < |actions| ==> Next(c, trace[k], actions[k]) == Some(trace[k + 1])
  }
}
