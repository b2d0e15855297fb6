/** The inductive invariant of the campaign machine, one predicate per part of the system state. */
module CampaignInvariant {
  import opened Wrappers
  import opened CampaignDecision
  import opened Campaign

  // ----- What is on disk

  /** A round that no restart will ever touch again. */
  ghost predicate Settled(d: Disk, failed: set<nat>, r: nat) {
    Complete(d, r) || r in failed
  }

  /** Everything a resumed round needs, so that resuming it is never rejected. */
  ghost predicate ResumeReady(d: Disk, trained: set<(nat, Fingerprint)>, r: nat) {
    var dir := Dir(d, r);
    && d.state.Some?
    && r !in d.state.value.failed
    && dir.proposal.Some? && dir.fingerprint.Some? && !dir.fingerprint.value.duplicate
    && dir.evaluation.None? && dir.decision.None?
    && dir.proposal.value.parent == d.state.value.parentDigest
    && (r, dir.fingerprint.value.fingerprint) in trained
  }

  /** Below a touched round everything is settled; above the stored next round nothing is skipped. */
  ghost predicate OrderInv(d: Disk) {
    && (forall i: nat, j: nat :: Touched(d, i) && Touched(d, j) && i < j ==> Settled(d, FailedOnDisk(d), i))
    && (forall i: nat, j: nat :: NextOnDisk(d) <= i < j && Touched(d, j) ==> Touched(d, i))
    && (forall i: nat :: Touched(d, i) ==> d.state.Some?)
    && (forall i: nat :: i in FailedOnDisk(d) ==> Touched(d, i))
    && (forall i: nat :: !Touched(d, i) ==> Dir(d, i) == EMPTY_ROUND)
  }

  ghost predicate ResumeInv(d: Disk, trained: set<(nat, Fingerprint)>) {
    forall i: nat :: Dir(d, i).stepCheckpoint && Dir(d, i).training.None? ==> ResumeReady(d, trained, i)
  }

  ghost predicate TrainedInv(d: Disk, trained: set<(nat, Fingerprint)>) {
    forall r: nat, f: Fingerprint :: (r, f) in trained ==>
      && f in d.fingerprints && d.fingerprints[f] == r
      && Dir(d, r).fingerprint == Some(FingerprintFile(f, false))
  }

  // ----- Lineage

  /** The digest of the parent after the first k promotions of a path. */
  ghost function DigestAt(c: Config, d: Disk, path: seq<nat>, k: nat): Option<Digest>
    requires k <= |path|
  {
    if k == 0 then Some(c.initial) else ChildFile(d, path[k - 1])
  }

  ghost function EvaluationOf(d: Disk, r: nat): Option<Evaluation> {
    match Dir(d, r).evaluation
    case Some(Evaluated(e)) => Some(e)
    case _ => None
  }

  /** The evaluation of the parent after the first k promotions of a path. */
  ghost function EvalAt(d: Disk, path: seq<nat>, k: nat): Option<Evaluation>
    requires k <= |path|
  {
    if k == 0 then d.cachedParentEval else EvaluationOf(d, path[k - 1])
  }

  /** The training of round r succeeded, and a worker that exited normally is bound to child and parent. */
  ghost predicate TrainedFrom(dir: RoundDir, child: Option<Digest>, parent: Digest) {
    && dir.training.Some? && dir.training.value.Succeeded?
    && (dir.training.value.report.exitCode == 0 ==> Bound(dir.training.value.report, child, parent))
  }

  /** Round r is complete and accepted, trained from `parent`, and its child meets the terms against `parentEval`. */
  ghost predicate Link(t: Terms, d: Disk, r: nat, parent: Option<Digest>, parentEval: Option<Evaluation>) {
    && AcceptedRound(d, r)
    && parent.Some? && parentEval.Some? && ChildFile(d, r).Some?
    && TrainedFrom(Dir(d, r), ChildFile(d, r), parent.value)
    && EvaluationOf(d, r).Some?
    && ChildFile(d, r) == Some(EvaluationOf(d, r).value.subject)
    && Meets(t, parentEval.value, EvaluationOf(d, r).value)
  }

  /** The k-th promotion of the path was trained from, and improves on, the parent reached by the first k. */
  ghost predicate LinkAt(c: Config, d: Disk, path: seq<nat>, terms: seq<Terms>, k: nat)
    requires k < |path| == |terms|
  {
    Link(terms[k], d, path[k], DigestAt(c, d, path, k), EvalAt(d, path, k))
  }

  /** Every promotion met the thresholds of the launch that made it. */
  ghost predicate Lineage(c: Config, d: Disk, path: seq<nat>, terms: seq<Terms>) {
    && |terms| == |path|
    && (forall i, j :: 0 <= i < j < |path| ==> path[i] < path[j])
    && (forall k :: 0 <= k < |path| ==> LinkAt(c, d, path, terms, k))
  }

  function RefAt(path: seq<nat>): CheckpointRef {
    if path == [] then Initial else ChildOf(path[|path| - 1])
  }

  /** A stored parent is the end of the path, and its evaluation is the evaluation of that checkpoint. */
  ghost predicate IsParent(c: Config, d: Disk, path: seq<nat>, ref: CheckpointRef, digest: Digest, e: Evaluation) {
    && ref == RefAt(path)
    && Some(digest) == DigestAt(c, d, path, |path|)
    && Some(e) == EvalAt(d, path, |path|)
    && e.subject == digest
  }

  ghost predicate ParentInv(c: Config, d: Disk, path: seq<nat>, terms: seq<Terms>) {
    && Lineage(c, d, path, terms)
    && (d.cachedParentEval.Some? ==> d.cachedParentEval.value.subject == c.initial)
    && (match d.state
        case None => path == []
        case Some(st) => IsParent(c, d, path, st.parentRef, st.parentDigest, st.parentEval))
  }

  /** The round whose accepted decision is on disk while its promotion is not. */
  function Window(s: Sys): set<nat> {
    if s.proc.Some? then OrphanedBy(s.proc.value) else {}
  }

  ghost predicate AccountingInv(d: Disk, path: seq<nat>, orphaned: set<nat>, window: set<nat>) {
    && (forall r: nat :: AcceptedRound(d, r) <==> r in path || r in orphaned || r in window)
    && (forall r: nat :: r in path ==> r !in orphaned && r !in window)
    && (forall r: nat :: r in orphaned ==> r !in window)
  }

  // ----- What the process believes

  ghost predicate ParentMatchesDisk(d: Disk, p: Proc) {
    && d.state.Some?
    && p.parentRef == d.state.value.parentRef
    && p.parentDigest == d.state.value.parentDigest
    && p.parentEval == Some(d.state.value.parentEval)
  }

  ghost predicate StartupInv(c: Config, d: Disk, p: Proc)
    requires p.pc.Startup?
  {
    && FailedOnDisk(d) <= p.failed
    && (forall i: nat :: i in p.failed ==> Touched(d, i) && !LooksResumable(d, i))
    && (forall i: nat :: i in p.pc.todo || i in p.resumable ==> Touched(d, i) && !Complete(d, i) && i !in p.failed)
    && (forall i: nat :: i in p.resumable ==> LooksResumable(d, i))
    && (forall i: nat :: i in p.pc.todo ==> !LooksResumable(d, i))
    && (forall i: nat, j: nat :: (i in p.pc.todo || i in p.resumable) && Touched(d, j) ==> j <= i)
    && (forall i: nat :: Touched(d, i) ==> Settled(d, p.failed, i) || i in p.pc.todo || i in p.resumable)
    && (forall i: nat :: Complete(d, i) ==> i <= p.pc.completeMax || i in p.failed)
    && (if d.state.Some? then ParentMatchesDisk(d, p)
        else p.parentRef == Initial && p.parentDigest == c.initial
             && (p.parentEval.Some? ==> p.parentEval == d.cachedParentEval))
  }

  /** Facts shared by every point of the round loop. `r` is the current round. */
  ghost predicate LoopInv(d: Disk, p: Proc, r: nat) {
    && ParentMatchesDisk(d, p)
    && d.state.value.nextRound <= r
    && (forall i: nat :: d.state.value.nextRound <= i < r ==> Touched(d, i))
    && (forall i: nat :: Touched(d, i) && i < r ==>
          Settled(d, p.failed, i) && Settled(d, p.memFailed, i) && Settled(d, d.state.value.failed, i))
    && (forall i: nat :: i in p.failed || i in p.memFailed || i in p.resumable ==> Touched(d, i))
    && (forall i: nat :: i in p.failed || i in p.memFailed ==> !LooksResumable(d, i))
    && p.resumable !! p.failed
  }

  ghost predicate AtRoundInv(d: Disk, p: Proc)
    requires p.pc.AtRound?
  {
    var r := p.pc.round;
    && LoopInv(d, p, r)
    && (forall i: nat :: Touched(d, i) && i >= r ==>
          || (i in p.failed && i in p.memFailed && i in FailedOnDisk(d))
          || (i == r && i in p.resumable))
    && (r in p.resumable ==> LooksResumable(d, r) && forall i: nat :: Touched(d, i) ==> i <= r)
  }

  ghost predicate JudgedInv(d: Disk, p: Proc, r: nat, o: Outcome) {
    o.Judged? ==>
      && EvaluationOf(d, r) == Some(o.evaluation)
      && (o.decision.accepted ==>
            && p.parentEval.Some?
            && Meets(Terms(p.settings.thresholds, o.gate), p.parentEval.value, o.evaluation)
            && ChildFile(d, r) == Some(o.evaluation.subject)
            && TrainedFrom(Dir(d, r), ChildFile(d, r), p.parentDigest))
  }

  /** The proposal and the fingerprint the process holds belong to the parent it trains from. */
  ghost predicate Registered(c: Config, d: Disk, p: Proc, r: nat, proposal: Proposal, f: Fingerprint, dup: bool) {
    && proposal.parent == p.parentDigest && f == c.fingerprintOf(proposal, p.parentDigest, p.settings.identity)
    && f in d.fingerprints && (!dup ==> d.fingerprints[f] == r)
  }

  predicate NoResults(dir: RoundDir) {
    dir.training.None? && dir.evaluation.None? && dir.decision.None?
  }

  /** The round being worked on: the highest one touched, never marked failed. */
  ghost predicate Current(d: Disk, p: Proc, r: nat) {
    && LoopInv(d, p, r)
    && (forall i: nat :: Touched(d, i) ==> i <= r)
    && r !in d.state.value.failed && r !in p.failed && r !in p.memFailed
  }

  ghost predicate InRoundInv(c: Config, d: Disk, trained: set<(nat, Fingerprint)>, p: Proc)
    requires !p.pc.Startup? && !p.pc.AtRound?
  {
    Current(d, p, p.pc.round) && PointInv(c, d, trained, p, Dir(d, p.pc.round))
  }

  /** What is in the current round directory at each point of a round. */
  ghost predicate PointInv(c: Config, d: Disk, trained: set<(nat, Fingerprint)>, p: Proc, dir: RoundDir)
    requires !p.pc.Startup? && !p.pc.AtRound?
  {
    var r := p.pc.round;
    match p.pc
    case SavingProposal(_, proposal, f, dup) =>
      && Registered(c, d, p, r, proposal, f, dup)
      && (dir == EMPTY_ROUND
          || (!dup && dir.stepCheckpoint && dir.training.None? && dir.proposal == Some(proposal)
              && dir.fingerprint == Some(FingerprintFile(f, false))))
    case SavingFingerprint(_, proposal, f, dup) =>
      && Registered(c, d, p, r, proposal, f, dup)
      && dir.proposal == Some(proposal) && NoResults(dir)
      && (if dir.stepCheckpoint then !dup && dir.fingerprint == Some(FingerprintFile(f, false))
          else dir.fingerprint.None?)
    case SkippingTraining(_) =>
      && dir.proposal.Some? && NoResults(dir) && !dir.stepCheckpoint
      && dir.fingerprint.Some? && dir.fingerprint.value.duplicate
    case ReadyToTrain(_, f) =>
      && dir.proposal.Some? && NoResults(dir)
      && Registered(c, d, p, r, dir.proposal.value, f, false)
      && dir.fingerprint == Some(FingerprintFile(f, false))
    case TrainingRound(_, f) =>
      && dir.proposal.Some? && NoResults(dir)
      && Registered(c, d, p, r, dir.proposal.value, f, false)
      && dir.fingerprint == Some(FingerprintFile(f, false))
      && (r, f) in trained
    case SkippingEvaluation(_, o) =>
      dir.proposal.Some? && dir.training.Some? && dir.evaluation.None? && dir.decision.None? && !o.Judged?
    case Evaluating(_) =>
      && dir.proposal.Some? && dir.evaluation.None? && dir.decision.None?
      && TrainedFrom(dir, ChildFile(d, r), p.parentDigest)
    case Deciding(_, o) =>
      && dir.proposal.Some? && dir.training.Some? && dir.evaluation.Some? && dir.decision.None?
      && JudgedInv(d, p, r, o)
    case SavingState(_, o) =>
      && Complete(d, r) && dir.decision == Some(DecisionOf(o))
      && JudgedInv(d, p, r, o)
  }

  ghost predicate ProcInv(c: Config, d: Disk, trained: set<(nat, Fingerprint)>, proc: Option<Proc>) {
    match proc
    case None => true
    case Some(p) =>
      match p.pc
      case Startup(_, _) => StartupInv(c, d, p)
      case AtRound(_) => AtRoundInv(d, p)
      case _ => InRoundInv(c, d, trained, p)
  }

  ghost predicate DiskInv(c: Config, d: Disk, trained: set<(nat, Fingerprint)>, path: seq<nat>,
                          terms: seq<Terms>) {
    OrderInv(d) && ResumeInv(d, trained) && TrainedInv(d, trained) && ParentInv(c, d, path, terms)
  }

  ghost predicate Inv(c: Config, s: Sys) {
    && DiskInv(c, s.disk, s.trained, s.path, s.terms)
    && AccountingInv(s.disk, s.path, s.orphaned, Window(s))
    && ProcInv(c, s.disk, s.trained, s.proc)
  }
}
