/** Every action preserves the campaign invariant. */
module CampaignProof {
  import opened Wrappers
  import opened CampaignDecision
  import opened Campaign
  import opened CampaignInvariant
  import opened CampaignFrames
  import opened CampaignRounds

  /** The invariant is inductive. */
  lemma NextPreserves(c: Config, s: Sys, a: Action, s': Sys)
    requires Inv(c, s) && Next(c, s, a) == Some(s')
    ensures Inv(c, s')
  {
    hide Inv, NextStartup, NextAtRound, NextInRound;
    if s.proc.None? {
      LaunchStep(c, s, a.settings, s');
    } else if a.Crash? {
      CrashStep(c, s, s');
    } else {
      var p := s.proc.value;
      match p.pc
      case Startup(_, _) => StartupPreserves(c, s, p, a, s');
      case AtRound(_) => AtRoundPreserves(c, s, p, a, s');
      case _ => InRoundPreserves(c, s, p, a, s');
    }
  }

  lemma LaunchStep(c: Config, s: Sys, settings: Settings, s': Sys)
    requires Inv(c, s) && s.proc.None? && s' == Launched(c, s, settings)
    ensures Inv(c, s')
  {
    LaunchPreserves(c, s.disk, settings, s.trained);
  }

  lemma CrashStep(c: Config, s: Sys, s': Sys)
    requires Inv(c, s) && s.proc.Some?
    requires s' == s.(proc := None, orphaned := s.orphaned + OrphanedBy(s.proc.value))
    ensures Inv(c, s')
  {
    hide OrderInv, ResumeInv, TrainedInv, ParentInv;
  }

  lemma StartupPreserves(c: Config, s: Sys, p: Proc, a: Action, s': Sys)
    requires Inv(c, s) && s.proc == Some(p) && p.pc.Startup?
    requires NextStartup(c, s, p, a) == Some(s')
    ensures Inv(c, s')
  {
    hide Inv;
    match a
    case MarkIncomplete(r) => MarkStep(c, s, p, r, s');
    case EvaluateParent(e) => EvaluateParentStep(c, s, p, e, s');
    case SaveStart => SaveStartStep(c, s, p, s');
    case _ =>
  }

  lemma MarkStep(c: Config, s: Sys, p: Proc, r: nat, s': Sys)
    requires Inv(c, s) && s.proc == Some(p) && p.pc.Startup?
    requires NextStartup(c, s, p, MarkIncomplete(r)) == Some(s')
    ensures Inv(c, s')
  {
    var d, d' := s.disk, s'.disk;
    MarkPreserves(c, d, s.trained, p, r);
    assert forall i: nat :: i != r ==> Dir(d', i) == Dir(d, i);
    forall k | 0 <= k < |s.path| ensures s.path[k] != r {
      PathIsComplete(c, d, s.path, s.terms, s.path[k]);
    }
    LineageFrame(c, d, d', s.path, s.terms);
    assert forall i: nat :: AcceptedRound(d', i) == AcceptedRound(d, i);
  }

  /** Changing only the state file or the cached evaluation leaves training history and acceptance alone. */
  lemma SameDirsFrame(d: Disk, d': Disk, s: Sys)
    requires d'.rounds == d.rounds && d'.fingerprints == d.fingerprints
    requires TrainedInv(d, s.trained) && AccountingInv(d, s.path, s.orphaned, {})
    ensures TrainedInv(d', s.trained) && AccountingInv(d', s.path, s.orphaned, {})
  {
  }

  lemma BeforeFirstState(c: Config, d: Disk, d': Disk, trained: set<(nat, Fingerprint)>, p: Proc)
    requires OrderInv(d) && ResumeInv(d, trained) && p.pc.Startup? && StartupInv(c, d, p) && d.state.None?
    requires d' == d.(cachedParentEval := d'.cachedParentEval)
    ensures OrderInv(d') && ResumeInv(d', trained)
    ensures StartupInv(c, d', p.(parentEval := d'.cachedParentEval))
  {
    assert forall i: nat ::
             Dir(d', i) == Dir(d, i) && Touched(d', i) == Touched(d, i) && Complete(d', i) == Complete(d, i);
    assert forall i: nat :: Dir(d', i) == EMPTY_ROUND;
  }

  lemma EvaluateParentStep(c: Config, s: Sys, p: Proc, e: Evaluation, s': Sys)
    requires Inv(c, s) && s.proc == Some(p) && p.pc.Startup?
    requires NextStartup(c, s, p, EvaluateParent(e)) == Some(s')
    ensures Inv(c, s')
  {
    var d, d' := s.disk, s'.disk;
    BeforeFirstState(c, d, d', s.trained, p);
    SameDirsFrame(d, d', s);
    hide OrderInv, ResumeInv, TrainedInv, AccountingInv, Link, StartupInv;
  }

  lemma StartParent(c: Config, d: Disk, path: seq<nat>, terms: seq<Terms>, p: Proc, ev: Evaluation, d': Disk)
    requires ParentInv(c, d, path, terms) && p.pc.Startup? && StartupInv(c, d, p) && StartEval(d, p) == Some(ev)
    requires d' == d.(state := d'.state)
    ensures Lineage(c, d', path, terms) && IsParent(c, d', path, p.parentRef, p.parentDigest, ev)
  {
    LineageFrame(c, d, d', path, terms);
  }

  lemma SaveStartStep(c: Config, s: Sys, p: Proc, s': Sys)
    requires Inv(c, s) && s.proc == Some(p) && p.pc.Startup?
    requires NextStartup(c, s, p, SaveStart) == Some(s')
    ensures Inv(c, s')
  {
    var d, d' := s.disk, s'.disk;
    SaveStartPreserves(c, d, s.trained, p, StartEval(d, p).value);
    StartParent(c, d, s.path, s.terms, p, StartEval(d, p).value, d');
    SameDirsFrame(d, d', s);
    hide OrderInv, ResumeInv, TrainedInv, AccountingInv, StartupInv, AtRoundInv, IsParent, Lineage, StartRound;
  }

  lemma AtRoundPreserves(c: Config, s: Sys, p: Proc, a: Action, s': Sys)
    requires Inv(c, s) && s.proc == Some(p) && p.pc.AtRound?
    requires NextAtRound(c, s, p, a) == Some(s')
    ensures Inv(c, s')
  {
    hide Inv;
    match a
    case SkipFailed => SkipFailedPreserves(c, s, p, s');
    case Propose(proposal) => ProposePreserves(c, s, p, proposal, s');
    case Resume => ResumePreserves(c, s, p, s');
    case _ =>
  }

  /** The actions up to the training result. */
  lemma TrainingPhasePreserves(c: Config, s: Sys, p: Proc, a: Action, s': Sys)
    requires Inv(c, s) && s.proc == Some(p) && !p.pc.Startup? && !p.pc.AtRound?
    requires NextInRound(c, s, p, a) == Some(s')
    requires a.SaveProposal? || a.SaveFingerprint? || a.SkipTraining? || a.StartTraining? || a.WriteStepCheckpoint?
             || a.WriteChild?
    ensures Inv(c, s')
  {
    hide Inv, NextInRound;
    match a
    case SaveProposal => SaveProposalPreserves(c, s, p, a, s');
    case SaveFingerprint => SaveFingerprintPreserves(c, s, p, a, s');
    case SkipTraining => SkipTrainingPreserves(c, s, p, a, s');
    case StartTraining => StartTrainingPreserves(c, s, p, a, s');
    case WriteStepCheckpoint => WriteStepCheckpointPreserves(c, s, p, a, s');
    case WriteChild(_) => WriteChildPreserves(c, s, p, a, s');
  }

  /** The actions from the training result to the state file. */
  lemma JudgingPhasePreserves(c: Config, s: Sys, p: Proc, a: Action, s': Sys)
    requires Inv(c, s) && s.proc == Some(p) && !p.pc.Startup? && !p.pc.AtRound?
    requires NextInRound(c, s, p, a) == Some(s')
    requires a.FinishTraining? || a.SkipEvaluation? || a.FinishEvaluation? || a.SaveDecision? || a.SaveState?
    ensures Inv(c, s')
  {
    hide Inv, NextInRound;
    match a
    case FinishTraining(_) => FinishTrainingPreserves(c, s, p, a, s');
    case SkipEvaluation => SkipEvaluationPreserves(c, s, p, a, s');
    case FinishEvaluation(_, _) => FinishEvaluationPreserves(c, s, p, a, s');
    case SaveDecision => SaveDecisionPreserves(c, s, p, a, s');
    case SaveState => SaveStatePreserves(c, s, p, a, s');
  }

  lemma InRoundPreserves(c: Config, s: Sys, p: Proc, a: Action, s': Sys)
    requires Inv(c, s) && s.proc == Some(p) && !p.pc.Startup? && !p.pc.AtRound?
    requires NextInRound(c, s, p, a) == Some(s')
    ensures Inv(c, s')
  {
    hide Inv;
    if a.SaveProposal? || a.SaveFingerprint? || a.SkipTraining? || a.StartTraining? || a.WriteStepCheckpoint?
      || a.WriteChild? {
      TrainingPhasePreserves(c, s, p, a, s');
    } else {
      JudgingPhasePreserves(c, s, p, a, s');
    }
  }
}
