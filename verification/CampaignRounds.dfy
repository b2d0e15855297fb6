/** Every durable write of a round preserves the campaign invariant. */
module CampaignRounds {
  import opened Wrappers
  import opened CampaignDecision
  import opened Campaign
  import opened CampaignInvariant
  import opened CampaignFrames

  lemma SaveProposalPreserves(c: Config, s: Sys, p: Proc, a: Action, s': Sys)
    requires Inv(c, s) && s.proc == Some(p) && !p.pc.Startup? && !p.pc.AtRound?
    requires a.SaveProposal? && NextInRound(c, s, p, a) == Some(s')
    ensures Inv(c, s')
  {
    var r := p.pc.round;
    var dir := Dir(s.disk, r);
    assert Current(s.disk, p, r) && PointInv(c, s.disk, s.trained, p, dir);
    if dir.stepCheckpoint { assert ResumeReady(s.disk, s.trained, r); }
    PutStep(c, s, s.trained, p, r, dir.(proposal := Some(p.pc.proposal)), s'.proc.value.pc);
  }

  lemma SaveFingerprintPreserves(c: Config, s: Sys, p: Proc, a: Action, s': Sys)
    requires Inv(c, s) && s.proc == Some(p) && !p.pc.Startup? && !p.pc.AtRound?
    requires a.SaveFingerprint? && NextInRound(c, s, p, a) == Some(s')
    ensures Inv(c, s')
  {
    hide Bound, TrainedFrom;
    var r := p.pc.round;
    var dir := Dir(s.disk, r);
    assert Current(s.disk, p, r) && PointInv(c, s.disk, s.trained, p, dir);
    if dir.stepCheckpoint { assert ResumeReady(s.disk, s.trained, r); }
    PutStep(c, s, s.trained, p, r, dir.(fingerprint := Some(FingerprintFile(p.pc.fingerprint, p.pc.duplicate))),
            s'.proc.value.pc);
  }

  lemma SkipTrainingPreserves(c: Config, s: Sys, p: Proc, a: Action, s': Sys)
    requires Inv(c, s) && s.proc == Some(p) && !p.pc.Startup? && !p.pc.AtRound?
    requires a.SkipTraining? && NextInRound(c, s, p, a) == Some(s')
    ensures Inv(c, s')
  {
    var r := p.pc.round;
    assert Current(s.disk, p, r) && PointInv(c, s.disk, s.trained, p, Dir(s.disk, r));
    PutStep(c, s, s.trained, p, r, Dir(s.disk, r).(training := Some(Skipped)), s'.proc.value.pc);
  }

  /** Starting the worker changes nothing but the training history. */
  lemma StartTrainingPreserves(c: Config, s: Sys, p: Proc, a: Action, s': Sys)
    requires Inv(c, s) && s.proc == Some(p) && !p.pc.Startup? && !p.pc.AtRound?
    requires a.StartTraining? && NextInRound(c, s, p, a) == Some(s')
    ensures Inv(c, s')
  {
    var r, d := p.pc.round, s.disk;
    assert Current(d, p, r) && PointInv(c, d, s.trained, p, Dir(d, r));
    forall i: nat | Dir(d, i).stepCheckpoint && Dir(d, i).training.None? ensures ResumeReady(d, s'.trained, i) {
      assert ResumeReady(d, s.trained, i);
    }
    assert Current(d, s'.proc.value, r);
  }

  lemma WriteStepCheckpointPreserves(c: Config, s: Sys, p: Proc, a: Action, s': Sys)
    requires Inv(c, s) && s.proc == Some(p) && !p.pc.Startup? && !p.pc.AtRound?
    requires a.WriteStepCheckpoint? && NextInRound(c, s, p, a) == Some(s')
    ensures Inv(c, s')
  {
    var r := p.pc.round;
    assert Current(s.disk, p, r) && PointInv(c, s.disk, s.trained, p, Dir(s.disk, r));
    PutStep(c, s, s.trained, p, r, Dir(s.disk, r).(stepCheckpoint := true), p.pc);
  }

  lemma WriteChildPreserves(c: Config, s: Sys, p: Proc, a: Action, s': Sys)
    requires Inv(c, s) && s.proc == Some(p) && !p.pc.Startup? && !p.pc.AtRound?
    requires a.WriteChild? && NextInRound(c, s, p, a) == Some(s')
    ensures Inv(c, s')
  {
    var r, d, d' := p.pc.round, s.disk, s'.disk;
    SameRoundsKeepOrder(d, d', s.trained);
    SameRoundsKeepCurrent(d, d', p, r);
    forall k | 0 <= k < |s.path| ensures s.path[k] != r {
      PathIsComplete(c, d, s.path, s.terms, s.path[k]);
    }
    LineageFrame(c, d, d', s.path, s.terms);
    assert PointInv(c, d', s.trained, p, Dir(d', r));
  }

  lemma TrainingSplit(report: Option<WorkerReport>, dir: RoundDir, child: Option<Digest>, parent: Digest)
    ensures var t := BindTraining(report, child, parent);
            t.Succeeded? ==> TrainedFrom(dir.(training := Some(t)), child, parent)
  {
  }

  lemma FinishTrainingPreserves(c: Config, s: Sys, p: Proc, a: Action, s': Sys)
    requires Inv(c, s) && s.proc == Some(p) && !p.pc.Startup? && !p.pc.AtRound?
    requires a.FinishTraining? && NextInRound(c, s, p, a) == Some(s')
    ensures Inv(c, s')
  {
    var r := p.pc.round;
    var dir := Dir(s.disk, r);
    TrainingSplit(a.report, dir, ChildFile(s.disk, r), p.parentDigest);
    var t := BindTraining(a.report, ChildFile(s.disk, r), p.parentDigest);
    PutStep(c, s, s.trained, p, r, dir.(training := Some(t)), s'.proc.value.pc);
  }

  lemma SkipEvaluationPreserves(c: Config, s: Sys, p: Proc, a: Action, s': Sys)
    requires Inv(c, s) && s.proc == Some(p) && !p.pc.Startup? && !p.pc.AtRound?
    requires a.SkipEvaluation? && NextInRound(c, s, p, a) == Some(s')
    ensures Inv(c, s')
  {
    var r := p.pc.round;
    assert Current(s.disk, p, r) && PointInv(c, s.disk, s.trained, p, Dir(s.disk, r));
    PutStep(c, s, s.trained, p, r, Dir(s.disk, r).(evaluation := Some(EvaluationSkipped)), s'.proc.value.pc);
  }

  lemma FinishEvaluationPreserves(c: Config, s: Sys, p: Proc, a: Action, s': Sys)
    requires Inv(c, s) && s.proc == Some(p) && !p.pc.Startup? && !p.pc.AtRound?
    requires a.FinishEvaluation? && NextInRound(c, s, p, a) == Some(s')
    ensures Inv(c, s')
  {
    hide Judge, Bound;
    var r := p.pc.round;
    assert Current(s.disk, p, r) && PointInv(c, s.disk, s.trained, p, Dir(s.disk, r));
    PutStep(c, s, s.trained, p, r, Dir(s.disk, r).(evaluation := Some(Evaluated(a.result))), s'.proc.value.pc);
  }

  /** A decision makes its own round accepted, or leaves the accepted rounds as they were. */
  lemma DecidingAccounts(d: Disk, d': Disk, r: nat, dir: RoundDir, path: seq<nat>, orphaned: set<nat>)
    requires d' == WithDir(d, r, dir) && dir.decision.Some? && Complete(d', r) && !Complete(d, r)
    requires AccountingInv(d, path, orphaned, {})
    ensures AccountingInv(d', path, orphaned, if dir.decision.value.accepted then {r} else {})
  {
    assert forall i: nat :: i != r ==> AcceptedRound(d', i) == AcceptedRound(d, i);
  }

  /** The decision changes nothing that the point before it knew about the round. */
  lemma DecidingPoint(c: Config, d: Disk, d': Disk, trained: set<(nat, Fingerprint)>, p: Proc, r: nat, o: Outcome,
                      dir: RoundDir)
    requires p.pc == Deciding(r, o) && PointInv(c, d, trained, p, Dir(d, r))
    requires dir == Dir(d, r).(decision := Some(DecisionOf(o))) && d' == WithDir(d, r, dir)
    ensures !Complete(d, r) && Complete(d', r)
    ensures PointInv(c, d', trained, p.(pc := SavingState(r, o)), Dir(d', r))
  {
    hide Meets, Bound;
  }

  lemma SaveDecisionPreserves(c: Config, s: Sys, p: Proc, a: Action, s': Sys)
    requires Inv(c, s) && s.proc == Some(p) && !p.pc.Startup? && !p.pc.AtRound?
    requires a.SaveDecision? && NextInRound(c, s, p, a) == Some(s')
    ensures Inv(c, s')
  {
    hide Meets, Bound;
    var r, o, d, d' := p.pc.round, p.pc.outcome, s.disk, s'.disk;
    var dir := Dir(d, r).(decision := Some(DecisionOf(o)));
    PutPreserves(c, d, s.trained, s.trained, s.path, s.terms, p, r, dir);
    DecidingPoint(c, d, d', s.trained, p, r, o, dir);
    DecidingAccounts(d, d', r, dir, s.path, s.orphaned);
    hide OrderInv, ResumeInv, TrainedInv, ParentInv, PointInv, AccountingInv, Complete;
    assert Current(d', s'.proc.value, r);
  }

  /** When the highest round is complete, no round waits to be resumed. */
  lemma NoneResumableBelow(d: Disk, trained: set<(nat, Fingerprint)>, r: nat)
    requires OrderInv(d) && ResumeInv(d, trained) && Complete(d, r)
    requires forall i: nat :: Touched(d, i) ==> i <= r
    ensures forall i: nat :: !(Dir(d, i).stepCheckpoint && Dir(d, i).training.None?)
  {
    forall i: nat ensures !(Dir(d, i).stepCheckpoint && Dir(d, i).training.None?) {
      if Dir(d, i).stepCheckpoint && Dir(d, i).training.None? {
        assert ResumeReady(d, trained, i);
        assert Touched(d, i) && Touched(d, r);
        assert false;
      }
    }
  }

  /** The state file moves on: the finished round is complete, so nothing below the next round is open. */
  lemma SaveStateKeepsRounds(d: Disk, trained: set<(nat, Fingerprint)>, p: Proc, p': Proc, r: nat, st: State)
    requires OrderInv(d) && ResumeInv(d, trained) && Current(d, p, r) && Complete(d, r)
    requires st.nextRound == r + 1
    requires st.failed == p.failed || st.failed == p.memFailed || st.failed == p.memFailed + {r}
    requires p' == Proc(AtRound(r + 1), p.failed, p.resumable, st.failed, st.parentRef, st.parentDigest,
                        Some(st.parentEval), p.settings)
    ensures OrderInv(d.(state := Some(st))) && ResumeInv(d.(state := Some(st)), trained)
    ensures AtRoundInv(d.(state := Some(st)), p')
  {
    var d' := d.(state := Some(st));
    assert forall i: nat ::
             Dir(d', i) == Dir(d, i) && Touched(d', i) == Touched(d, i) && Complete(d', i) == Complete(d, i);
    NoneResumableBelow(d, trained, r);
  }

  lemma LineageExtend(c: Config, d: Disk, path: seq<nat>, terms: seq<Terms>, r: nat, t: Terms)
    requires Lineage(c, d, path, terms)
    requires forall k :: 0 <= k < |path| ==> path[k] < r
    requires Link(t, d, r, DigestAt(c, d, path, |path|), EvalAt(d, path, |path|))
    ensures Lineage(c, d, path + [r], terms + [t])
  {
    var path', terms' := path + [r], terms + [t];
    forall k | 0 <= k < |path'|
      ensures LinkAt(c, d, path', terms', k)
    {
      if k < |path| {
        assert LinkAt(c, d, path, terms, k);
      }
    }
  }

  lemma PromotionIsLink(d: Disk, p: Proc, r: nat, o: Outcome)
    requires Complete(d, r) && p.parentEval.Some?
    requires JudgedInv(d, p, r, o) && Dir(d, r).decision == Some(DecisionOf(o))
    requires o.Judged? && o.decision.accepted
    ensures Link(Terms(p.settings.thresholds, o.gate), d, r, Some(p.parentDigest), p.parentEval)
  {
    hide Meets, Bound;
  }

  lemma PathIsBelow(c: Config, d: Disk, path: seq<nat>, terms: seq<Terms>, r: nat)
    requires Lineage(c, d, path, terms) && r !in path
    requires forall i: nat :: Touched(d, i) ==> i <= r
    ensures forall k :: 0 <= k < |path| ==> path[k] < r
  {
    hide Lineage;
    forall k | 0 <= k < |path| ensures path[k] < r {
      PathIsComplete(c, d, path, terms, path[k]);
      assert path[k] in path && Touched(d, path[k]);
    }
  }

  lemma PromotionKeepsParent(c: Config, d: Disk, path: seq<nat>, terms: seq<Terms>, p: Proc, r: nat, o: Outcome)
    requires ParentInv(c, d, path, terms) && ParentMatchesDisk(d, p) && Complete(d, r)
    requires forall k :: 0 <= k < |path| ==> path[k] < r
    requires JudgedInv(d, p, r, o) && Dir(d, r).decision == Some(DecisionOf(o))
    requires o.Judged? && o.decision.accepted
    ensures Lineage(c, d, path + [r], terms + [Terms(p.settings.thresholds, o.gate)])
    ensures IsParent(c, d, path + [r], ChildOf(r), d.childFiles[r], o.evaluation)
  {
    PromotionIsLink(d, p, r, o);
    assert Lineage(c, d, path + [r], terms + [Terms(p.settings.thresholds, o.gate)]) by {
      hide Link;
      LineageExtend(c, d, path, terms, r, Terms(p.settings.thresholds, o.gate));
    }
    assert (path + [r])[|path|] == r;
    hide Lineage, Meets, TrainedFrom;
  }

  /** A promotion moves its round from the window to the path; any other end of a round had an empty window. */
  lemma StateAccounts(d: Disk, d': Disk, r: nat, o: Outcome, path: seq<nat>, orphaned: set<nat>)
    requires d' == d.(state := d'.state)
    requires AccountingInv(d, path, orphaned, if o.Judged? && o.decision.accepted then {r} else {})
    ensures AccountingInv(d', if o.Judged? && o.decision.accepted then path + [r] else path, orphaned, {})
  {
    assert forall i: nat :: AcceptedRound(d', i) == AcceptedRound(d, i);
  }

  lemma SaveStatePreserves(c: Config, s: Sys, p: Proc, a: Action, s': Sys)
    requires Inv(c, s) && s.proc == Some(p) && !p.pc.Startup? && !p.pc.AtRound?
    requires a.SaveState? && NextInRound(c, s, p, a) == Some(s')
    ensures Inv(c, s')
  {
    hide OrderInv, ResumeInv, Lineage, Meets, TrainedFrom, Settled;
    var r, o, d, d' := p.pc.round, p.pc.outcome, s.disk, s'.disk;
    SaveStateKeepsRounds(d, s.trained, p, s'.proc.value, r, d'.state.value);
    if o.Judged? && o.decision.accepted {
      PathIsBelow(c, d, s.path, s.terms, r);
      PromotionKeepsParent(c, d, s.path, s.terms, p, r, o);
    }
    LineageFrame(c, d, d', s'.path, s'.terms);
    StateAccounts(d, d', r, o, s.path, s.orphaned);
    hide AccountingInv, JudgedInv;
  }
}
