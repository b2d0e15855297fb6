/** Which rounds a campaign works on, and what each write of a round leaves behind, over every run. */
module CampaignOrder {
  import opened Wrappers
  import opened CampaignDecision
  import opened Campaign
  import opened CampaignInvariant
  import opened CampaignSafety

  // ----- No round number is left out

  ghost predicate AllTouched(d: Disk, below: nat) {
    forall i: nat :: 1 <= i < below ==> Touched(d, i)
  }

  ghost predicate NoGaps(d: Disk) {
    && NextOnDisk(d) >= 1 && AllTouched(d, NextOnDisk(d))
    && forall j: nat :: Touched(d, j) ==> j >= 1 && AllTouched(d, j)
  }

  /** Everything below the round the process stands at has artifacts. */
  ghost predicate Reached(d: Disk, p: Proc) {
    match p.pc
    case Startup(_, completeMax) => completeMax == 0 || Touched(d, completeMax)
    case AtRound(r) => r >= 1 && AllTouched(d, r)
    case _ => p.pc.round >= 1 && AllTouched(d, p.pc.round)
  }

  ghost predicate GapInv(s: Sys) {
    NoGaps(s.disk) && (s.proc.Some? ==> Reached(s.disk, s.proc.value))
  }

  lemma GapStartup(c: Config, s: Sys, p: Proc, a: Action, s': Sys)
    requires Inv(c, s) && GapInv(s) && s.proc == Some(p) && p.pc.Startup? && NextStartup(c, s, p, a) == Some(s')
    ensures GapInv(s')
  {
    assert StartupInv(c, s.disk, p);
    hide Inv;
    forall i: nat ensures Touched(s'.disk, i) <==> Touched(s.disk, i) {
    }
    if a.SaveStart? {
      var r := StartRound(s.disk, p);
      assert p.resumable != {} ==> r in p.resumable;
      assert Touched(s.disk, r) || r == NextOnDisk(s.disk) || r == p.pc.completeMax + 1;
      assert AllTouched(s.disk, r);
    }
  }

  lemma GapAtRound(c: Config, s: Sys, p: Proc, a: Action, s': Sys)
    requires Inv(c, s) && GapInv(s) && s.proc == Some(p) && p.pc.AtRound? && NextAtRound(c, s, p, a) == Some(s')
    ensures GapInv(s')
  {
    assert AtRoundInv(s.disk, p);
    hide Inv;
    forall i: nat ensures Touched(s'.disk, i) <==> Touched(s.disk, i) {
    }
    assert NextOnDisk(s'.disk) == NextOnDisk(s.disk);
    assert a.SkipFailed? ==> Touched(s.disk, p.pc.round);
    hide Touched;
  }

  predicate HasArtifacts(dir: RoundDir) {
    dir.proposal.Some? || dir.training.Some? || dir.evaluation.Some? || dir.decision.Some?
  }

  /** Inside a round only that round's directory changes, and it loses nothing. */
  lemma TouchesOwnRound(c: Config, s: Sys, p: Proc, a: Action, s': Sys)
    requires s.proc == Some(p) && InRound(p) && NextInRound(c, s, p, a) == Some(s')
    ensures forall i: nat :: i != p.pc.round ==> Dir(s'.disk, i) == Dir(s.disk, i)
    ensures HasArtifacts(Dir(s.disk, p.pc.round)) ==> HasArtifacts(Dir(s'.disk, p.pc.round))
  {
    hide Judge, BindTraining;
  }

  /** A round goes on until its end is written to the state. */
  lemma StaysInRound(c: Config, s: Sys, p: Proc, a: Action, s': Sys)
    requires s.proc == Some(p) && InRound(p) && NextInRound(c, s, p, a) == Some(s')
    ensures s'.proc.Some?
    ensures if a.SaveState? then
              p.pc.SavingState? && s'.proc.value.pc == AtRound(p.pc.round + 1) && NextOnDisk(s'.disk) == p.pc.round + 1
            else InRound(s'.proc.value) && s'.proc.value.pc.round == p.pc.round && s'.disk.state == s.disk.state
  {
    hide Judge, BindTraining, Dir;
  }

  lemma EndedIsComplete(c: Config, s: Sys)
    requires Inv(c, s) && s.proc.Some? && s.proc.value.pc.SavingState?
    ensures Complete(s.disk, s.proc.value.pc.round)
    ensures Dir(s.disk, s.proc.value.pc.round).decision == Some(DecisionOf(s.proc.value.pc.outcome))
    ensures JudgedInv(s.disk, s.proc.value, s.proc.value.pc.round, s.proc.value.pc.outcome)
    ensures ParentMatchesDisk(s.disk, s.proc.value)
  {
    InRoundPoint(c, s);
    assert Current(s.disk, s.proc.value, s.proc.value.pc.round);
    hide Inv, JudgedInv;
  }

  lemma GapInRound(c: Config, s: Sys, p: Proc, a: Action, s': Sys)
    requires Inv(c, s) && GapInv(s) && s.proc == Some(p) && InRound(p) && NextInRound(c, s, p, a) == Some(s')
    ensures GapInv(s')
  {
    TouchesOwnRound(c, s, p, a, s');
    StaysInRound(c, s, p, a, s');
    if a.SaveState? { EndedIsComplete(c, s); }
    hide Inv, NextInRound, Dir, JudgedInv, ParentMatchesDisk;
    forall i: nat ensures Touched(s.disk, i) ==> Touched(s'.disk, i)
                  ensures Touched(s'.disk, i) ==> Touched(s.disk, i) || i == p.pc.round
    {
    }
    hide Touched;
  }

  lemma GapStep(c: Config, s: Sys, a: Action, s': Sys)
    requires Inv(c, s) && GapInv(s) && Next(c, s, a) == Some(s')
    ensures GapInv(s')
  {
    if s.proc.Some? && !a.Crash? {
      hide GapInv, Inv;
      var p := s.proc.value;
      match p.pc
      case Startup(_, _) => GapStartup(c, s, p, a, s');
      case AtRound(_) => GapAtRound(c, s, p, a, s');
      case _ => GapInRound(c, s, p, a, s');
    }
  }

  lemma {:induction false} GapsOfRun(c: Config, trace: seq<Sys>, actions: seq<Action>, k: nat)
    requires Run(c, trace, actions) && k < |trace|
    ensures GapInv(trace[k])
  {
    if k > 0 {
      hide Inv, Next, GapInv;
      GapsOfRun(c, trace, actions, k - 1);
      RunInv(c, trace, actions, k - 1);
      assert Next(c, trace[k - 1], actions[k - 1]) == Some(trace[k]);
      GapStep(c, trace[k - 1], actions[k - 1], trace[k]);
    }
  }

  /** A new proposal goes to the first round without artifacts, whatever launches and crashes came before. */
  lemma ProposesNextRound(c: Config, trace: seq<Sys>, actions: seq<Action>, k: nat)
    requires Run(c, trace, actions) && k < |actions| && actions[k].Propose?
    ensures trace[k].proc.Some? && trace[k].proc.value.pc.AtRound?
    ensures var d, r := trace[k].disk, trace[k].proc.value.pc.round;
            r >= 1 && forall i: nat :: Touched(d, i) <==> 1 <= i < r
  {
    RunInv(c, trace, actions, k);
    GapsOfRun(c, trace, actions, k);
    assert Next(c, trace[k], actions[k]) == Some(trace[k + 1]);
    assert AtRoundInv(trace[k].disk, trace[k].proc.value);
    hide Inv, Next;
  }

  /** Only the highest round with artifacts is resumed, when it has a step checkpoint and no results. */
  lemma ResumesLastRound(c: Config, trace: seq<Sys>, actions: seq<Action>, k: nat)
    requires Run(c, trace, actions) && k < |actions| && actions[k].Resume?
    ensures trace[k].proc.Some? && trace[k].proc.value.pc.AtRound?
    ensures var d, r := trace[k].disk, trace[k].proc.value.pc.round;
            && Dir(d, r).proposal.Some? && Dir(d, r).stepCheckpoint && NoResults(Dir(d, r))
            && r !in FailedOnDisk(d) && r >= 1 && forall i: nat :: Touched(d, i) <==> 1 <= i <= r
  {
    RunInv(c, trace, actions, k);
    GapsOfRun(c, trace, actions, k);
    assert Next(c, trace[k], actions[k]) == Some(trace[k + 1]);
    var s := trace[k];
    assert AtRoundInv(s.disk, s.proc.value) && ResumeInv(s.disk, s.trained);
    assert ResumeReady(s.disk, s.trained, s.proc.value.pc.round);
    hide Inv, Next;
  }

  // ----- The writes of a round

  /** A proposal is a duplicate exactly when its fingerprint is registered; otherwise it is registered for its round. */
  lemma ProposeRegisters(c: Config, trace: seq<Sys>, actions: seq<Action>, k: nat)
    requires Run(c, trace, actions) && k < |actions| && actions[k].Propose?
    ensures trace[k].proc.Some? && trace[k + 1].proc.Some? && trace[k].disk.state.Some?
    ensures var d, d', p, p' := trace[k].disk, trace[k + 1].disk, trace[k].proc.value, trace[k + 1].proc.value;
            var f := c.fingerprintOf(actions[k].proposal, d.state.value.parentDigest, p.settings.identity);
            && p.pc.AtRound? && actions[k].proposal.parent == d.state.value.parentDigest
            && p'.pc == SavingProposal(p.pc.round, actions[k].proposal, f, f in d.fingerprints)
            && d' == d.(fingerprints := if f in d.fingerprints then d.fingerprints else d.fingerprints[f := p.pc.round])
  {
    RunInv(c, trace, actions, k);
    assert Next(c, trace[k], actions[k]) == Some(trace[k + 1]);
    assert AtRoundInv(trace[k].disk, trace[k].proc.value);
    hide Inv;
  }

  /**
   A training counts exactly when the worker reports success and, having exited normally, reports the child on disk, the
   stored parent, no simulation, an intact step checkpoint and a resume configuration.
   */
  lemma TrainingBinds(c: Config, trace: seq<Sys>, actions: seq<Action>, k: nat)
    requires Run(c, trace, actions) && k < |actions| && actions[k].FinishTraining?
    ensures trace[k].proc.Some? && trace[k + 1].proc.Some? && trace[k].disk.state.Some?
    ensures trace[k].proc.value.pc.TrainingRound?
    ensures var d, r, report := trace[k].disk, trace[k].proc.value.pc.round, actions[k].report;
            var counts := report.Some? && report.value.success
                          && (report.value.exitCode == 0 ==>
                                && ChildFile(d, r) == Some(report.value.child)
                                && report.value.parent == d.state.value.parentDigest
                                && report.value.offlineSimulation == Some(false)
                                && report.value.stepCheckpointIntact && report.value.resumeConfigPresent);
            && Dir(trace[k + 1].disk, r).training == Some(if counts then Succeeded(report.value) else Failed)
            && trace[k + 1].proc.value.pc == if counts then Evaluating(r) else SkippingEvaluation(r, TrainingFailure)
  {
    RunInv(c, trace, actions, k);
    assert Next(c, trace[k], actions[k]) == Some(trace[k + 1]);
    assert Current(trace[k].disk, trace[k].proc.value, trace[k].proc.value.pc.round);
    hide Inv, Judge;
  }

  /** The decision file says how the round ended; a judged one gets the verdict of its evaluation. */
  lemma DecisionIsSaved(c: Config, trace: seq<Sys>, actions: seq<Action>, k: nat)
    requires Run(c, trace, actions) && k < |actions| && actions[k].SaveDecision?
    ensures trace[k].proc.Some? && trace[k].proc.value.pc.Deciding?
    ensures var pc := trace[k].proc.value.pc;
            Dir(trace[k + 1].disk, pc.round).decision
            == Some(match pc.outcome
                    case Duplicate => Decision(false, DuplicateFingerprint)
                    case TrainingFailure => Decision(false, TrainingFailed)
                    case Judged(_, decision, _) => decision)
  {
    assert Next(c, trace[k], actions[k]) == Some(trace[k + 1]);
    hide Judge, BindTraining;
  }

  /**
   Ending a round makes an accepted child the stored parent, with its own evaluation, and keeps the parent
   otherwise.
   */
  lemma StateIsSaved(c: Config, trace: seq<Sys>, actions: seq<Action>, k: nat)
    requires Run(c, trace, actions) && k < |actions| && actions[k].SaveState?
    ensures trace[k].proc.Some? && trace[k].proc.value.pc.SavingState?
    ensures trace[k].disk.state.Some? && trace[k + 1].disk.state.Some?
    ensures var pc, d := trace[k].proc.value.pc, trace[k].disk;
            var st, st' := d.state.value, trace[k + 1].disk.state.value;
            && st'.nextRound == pc.round + 1 && trace[k + 1].disk == d.(state := Some(st'))
            && (AcceptedRound(d, pc.round) ==>
                  && st'.parentRef == ChildOf(pc.round) && ChildFile(d, pc.round) == Some(st'.parentDigest)
                  && Dir(d, pc.round).evaluation == Some(Evaluated(st'.parentEval)))
            && (!AcceptedRound(d, pc.round) ==>
                  && st'.parentRef == st.parentRef && st'.parentDigest == st.parentDigest
                  && st'.parentEval == st.parentEval)
  {
    RunInv(c, trace, actions, k);
    assert Next(c, trace[k], actions[k]) == Some(trace[k + 1]);
    EndedIsComplete(c, trace[k]);
    hide Inv, Judge, Meets, TrainedFrom;
  }
}
