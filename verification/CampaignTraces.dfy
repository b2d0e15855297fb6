/** Runs that reach given points of the campaign, and what goes wrong on them. */
module CampaignTraces {
  import opened Wrappers
  import opened CampaignDecision
  import opened Campaign
  import opened CampaignInvariant
  import opened CampaignSafety

  /** Every launch of the run has these settings. */
  ghost predicate Under(actions: seq<Action>, settings: Settings) {
    forall a :: a in actions && a.Launch? ==> a.settings == settings
  }

  /** One more action on a run that ends in `s`. */
  lemma Then(c: Config, settings: Settings, trace: seq<Sys>, actions: seq<Action>, s: Sys, a: Action)
    returns (trace': seq<Sys>, actions': seq<Action>, s': Sys)
    requires Run(c, trace, actions) && trace[|actions|] == s && Next(c, s, a).Some?
    requires Under(actions, settings) && (a.Launch? ==> a.settings == settings)
    ensures Run(c, trace', actions') && trace'[|actions'|] == s' && Next(c, s, a) == Some(s')
    ensures Under(actions', settings)
  {
    hide Next;
    s' := Next(c, s, a).value;
    ExtendRun(c, trace, actions, a, s');
    trace', actions' := trace + [s'], actions + [a];
  }

  /** Nothing has been promoted or orphaned yet. */
  ghost predicate Unpromoted(c: Config, s: Sys, initial: Evaluation) {
    && s.path == [] && s.terms == [] && s.orphaned == {} && s.disk.cachedParentEval == Some(initial)
    && s.disk.state.Some? && s.disk.state.value.parentDigest == c.initial
  }

  function In(c: Config, settings: Settings, initial: Evaluation, pc: Pc): Option<Proc> {
    Some(Proc(pc, {}, {}, {}, Initial, c.initial, Some(initial), settings))
  }

  lemma RunToRound(c: Config, settings: Settings, initial: Evaluation)
    returns (trace: seq<Sys>, actions: seq<Action>, s: Sys)
    requires initial.subject == c.initial
    ensures Run(c, trace, actions) && trace[|actions|] == s && Under(actions, settings)
    ensures s.proc == In(c, settings, initial, AtRound(1)) && Unpromoted(c, s, initial)
    ensures s.disk.rounds == map[] && s.disk.fingerprints == map[] && s.disk.childFiles == map[]
    ensures s.trained == {}
  {
    var d := EMPTY_DISK;
    assert CompleteRounds(d) == {} && InterruptedRounds(d) == {};
    assert Start(c, d, settings).resumable == {} && Start(c, d, settings).pc.todo == {};
    assert Start(c, d, settings) == Proc(Startup({}, 0), {}, {}, {}, Initial, c.initial, None, settings);
    trace, actions, s := [INIT], [], INIT;
    trace, actions, s := Then(c, settings, trace, actions, s, Launch(settings));
    trace, actions, s := Then(c, settings, trace, actions, s, EvaluateParent(initial));
    trace, actions, s := Then(c, settings, trace, actions, s, SaveStart);
  }

  lemma RunToReady(c: Config, settings: Settings, initial: Evaluation, proposal: Proposal)
    returns (trace: seq<Sys>, actions: seq<Action>, s: Sys)
    requires initial.subject == c.initial == proposal.parent
    ensures Run(c, trace, actions) && trace[|actions|] == s && Under(actions, settings)
    ensures var f := c.fingerprintOf(proposal, c.initial, settings.identity);
            && s.proc == In(c, settings, initial, ReadyToTrain(1, f)) && Unpromoted(c, s, initial)
            && f in s.disk.fingerprints && Dir(s.disk, 1) == EMPTY_ROUND.(proposal := Some(proposal),
                                                                       fingerprint := Some(FingerprintFile(f, false)))
    ensures s.trained == {}
  {
    trace, actions, s := RunToRound(c, settings, initial);
    trace, actions, s := Then(c, settings, trace, actions, s, Propose(proposal));
    trace, actions, s := Then(c, settings, trace, actions, s, SaveProposal);
    trace, actions, s := Then(c, settings, trace, actions, s, SaveFingerprint);
  }

  lemma RunToChild(c: Config, settings: Settings, initial: Evaluation, child: Digest)
    returns (trace: seq<Sys>, actions: seq<Action>, s: Sys, f: Fingerprint)
    requires initial.subject == c.initial
    ensures Run(c, trace, actions) && trace[|actions|] == s && Under(actions, settings)
    ensures s.proc == In(c, settings, initial, TrainingRound(1, f)) && Unpromoted(c, s, initial)
    ensures Dir(s.disk, 1).proposal.Some? && ChildFile(s.disk, 1) == Some(child)
  {
    var proposal := Proposal(0, c.initial);
    f := c.fingerprintOf(proposal, c.initial, settings.identity);
    trace, actions, s := RunToReady(c, settings, initial, proposal);
    trace, actions, s := Then(c, settings, trace, actions, s, StartTraining);
    trace, actions, s := Then(c, settings, trace, actions, s, WriteChild(child));
  }

  lemma RunToEvaluation(c: Config, settings: Settings, initial: Evaluation, child: Digest)
    returns (trace: seq<Sys>, actions: seq<Action>, s: Sys)
    requires initial.subject == c.initial
    ensures Run(c, trace, actions) && trace[|actions|] == s && Under(actions, settings)
    ensures s.proc == In(c, settings, initial, Evaluating(1)) && Unpromoted(c, s, initial)
    ensures Dir(s.disk, 1).proposal.Some? && Dir(s.disk, 1).training.Some? && ChildFile(s.disk, 1) == Some(child)
  {
    var f;
    trace, actions, s, f := RunToChild(c, settings, initial, child);
    var report := WorkerReport(0, true, child, c.initial, Some(false), true, true);
    trace, actions, s := Then(c, settings, trace, actions, s, FinishTraining(Some(report)));
  }

  lemma RunToJudged(c: Config, settings: Settings, initial: Evaluation, candidate: Evaluation,
                    gate: Option<CorrectnessGate>,
                    decision: Decision)
    returns (trace: seq<Sys>, actions: seq<Action>, s: Sys)
    requires initial.subject == c.initial && Judge(settings.thresholds, initial, candidate, gate) == decision
    requires decision.accepted
    ensures Run(c, trace, actions) && trace[|actions|] == s && Under(actions, settings)
    ensures s.proc == In(c, settings, initial, Deciding(1, Judged(candidate, decision, gate)))
    ensures Unpromoted(c, s, initial)
    ensures Dir(s.disk, 1).proposal.Some? && Dir(s.disk, 1).training.Some?
    ensures EvaluationOf(s.disk, 1) == Some(candidate) && ChildFile(s.disk, 1) == Some(candidate.subject)
  {
    trace, actions, s := RunToEvaluation(c, settings, initial, candidate.subject);
    hide Judge;
    trace, actions, s := Then(c, settings, trace, actions, s, FinishEvaluation(candidate, gate));
  }

  /** The point between the decision file and the state file, for a candidate that is promoted. */
  lemma RunToDecision(c: Config, settings: Settings, initial: Evaluation, candidate: Evaluation,
                      gate: Option<CorrectnessGate>,
                      decision: Decision)
    returns (trace: seq<Sys>, actions: seq<Action>, s: Sys)
    requires initial.subject == c.initial && Judge(settings.thresholds, initial, candidate, gate) == decision
    requires decision.accepted
    ensures Run(c, trace, actions) && trace[|actions|] == s && Under(actions, settings)
    ensures s.proc == In(c, settings, initial, SavingState(1, Judged(candidate, decision, gate)))
    ensures Unpromoted(c, s, initial)
    ensures AcceptedRound(s.disk, 1)
    ensures EvaluationOf(s.disk, 1) == Some(candidate) && ChildFile(s.disk, 1) == Some(candidate.subject)
  {
    trace, actions, s := RunToJudged(c, settings, initial, candidate, gate, decision);
    hide Judge;
    trace, actions, s := Then(c, settings, trace, actions, s, SaveDecision);
  }

  /** Whatever the settings would promote over the initial parent is promoted on some run. */
  lemma PromotionHappens(c: Config, settings: Settings, initial: Evaluation, candidate: Evaluation,
                         gate: Option<CorrectnessGate>)
    returns (trace: seq<Sys>, actions: seq<Action>, s: Sys)
    requires initial.subject == c.initial && Judge(settings.thresholds, initial, candidate, gate).accepted
    ensures Run(c, trace, actions) && trace[|actions|] == s && Under(actions, settings)
    ensures s.path == [1] && s.disk.cachedParentEval == Some(initial) && EvaluationOf(s.disk, 1) == Some(candidate)
    ensures s.disk.state.Some? && s.disk.state.value.parentEval == candidate
  {
    var decision := Judge(settings.thresholds, initial, candidate, gate);
    hide Judge;
    trace, actions, s := RunToDecision(c, settings, initial, candidate, gate, decision);
    trace, actions, s := Then(c, settings, trace, actions, s, SaveState);
  }

  /**
   Lineage cannot be read from decisions forwards: whatever candidate the settings would promote over the initial
   parent, a run leaves it accepted on disk while its child is not the parent.
   */
  lemma OrphanHappens(c: Config, settings: Settings, initial: Evaluation, candidate: Evaluation,
                      gate: Option<CorrectnessGate>)
    returns (trace: seq<Sys>, actions: seq<Action>, s: Sys)
    requires initial.subject == c.initial && Judge(settings.thresholds, initial, candidate, gate).accepted
    ensures Run(c, trace, actions) && trace[|actions|] == s
    ensures s.proc.None? && AcceptedRound(s.disk, 1) && ChildFile(s.disk, 1) == Some(candidate.subject)
    ensures s.disk.state.Some? && s.disk.state.value.parentDigest == c.initial && 1 in s.orphaned
  {
    var decision := Judge(settings.thresholds, initial, candidate, gate);
    hide Judge;
    trace, actions, s := RunToDecision(c, settings, initial, candidate, gate, decision);
    trace, actions, s := Then(c, settings, trace, actions, s, Crash);
  }

  const SHIPPED := Thresholds(0.3, 0.9, 0.99, 0.0, 0.0, 0.005, "")

  /** A child that is a little better than its parent, under the margins of the shipped configuration. */
  lemma OrphanHappensAsShipped(c: Config, settings: Settings) returns (trace: seq<Sys>, actions: seq<Action>, s: Sys)
    requires settings.thresholds == SHIPPED
    ensures Run(c, trace, actions) && trace[|actions|] == s && s.proc.None?
    ensures exists child: Digest ::
              child != c.initial && AcceptedRound(s.disk, 1) && ChildFile(s.disk, 1) == Some(child)
    ensures s.disk.state.Some? && s.disk.state.value.parentDigest == c.initial
  {
    var initial :=
      Evaluation(c.initial, true, true, Some(false), true, None, Some(0.5), None, Some(0.3), Some(0.9), "", true);
    var candidate := initial.(subject := c.initial + 1, qualityScore := Some(0.6), semantic := Some(0.31));
    trace, actions, s := OrphanHappens(c, settings, initial, candidate, None);
  }
}
