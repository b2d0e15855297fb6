/** How children are judged in a run: on which terms, against which parent, and what the files say about it. */
module CampaignJudging {
  import opened Wrappers
  import opened CampaignDecision
  import opened Campaign
  import opened CampaignInvariant
  import opened CampaignSafety

  // ----- One evaluation

  predicate FirstObjection(objections: seq<Objection>, j: int) {
    0 <= j < |objections| && objections[j].raised && forall i :: 0 <= i < j ==> !objections[i].raised
  }

  /**
   Finishing an evaluation accepts the child exactly when the gate of that evaluation does not block it, it improves on
   the evaluation of the stored parent, and visual gate, quality floor and release contract allow it.
   */
  lemma EvaluationJudges(c: Config, trace: seq<Sys>, actions: seq<Action>, k: nat)
    requires Run(c, trace, actions) && k < |actions| && actions[k].FinishEvaluation?
    ensures trace[k].proc.Some? && trace[k + 1].proc.Some? && trace[k].disk.state.Some?
    ensures var p, p' := trace[k].proc.value, trace[k + 1].proc.value;
            var e, gate, t := actions[k].result, actions[k].gate, p.settings.thresholds;
            var parent := trace[k].disk.state.value.parentEval;
            && p.pc.Evaluating? && p'.pc.Deciding? && p'.pc.round == p.pc.round
            && p'.pc.outcome.Judged? && p'.pc.outcome.evaluation == e && p'.pc.outcome.gate == gate
            && EvaluationOf(trace[k + 1].disk, p.pc.round) == Some(e)
            && (p'.pc.outcome.decision.accepted <==> Passes(Terms(t, gate), parent, e))
            && (forall j :: FirstObjection(Objections(t, parent, e, gate), j) ==>
                  p'.pc.outcome.decision.reason == Objections(t, parent, e, gate)[j].reason)
  {
    JudgedByMachine(c, trace, actions, k);
    var t, parent := trace[k].proc.value.settings.thresholds, trace[k].disk.state.value.parentEval;
    ReasonIsFirstObjection(t, parent, actions[k].result, actions[k].gate);
    MeetsIff(Terms(t, actions[k].gate), parent, actions[k].result);
    hide Run, Judge, Meets, Passes, Objections;
  }

  lemma JudgedByMachine(c: Config, trace: seq<Sys>, actions: seq<Action>, k: nat)
    requires Run(c, trace, actions) && k < |actions| && actions[k].FinishEvaluation?
    ensures trace[k].proc.Some? && trace[k + 1].proc.Some? && trace[k].disk.state.Some?
    ensures var p, p' := trace[k].proc.value, trace[k + 1].proc.value;
            var e, gate, parent := actions[k].result, actions[k].gate, trace[k].disk.state.value.parentEval;
            && p.pc.Evaluating? && EvaluationOf(trace[k + 1].disk, p.pc.round) == Some(e)
            && p'.pc == Deciding(p.pc.round, Judged(e, Judge(p.settings.thresholds, parent, e, gate), gate))
  {
    RunInv(c, trace, actions, k);
    assert Next(c, trace[k], actions[k]) == Some(trace[k + 1]);
    assert Current(trace[k].disk, trace[k].proc.value, trace[k].proc.value.pc.round);
    hide Inv, Judge;
  }

  // ----- What the files of a round say

  /** Training result, evaluation and decision of a finished round belong together. */
  predicate Coherent(dir: RoundDir) {
    && dir.training.Some? && dir.evaluation.Some? && dir.decision.Some?
    && match dir.training.value
       case Skipped =>
         && dir.fingerprint.Some? && dir.fingerprint.value.duplicate
         && dir.evaluation.value.EvaluationSkipped? && dir.decision.value == Decision(false, DuplicateFingerprint)
       case Failed => dir.evaluation.value.EvaluationSkipped? && dir.decision.value == Decision(false, TrainingFailed)
       case Succeeded(_) =>
         dir.evaluation.value.Evaluated?
           && dir.decision.value.reason !in {DuplicateFingerprint, TrainingFailed, IncompleteRound}
  }

  /** Every complete round is coherent, or a restart has closed it as incomplete. */
  ghost predicate RecordsInv(s: Sys) {
    && (forall r: nat :: Complete(s.disk, r) ==>
          Coherent(Dir(s.disk, r)) || Dir(s.disk, r).decision == Some(Decision(false, IncompleteRound)))
    && (s.proc.Some? ==> PcTells(s.proc.value.pc, s.disk))
  }

  /** What the process is about to write fits what is there. */
  predicate PcTells(pc: Pc, d: Disk) {
    match pc
    case SkippingTraining(r) => Dir(d, r).fingerprint.Some? && Dir(d, r).fingerprint.value.duplicate
    case SkippingEvaluation(r, o) => !o.Judged? && Tells(o, Dir(d, r))
    case Evaluating(r) => Dir(d, r).training.Some? && Dir(d, r).training.value.Succeeded?
    case Deciding(r, o) => Tells(o, Dir(d, r)) && FitsEvaluation(o, Dir(d, r))
    case SavingState(r, o) =>
      Tells(o, Dir(d, r)) && FitsEvaluation(o, Dir(d, r)) && Dir(d, r).decision == Some(DecisionOf(o))
    case _ => true
  }

  predicate Tells(o: Outcome, dir: RoundDir) {
    dir.training.Some? &&
    match o
    case Duplicate => dir.training.value.Skipped? && dir.fingerprint.Some? && dir.fingerprint.value.duplicate
    case TrainingFailure => dir.training.value.Failed?
    case Judged(_, d, _) =>
      dir.training.value.Succeeded? && d.reason !in {DuplicateFingerprint, TrainingFailed, IncompleteRound}
  }

  predicate FitsEvaluation(o: Outcome, dir: RoundDir) {
    dir.evaluation.Some?
      && (if o.Judged? then dir.evaluation.value.Evaluated? else dir.evaluation.value.EvaluationSkipped?)
  }

  lemma JudgeSaysWhy(t: Thresholds, parent: Evaluation, child: Evaluation, gate: Option<CorrectnessGate>)
    ensures Judge(t, parent, child, gate).reason !in {DuplicateFingerprint, TrainingFailed, IncompleteRound}
  {
  }

  lemma UndecidedYet(c: Config, s: Sys)
    requires Inv(c, s) && s.proc.Some? && InRound(s.proc.value) && !s.proc.value.pc.SavingState?
    ensures Dir(s.disk, s.proc.value.pc.round).decision.None?
  {
    InRoundPoint(c, s);
    assert ResumeInv(s.disk, s.trained);
    hide Inv, JudgedInv, Registered, TrainedFrom;
  }

  /** In a round the process keeps telling the truth about it. */
  lemma TellsStep(c: Config, s: Sys, p: Proc, a: Action, s': Sys)
    requires s.proc == Some(p) && InRound(p) && NextInRound(c, s, p, a) == Some(s') && PcTells(p.pc, s.disk)
    requires !p.pc.SavingState? ==> Dir(s.disk, p.pc.round).decision.None?
    ensures s'.proc.Some? && PcTells(s'.proc.value.pc, s'.disk)
    ensures Complete(s'.disk, p.pc.round) && !Complete(s.disk, p.pc.round) ==> Coherent(Dir(s'.disk, p.pc.round))
  {
    if a.FinishEvaluation? && p.parentEval.Some? {
      JudgeSaysWhy(p.settings.thresholds, p.parentEval.value, a.result, a.gate);
    }
    hide Judge, Bound;
  }

  lemma OutsideTells(c: Config, s: Sys, a: Action, s': Sys)
    requires Next(c, s, a) == Some(s')
    requires s.proc.Some? ==> a.Crash? || !InRound(s.proc.value)
    ensures s'.proc.Some? ==> PcTells(s'.proc.value.pc, s'.disk)
    ensures forall r: nat :: Complete(s'.disk, r) && !Complete(s.disk, r) ==>
              Dir(s'.disk, r).decision == Some(Decision(false, IncompleteRound))
  {
    hide StartRound, MaxOf;
  }

  lemma RecordsStep(c: Config, s: Sys, a: Action, s': Sys)
    requires Inv(c, s) && RecordsInv(s) && Next(c, s, a) == Some(s')
    ensures RecordsInv(s')
  {
    var inRound := s.proc.Some? && !a.Crash? && InRound(s.proc.value);
    if inRound {
      if !s.proc.value.pc.SavingState? {
        UndecidedYet(c, s);
      }
      TellsStep(c, s, s.proc.value, a, s');
    } else {
      OutsideTells(c, s, a, s');
    }
    hide PcTells, Coherent;
    forall r: nat | Complete(s'.disk, r)
      ensures Coherent(Dir(s'.disk, r)) || Dir(s'.disk, r).decision == Some(Decision(false, IncompleteRound))
    {
      if Complete(s.disk, r) {
        CompleteRoundStep(c, s, a, s', r);
      } else if inRound && r != s.proc.value.pc.round {
        OtherRoundStays(c, s, s.proc.value, a, s', r);
      }
      hide Inv, Next, NextInRound;
    }
  }

  lemma OtherRoundStays(c: Config, s: Sys, p: Proc, a: Action, s': Sys, r: nat)
    requires InRound(p) && NextInRound(c, s, p, a) == Some(s') && r != p.pc.round
    ensures Dir(s'.disk, r) == Dir(s.disk, r)
  {
    hide Judge, BindTraining;
  }

  /** In every run, the files of a complete round are coherent unless a restart has closed the round as incomplete. */
  lemma {:induction false} RecordsOfRun(c: Config, trace: seq<Sys>, actions: seq<Action>, k: nat)
    requires Run(c, trace, actions) && k < |trace|
    ensures RecordsInv(trace[k])
  {
    hide Inv, Next, RecordsInv;
    if k == 0 {
      NoRecords();
    } else {
      RecordsOfRun(c, trace, actions, k - 1);
      RunInv(c, trace, actions, k - 1);
      assert Next(c, trace[k - 1], actions[k - 1]) == Some(trace[k]);
      RecordsStep(c, trace[k - 1], actions[k - 1], trace[k]);
    }
  }

  lemma NoRecords()
    ensures RecordsInv(INIT)
  {
  }

  // ----- Every promotion

  /** Action i judged round r on these terms, with this result. */
  ghost predicate JudgedAt(trace: seq<Sys>, actions: seq<Action>, i: nat, r: nat, e: Evaluation, t: Terms) {
    && i < |actions| && i < |trace| && actions[i].FinishEvaluation? && trace[i].proc.Some?
    && trace[i].proc.value.pc == Evaluating(r)
    && actions[i].result == e && t == Terms(trace[i].proc.value.settings.thresholds, actions[i].gate)
  }

  ghost predicate JudgedBefore(trace: seq<Sys>, actions: seq<Action>, k: nat, r: nat, e: Option<Evaluation>, t: Terms) {
    e.Some? && exists i: nat :: i < k && JudgedAt(trace, actions, i, r, e.value, t)
  }

  /** The verdict that the process carries towards the state file. */
  predicate Carries(p: Proc) {
    (p.pc.Deciding? || p.pc.SavingState?) && p.pc.outcome.Judged?
  }

  ghost predicate OriginsInv(trace: seq<Sys>, actions: seq<Action>, k: nat)
    requires k < |trace|
  {
    var s := trace[k];
    && |s.terms| == |s.path|
    && (forall j :: 0 <= j < |s.path| ==>
          JudgedBefore(trace, actions, k, s.path[j], EvaluationOf(s.disk, s.path[j]), s.terms[j]))
    && (s.proc.Some? && Carries(s.proc.value) ==>
          var p := s.proc.value;
          && EvaluationOf(s.disk, p.pc.round) == Some(p.pc.outcome.evaluation)
          && JudgedBefore(trace, actions, k, p.pc.round, Some(p.pc.outcome.evaluation),
                          Terms(p.settings.thresholds, p.pc.outcome.gate)))
  }

  lemma JudgedEarlier(trace: seq<Sys>, actions: seq<Action>, k: nat, r: nat, e: Option<Evaluation>, t: Terms)
    requires JudgedBefore(trace, actions, k, r, e, t)
    ensures JudgedBefore(trace, actions, k + 1, r, e, t)
  {
  }

  /** A promotion appends the round that the process carries, with the terms it was judged on. */
  lemma PathStep(c: Config, s: Sys, a: Action, s': Sys)
    requires Next(c, s, a) == Some(s')
    ensures (s'.path == s.path && s'.terms == s.terms)
            || (s.proc.Some? && Carries(s.proc.value)
                && s'.path == s.path + [s.proc.value.pc.round] && s'.disk.rounds == s.disk.rounds
                && s'.terms == s.terms + [Terms(s.proc.value.settings.thresholds, s.proc.value.pc.outcome.gate)])
  {
    hide Judge, BindTraining, StartRound, Dir;
  }

  lemma CarriedInRound(c: Config, s: Sys, a: Action, s': Sys)
    requires Next(c, s, a) == Some(s') && s'.proc.Some? && Carries(s'.proc.value)
    ensures s.proc.Some? && InRound(s.proc.value) && NextInRound(c, s, s.proc.value, a) == Some(s')
  {
    hide NextInRound, StartRound, Dir;
  }

  /** A carried verdict was carried before, or has just been reached. */
  lemma CarriedStep(c: Config, s: Sys, p: Proc, a: Action, s': Sys)
    requires s.proc == Some(p) && InRound(p) && NextInRound(c, s, p, a) == Some(s') && PcTells(p.pc, s.disk)
    requires s'.proc.Some? && Carries(s'.proc.value)
    ensures p.settings == s'.proc.value.settings
    ensures var p' := s'.proc.value;
            || (Carries(p) && p.pc.round == p'.pc.round && p.pc.outcome == p'.pc.outcome
                && Dir(s'.disk, p.pc.round).evaluation == Dir(s.disk, p.pc.round).evaluation)
            || (a.FinishEvaluation? && p.pc == Evaluating(p'.pc.round) && a.result == p'.pc.outcome.evaluation
                && a.gate == p'.pc.outcome.gate && EvaluationOf(s'.disk, p'.pc.round) == Some(a.result))
  {
    hide Judge, BindTraining, Tells, FitsEvaluation;
  }

  lemma OriginsStep(c: Config, trace: seq<Sys>, actions: seq<Action>, k: nat)
    requires Run(c, trace, actions) && k < |actions| && OriginsInv(trace, actions, k)
    requires Inv(c, trace[k]) && RecordsInv(trace[k])
    ensures OriginsInv(trace, actions, k + 1)
  {
    var s, a, s' := trace[k], actions[k], trace[k + 1];
    assert Next(c, s, a) == Some(s');
    PathStep(c, s, a, s');
    forall j | 0 <= j < |s'.path|
      ensures JudgedBefore(trace, actions, k + 1, s'.path[j], EvaluationOf(s'.disk, s'.path[j]), s'.terms[j])
    {
      if j < |s.path| {
        PathEvaluationStays(c, s, a, s', s.path[j]);
        JudgedEarlier(trace, actions, k, s.path[j], EvaluationOf(s.disk, s.path[j]), s.terms[j]);
      } else {
        JudgedEarlier(trace, actions, k, s'.path[j], EvaluationOf(s.disk, s'.path[j]), s'.terms[j]);
      }
    }
    if s'.proc.Some? && Carries(s'.proc.value) {
      OriginOfCarried(c, trace, actions, k);
    }
  }

  lemma OriginOfCarried(c: Config, trace: seq<Sys>, actions: seq<Action>, k: nat)
    requires Run(c, trace, actions) && k < |actions| && OriginsInv(trace, actions, k) && RecordsInv(trace[k])
    requires trace[k + 1].proc.Some? && Carries(trace[k + 1].proc.value)
    ensures var d, p := trace[k + 1].disk, trace[k + 1].proc.value;
            && EvaluationOf(d, p.pc.round) == Some(p.pc.outcome.evaluation)
            && JudgedBefore(trace, actions, k + 1, p.pc.round, Some(p.pc.outcome.evaluation),
                            Terms(p.settings.thresholds, p.pc.outcome.gate))
  {
    var s, a, s' := trace[k], actions[k], trace[k + 1];
    assert Next(c, s, a) == Some(s');
    CarriedInRound(c, s, a, s');
    CarriedStep(c, s, s.proc.value, a, s');
    hide Next, NextInRound;
    var p, p' := s.proc.value, s'.proc.value;
    var t := Terms(p'.settings.thresholds, p'.pc.outcome.gate);
    if Carries(p) && p.pc.round == p'.pc.round && p.pc.outcome == p'.pc.outcome {
      JudgedEarlier(trace, actions, k, p.pc.round, Some(p.pc.outcome.evaluation), t);
    } else {
      assert JudgedAt(trace, actions, k, p'.pc.round, p'.pc.outcome.evaluation, t);
    }
  }

  lemma PathEvaluationStays(c: Config, s: Sys, a: Action, s': Sys, r: nat)
    requires Inv(c, s) && Next(c, s, a) == Some(s') && r in s.path
    ensures EvaluationOf(s'.disk, r) == EvaluationOf(s.disk, r)
  {
    OnPathIsComplete(c, s, r);
    CompleteRoundStep(c, s, a, s', r);
  }

  lemma OnPathIsComplete(c: Config, s: Sys, r: nat)
    requires Inv(c, s) && r in s.path
    ensures Complete(s.disk, r)
  {
    assert AccountingInv(s.disk, s.path, s.orphaned, Window(s));
  }

  lemma {:induction false} OriginsOfRun(c: Config, trace: seq<Sys>, actions: seq<Action>, k: nat)
    requires Run(c, trace, actions) && k < |trace|
    ensures OriginsInv(trace, actions, k)
  {
    hide Inv, Next, OriginsInv, RecordsInv;
    if k == 0 {
      NoOrigins(trace, actions);
    } else {
      OriginsOfRun(c, trace, actions, k - 1);
      RunInv(c, trace, actions, k - 1);
      RecordsOfRun(c, trace, actions, k - 1);
      OriginsStep(c, trace, actions, k - 1);
    }
  }

  lemma NoOrigins(trace: seq<Sys>, actions: seq<Action>)
    requires |trace| > 0 && trace[0] == INIT
    ensures OriginsInv(trace, actions, 0)
  {
  }

  /**
   Every promoted round of a run was judged by an action of the run, with the gate and the launch's thresholds of that
   action, and its result met these terms against the parent before it.
   */
  lemma PromotedOnTerms(c: Config, trace: seq<Sys>, actions: seq<Action>, k: nat, j: nat)
    requires Run(c, trace, actions) && k < |trace| && j < |trace[k].path|
    ensures |trace[k].terms| == |trace[k].path|
    ensures var s := trace[k];
            var e, before := EvaluationOf(s.disk, s.path[j]), EvalAt(s.disk, s.path, j);
            && JudgedBefore(trace, actions, k, s.path[j], e, s.terms[j])
            && before.Some? && Passes(s.terms[j], before.value, e.value)
  {
    RunInv(c, trace, actions, k);
    OriginsOfRun(c, trace, actions, k);
    var s := trace[k];
    assert ParentInv(c, s.disk, s.path, s.terms);
    assert LinkAt(c, s.disk, s.path, s.terms, j);
    MeetsIff(s.terms[j], EvalAt(s.disk, s.path, j).value, EvaluationOf(s.disk, s.path[j]).value);
    hide Meets, Passes;
  }

  // ----- The failed list

  /** What the process remembers of the failed list is what is stored; a launch has started from a part of it. */
  ghost predicate FailedInv(s: Sys) {
    s.proc.Some? && !s.proc.value.pc.Startup? ==>
      && s.disk.state.Some? && s.proc.value.memFailed == s.disk.state.value.failed
  }

  lemma FailedStep(c: Config, s: Sys, a: Action, s': Sys)
    requires FailedInv(s) && Next(c, s, a) == Some(s')
    ensures FailedInv(s')
  {
    hide Judge, BindTraining, StartRound, Dir;
  }

  lemma {:induction false} FailedOfRun(c: Config, trace: seq<Sys>, actions: seq<Action>, k: nat)
    requires Run(c, trace, actions) && k < |trace|
    ensures FailedInv(trace[k])
  {
    hide Next, FailedInv;
    if k == 0 {
      NothingFailed();
    } else {
      FailedOfRun(c, trace, actions, k - 1);
      assert Next(c, trace[k - 1], actions[k - 1]) == Some(trace[k]);
      FailedStep(c, trace[k - 1], actions[k - 1], trace[k]);
    }
  }

  lemma NothingFailed()
    ensures FailedInv(INIT)
  {
  }

  /**
   Ending a round adds it to the stored failed list exactly when its training failed. A judged round leaves the list as
   it is; a duplicate puts back the list of the start of the launch, and so forgets the failures since.
   */
  lemma FailedListAfter(c: Config, trace: seq<Sys>, actions: seq<Action>, k: nat)
    requires Run(c, trace, actions) && k < |actions| && actions[k] == SaveState
    ensures trace[k].proc.Some? && trace[k].proc.value.pc.SavingState?
    ensures var p, before, after := trace[k].proc.value, FailedOnDisk(trace[k].disk), FailedOnDisk(trace[k + 1].disk);
            && (p.pc.outcome.TrainingFailure? ==> after == before + {p.pc.round})
            && (p.pc.outcome.Judged? ==> after == before)
            && (p.pc.outcome.Duplicate? ==> after == p.failed)
  {
    FailedOfRun(c, trace, actions, k);
    assert Next(c, trace[k], actions[k]) == Some(trace[k + 1]);
    hide Judge, BindTraining, StartRound, Dir;
  }
}
