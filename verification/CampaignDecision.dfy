/**
 The promotion decision of the Wan campaign: the candidate decision of the student
 package followed by the controller gate, and the digest binding of a training result.
 Scores are reals; a JSON field that may be absent is an Option.
 */
module CampaignDecision {
  import opened Wrappers

  /** A SHA-256 value. Digests are assumed collision-free, so a number identifies the bytes. */
  type Digest = nat

  datatype VisualGate = VisualGate(enabled: bool, passed: bool)

  /**
   One evaluation result. `subject` is the digest of the checkpoint whose videos were scored.
   `semantic` is the first of the metric table and the top level that is present.
   */
  datatype Evaluation = Evaluation(
    subject: Digest,
    success: bool,
    valid: bool,
    offlineSimulation: Option<bool>,
    continuationVerified: bool,
    visualGate: Option<VisualGate>,
    qualityScore: Option<real>,
    score: Option<real>,
    semantic: Option<real>,
    temporal: Option<real>,
    contractMode: string,
    adaptiveRetryVerified: bool)

  datatype CorrectnessGate = CorrectnessGate(passed: bool, legacyFrozen: bool)

  datatype Reason =
    | CorrectnessGatePending | LegacyFrozen | EvaluationFailed | OfflineSimulation | ContractInvalid
    | VisualCollapse | SemanticFloor | QualityFloor | SemanticImproved | QualityImproved | NoImprovement
    | QualityNoImprovement | TemporalRegression | ReleaseContractMismatch | AdaptiveRetryNotVerified
    | IncompleteRound | DuplicateFingerprint | TrainingFailed

  datatype Decision = Decision(accepted: bool, reason: Reason)

  datatype Thresholds = Thresholds(
    teacherSemantic: real,
    semanticFloorRatio: real,
    qualityFloorRatio: real,
    minSemanticDelta: real,
    minQualityDelta: real,
    maxTemporalDrop: real,
    releaseContract: string)

  function Semantic(e: Evaluation): real {
    e.semantic.GetOr(0.0)
  }

  /** The candidate decision falls back to the `score` metric when the quality score is absent or zero. */
  function DecisionQuality(e: Evaluation): real {
    if e.qualityScore.Some? && e.qualityScore.value != 0.0 then e.qualityScore.value else e.score.GetOr(0.0)
  }

  /** The controller gate reads the quality score only. */
  function GateQuality(e: Evaluation): real {
    e.qualityScore.GetOr(0.0)
  }

  function GateTemporal(e: Evaluation): real {
    e.temporal.GetOr(0.0)
  }

  function CandidateDecision(t: Thresholds, parent: Evaluation, candidate: Evaluation,
                             gate: Option<CorrectnessGate>): Decision
  {
    if gate.Some? && !gate.value.passed then Decision(false, CorrectnessGatePending)
    else if gate.Some? && gate.value.legacyFrozen then Decision(false, LegacyFrozen)
    else if !candidate.success || !candidate.valid then Decision(false, EvaluationFailed)
    else if candidate.offlineSimulation != Some(false) then Decision(false, OfflineSimulation)
    else if !candidate.continuationVerified then Decision(false, ContractInvalid)
    else if candidate.visualGate.Some? && candidate.visualGate.value.enabled && !candidate.visualGate.value.passed then
      Decision(false, VisualCollapse)
    else if Semantic(candidate) < t.teacherSemantic * t.semanticFloorRatio then Decision(false, SemanticFloor)
    else if DecisionQuality(candidate) < DecisionQuality(parent) * t.qualityFloorRatio then
      Decision(false, QualityFloor)
    else if Semantic(candidate) >= Semantic(parent) + t.minSemanticDelta then Decision(true, SemanticImproved)
    else if Semantic(candidate) >= Semantic(parent) && DecisionQuality(candidate) > DecisionQuality(parent) then
      Decision(true, QualityImproved)
    else Decision(false, NoImprovement)
  }

  function ApplyControllerGate(t: Thresholds, parent: Evaluation, candidate: Evaluation, d: Decision): Decision {
    if !d.accepted then d
    else
      var d1 :=
        if GateQuality(candidate) - GateQuality(parent) < t.minQualityDelta then Decision(false, QualityNoImprovement)
        else if GateTemporal(candidate) - GateTemporal(parent) < -t.maxTemporalDrop then
          Decision(false, TemporalRegression)
        else d;
      var d2 :=
        if t.releaseContract != "" && candidate.contractMode != t.releaseContract then
          Decision(false, ReleaseContractMismatch)
        else d1;
      if t.releaseContract != "" && !candidate.adaptiveRetryVerified then Decision(false, AdaptiveRetryNotVerified)
      else d2
  }

  /** What one promotion guarantees about the child relative to the parent it replaces. */
  ghost predicate Improves(t: Thresholds, parent: Evaluation, child: Evaluation) {
    && child.success && child.valid && child.continuationVerified && child.offlineSimulation == Some(false)
    && Semantic(child) >= t.teacherSemantic * t.semanticFloorRatio
    && GateQuality(child) >= GateQuality(parent) + t.minQualityDelta
    && GateTemporal(child) >= GateTemporal(parent) - t.maxTemporalDrop
    && (|| Semantic(child) >= Semantic(parent) + t.minSemanticDelta
        || (Semantic(child) >= Semantic(parent) && DecisionQuality(child) > DecisionQuality(parent)))
  }

  /** What a child is judged by: the thresholds of the launch, and the correctness gate when the campaign has one. */
  datatype Terms = Terms(thresholds: Thresholds, gate: Option<CorrectnessGate>)

  /**
   No correctness gate blocks the child, it improves on its parent, no visual gate fails, the relative quality floor
   holds, and a required release contract is met.
   */
  ghost predicate Meets(terms: Terms, parent: Evaluation, child: Evaluation) {
    var t := terms.thresholds;
    && (terms.gate.Some? ==> terms.gate.value.passed && !terms.gate.value.legacyFrozen)
    && Improves(t, parent, child)
    && (child.visualGate.Some? && child.visualGate.value.enabled ==> child.visualGate.value.passed)
    && DecisionQuality(child) >= DecisionQuality(parent) * t.qualityFloorRatio
    && (t.releaseContract != "" ==> child.contractMode == t.releaseContract && child.adaptiveRetryVerified)
  }

  function OrZero(x: Option<real>): real {
    if x.Some? then x.value else 0.0
  }

  function QualityOrScore(e: Evaluation): real {
    if OrZero(e.qualityScore) != 0.0 then OrZero(e.qualityScore) else OrZero(e.score)
  }

  /** What it takes to be promoted, field by field; an absent number counts as zero. */
  predicate Passes(terms: Terms, parent: Evaluation, child: Evaluation) {
    var t, gain := terms.thresholds, OrZero(child.semantic) - OrZero(parent.semantic);
    && (terms.gate == None || terms.gate == Some(CorrectnessGate(true, false)))
    && child.success && child.valid && child.continuationVerified && child.offlineSimulation == Some(false)
    && (child.visualGate.None? || child.visualGate.value != VisualGate(true, false))
    && OrZero(child.semantic) >= t.teacherSemantic * t.semanticFloorRatio
    && QualityOrScore(child) >= QualityOrScore(parent) * t.qualityFloorRatio
    && (gain >= t.minSemanticDelta || (gain >= 0.0 && QualityOrScore(child) > QualityOrScore(parent)))
    && OrZero(child.qualityScore) - OrZero(parent.qualityScore) >= t.minQualityDelta
    && OrZero(parent.temporal) - OrZero(child.temporal) <= t.maxTemporalDrop
    && (t.releaseContract == "" || (child.contractMode == t.releaseContract && child.adaptiveRetryVerified))
  }

  lemma MeetsIff(terms: Terms, parent: Evaluation, child: Evaluation)
    ensures Meets(terms, parent, child) <==> Passes(terms, parent, child)
  {
  }

  lemma FailureNeverPasses(terms: Terms, parent: Evaluation, child: Evaluation)
    requires !child.success
    ensures !Passes(terms, parent, child)
  {
  }

  /** The full judgement accepts exactly the children that meet the terms. */
  function Judge(t: Thresholds, parent: Evaluation, candidate: Evaluation, gate: Option<CorrectnessGate>): (d: Decision)
    ensures d.accepted <==> Meets(Terms(t, gate), parent, candidate)
  {
    ApplyControllerGate(t, parent, candidate, CandidateDecision(t, parent, candidate, gate))
  }

  datatype Objection = Objection(raised: bool, reason: Reason)

  /** Everything that can speak against a child, the most important first. */
  function Objections(t: Thresholds, parent: Evaluation, child: Evaluation,
                      gate: Option<CorrectnessGate>): seq<Objection> {
    var release := t.releaseContract != "";
    var gain := Semantic(child) - Semantic(parent);
    [Objection(gate.Some? && !gate.value.passed, CorrectnessGatePending),
     Objection(gate.Some? && gate.value.legacyFrozen, LegacyFrozen),
     Objection(!(child.success && child.valid), EvaluationFailed),
     Objection(child.offlineSimulation != Some(false), OfflineSimulation),
     Objection(!child.continuationVerified, ContractInvalid),
     Objection(child.visualGate.Some? && child.visualGate.value == VisualGate(true, false), VisualCollapse),
     Objection(Semantic(child) < t.teacherSemantic * t.semanticFloorRatio, SemanticFloor),
     Objection(DecisionQuality(child) < DecisionQuality(parent) * t.qualityFloorRatio, QualityFloor),
     Objection(gain < t.minSemanticDelta
               && !(gain >= 0.0 && DecisionQuality(child) > DecisionQuality(parent)), NoImprovement),
     Objection(release && !child.adaptiveRetryVerified, AdaptiveRetryNotVerified),
     Objection(release && child.contractMode != t.releaseContract, ReleaseContractMismatch),
     Objection(GateQuality(child) < GateQuality(parent) + t.minQualityDelta, QualityNoImprovement),
     Objection(GateTemporal(child) < GateTemporal(parent) - t.maxTemporalDrop, TemporalRegression)]
  }

  /**
   A child is accepted when nothing speaks against it, with the improvement as the reason, and otherwise rejected for
   the most important objection.
   */
  lemma ReasonIsFirstObjection(t: Thresholds, parent: Evaluation, child: Evaluation, gate: Option<CorrectnessGate>)
    ensures var d, objections := Judge(t, parent, child, gate), Objections(t, parent, child, gate);
            && (d.accepted <==> forall k :: 0 <= k < |objections| ==> !objections[k].raised)
            && (d.accepted ==>
                  d.reason == if Semantic(child) >= Semantic(parent) + t.minSemanticDelta then SemanticImproved
                                           else QualityImproved)
            && (forall k ::
                  0 <= k < |objections| && objections[k].raised && (forall j :: 0 <= j < k ==> !objections[j].raised)
                  ==> d.reason == objections[k].reason)
  {
    var d, o := Judge(t, parent, child, gate), Objections(t, parent, child, gate);
    assert !d.accepted ==>
      || o[0].raised || o[1].raised || o[2].raised || o[3].raised || o[4].raised || o[5].raised || o[6].raised
      || o[7].raised || o[8].raised || o[9].raised || o[10].raised || o[11].raised || o[12].raised;
    forall k | 0 <= k < |o| && o[k].raised && (forall j :: 0 <= j < k ==> !o[j].raised)
      ensures d.reason == o[k].reason {
      assert (k > 0 ==> !o[0].raised) && (k > 1 ==> !o[1].raised) && (k > 2 ==> !o[2].raised)
             && (k > 3 ==> !o[3].raised);
      assert (k > 4 ==> !o[4].raised) && (k > 5 ==> !o[5].raised) && (k > 6 ==> !o[6].raised)
             && (k > 7 ==> !o[7].raised);
      assert (k > 8 ==> !o[8].raised) && (k > 9 ==> !o[9].raised) && (k > 10 ==> !o[10].raised)
             && (k > 11 ==> !o[11].raised);
    }
  }

  /** What the training worker left behind, with the exit code of its process. */
  datatype WorkerReport = WorkerReport(
    exitCode: int,
    success: bool,
    child: Digest,
    parent: Digest,
    offlineSimulation: Option<bool>,
    stepCheckpointIntact: bool,
    resumeConfigPresent: bool)

  datatype Training = Skipped | Failed | Succeeded(report: WorkerReport)

  /** A report tied to the checkpoint on disk and to the trusted parent. */
  predicate Bound(report: WorkerReport, childFile: Option<Digest>, parent: Digest) {
    && childFile == Some(report.child)
    && report.parent == parent
    && report.offlineSimulation == Some(false)
    && report.stepCheckpointIntact
    && report.resumeConfigPresent
  }

  /** `run_training` after the worker process ended. `report` is None when no result file exists. */
  function BindTraining(report: Option<WorkerReport>, childFile: Option<Digest>, parent: Digest): (t: Training)
    ensures t.Succeeded? <==> report.Some? && report.value.success
                              && (report.value.exitCode == 0 ==> Bound(report.value, childFile, parent))
    ensures t.Succeeded? ==> report == Some(t.report)
    ensures !t.Skipped?
  {
    match report
    case None => Failed
    case Some(r) =>
      if r.exitCode != 0 || !r.success then (if r.success then Succeeded(r) else Failed)
      else if childFile.None? then Failed
      else if childFile.value != r.child then Failed
      else if r.parent != parent then Failed
      else if r.offlineSimulation != Some(false) then Failed
      else if !r.stepCheckpointIntact then Failed
      else if !r.resumeConfigPresent then Failed
      else Succeeded(r)
  }

  /**
   The binding has a hole: a worker that wrote a success result and then exited with a nonzero
   code is returned unchecked, here with a foreign parent and no checkpoint at all.
   */
  lemma NonzeroExitSkipsBinding() returns (report: WorkerReport, parent: Digest)
    ensures BindTraining(Some(report), None, parent).Succeeded?
    ensures report.parent != parent && !Bound(report, None, parent)
  {
    report := WorkerReport(1, true, 7, 8, None, false, false);
    parent := 9;
  }

  /**
   A report is checked whatever checkpoint and parent it meets exactly when it does not
   combine a nonzero exit code with a success status.
   */
  lemma BindingHoldsIff(report: WorkerReport)
    ensures (forall childFile, parent ::
               BindTraining(Some(report), childFile, parent).Succeeded? ==> Bound(report, childFile, parent))
            <==> !(report.exitCode != 0 && report.success)
  {
    if report.exitCode != 0 && report.success {
      assert BindTraining(Some(report), None, report.parent).Succeeded? && !Bound(report, None, report.parent);
    }
  }
}
