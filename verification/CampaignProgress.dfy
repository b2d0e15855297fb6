/** What k promotions guarantee, and when they are progress. */
module CampaignProgress {
  import opened Wrappers
  import opened CampaignDecision
  import opened Campaign
  import opened CampaignInvariant
  import opened CampaignSafety
  import opened CampaignTraces

  /** What the first k promotions owed in quality. */
  function QualityOwed(terms: seq<Terms>, k: nat): real
    requires k <= |terms|
  {
    if k == 0 then 0.0 else QualityOwed(terms, k - 1) + terms[k - 1].thresholds.minQualityDelta
  }

  /** What the first k promotions were allowed to lose in temporal consistency. */
  function TemporalAllowed(terms: seq<Terms>, k: nat): real
    requires k <= |terms|
  {
    if k == 0 then 0.0 else TemporalAllowed(terms, k - 1) + terms[k - 1].thresholds.maxTemporalDrop
  }

  /** Quality and temporal consistency after k promotions, against the initial evaluation. */
  ghost predicate Climbed(terms: seq<Terms>, k: nat, first: Evaluation, now: Evaluation)
    requires k <= |terms|
  {
    && GateQuality(now) >= GateQuality(first) + QualityOwed(terms, k)
    && GateTemporal(now) >= GateTemporal(first) - TemporalAllowed(terms, k)
    && (k > 0 ==> Semantic(now) >= terms[k - 1].thresholds.teacherSemantic * terms[k - 1].thresholds.semanticFloorRatio)
  }

  /** After k promotions quality has risen and temporal consistency has fallen by at most the margins of each. */
  lemma {:induction false} PromotionLadder(c: Config, d: Disk, path: seq<nat>, terms: seq<Terms>, k: nat)
    requires Lineage(c, d, path, terms) && k <= |path| && d.cachedParentEval.Some?
    ensures EvalAt(d, path, k).Some?
    ensures Climbed(terms, k, d.cachedParentEval.value, EvalAt(d, path, k).value)
  {
    if k > 0 {
      PromotionLadder(c, d, path, terms, k - 1);
      assert LinkAt(c, d, path, terms, k - 1);
    }
  }

  /** The ladder from the initial evaluation to the stored one, on any run. */
  lemma StoredParentImproves(c: Config, trace: seq<Sys>, actions: seq<Action>, k: nat)
    requires Run(c, trace, actions) && k < |trace| && trace[k].disk.state.Some?
    ensures trace[k].disk.cachedParentEval.Some? && |trace[k].terms| == |trace[k].path|
    ensures Climbed(trace[k].terms, |trace[k].path|, trace[k].disk.cachedParentEval.value,
                    trace[k].disk.state.value.parentEval)
  {
    ParentLineage(c, trace, actions, k);
    var s := trace[k];
    if s.path != [] {
      assert LinkAt(c, s.disk, s.path, s.terms, 0);
    }
    PromotionLadder(c, s.disk, s.path, s.terms, |s.path|);
  }

  // ----- One set of thresholds for all promotions

  ghost predicate AllAre(terms: seq<Terms>, t: Thresholds) {
    forall j :: 0 <= j < |terms| ==> terms[j].thresholds == t
  }

  /** The ladder has equal rungs when the thresholds were never edited. */
  lemma {:induction false} EqualRungs(terms: seq<Terms>, t: Thresholds, k: nat)
    requires AllAre(terms, t) && k <= |terms|
    ensures QualityOwed(terms, k) == k as real * t.minQualityDelta
    ensures TemporalAllowed(terms, k) == k as real * t.maxTemporalDrop
  {
    if k > 0 {
      EqualRungs(terms, t, k - 1);
      OneMore(k, t.minQualityDelta);
      OneMore(k, t.maxTemporalDrop);
    }
  }

  lemma OneMore(k: nat, x: real)
    requires k > 0
    ensures k as real * x == (k - 1) as real * x + x
  {
    assert k as real == (k - 1) as real + 1.0;
  }

  ghost predicate FromLaunches(terms: seq<Terms>, proc: Option<Proc>, t: Thresholds) {
    AllAre(terms, t) && (proc.Some? ==> proc.value.settings.thresholds == t)
  }

  lemma MarginsStep(c: Config, s: Sys, a: Action, s': Sys, t: Thresholds)
    requires Next(c, s, a) == Some(s') && FromLaunches(s.terms, s.proc, t)
    requires a.Launch? ==> a.settings.thresholds == t
    ensures FromLaunches(s'.terms, s'.proc, t)
  {
    hide Judge, BindTraining, StartRound, Dir;
  }

  /** Every promotion of a run met the thresholds of its launch. */
  lemma {:induction false} MarginsOfRun(c: Config, trace: seq<Sys>, actions: seq<Action>, settings: Settings, k: nat)
    requires Run(c, trace, actions) && Under(actions, settings) && k < |trace|
    ensures FromLaunches(trace[k].terms, trace[k].proc, settings.thresholds)
  {
    hide Next;
    if k > 0 {
      MarginsOfRun(c, trace, actions, settings, k - 1);
      assert Next(c, trace[k - 1], actions[k - 1]) == Some(trace[k]);
      assert actions[k - 1] in actions;
      MarginsStep(c, trace[k - 1], actions[k - 1], trace[k], settings.thresholds);
    }
  }

  // ----- Progress

  /** The order in which a semantic margin makes promotions progress: semantic score first, then decision quality. */
  predicate Better(child: Evaluation, parent: Evaluation) {
    Semantic(child) > Semantic(parent)
    || (Semantic(child) == Semantic(parent) && DecisionQuality(child) > DecisionQuality(parent))
  }

  /** Some score that promotions look at has risen. */
  predicate Ahead(child: Evaluation, parent: Evaluation) {
    || Semantic(child) > Semantic(parent) || DecisionQuality(child) > DecisionQuality(parent)
    || GateQuality(child) > GateQuality(parent)
  }

  /** With positive semantic margins every later parent is strictly better than every earlier one. */
  lemma {:induction false} SemanticProgress(c: Config, d: Disk, path: seq<nat>, terms: seq<Terms>, i: nat,
                                            k: nat)
    requires Lineage(c, d, path, terms) && i < k <= |path| && d.cachedParentEval.Some?
    requires forall j :: i <= j < k ==> terms[j].thresholds.minSemanticDelta > 0.0
    ensures EvalAt(d, path, i).Some? && EvalAt(d, path, k).Some?
    ensures Better(EvalAt(d, path, k).value, EvalAt(d, path, i).value)
    decreases k
  {
    PromotionLadder(c, d, path, terms, i);
    PromotionLadder(c, d, path, terms, k);
    assert LinkAt(c, d, path, terms, k - 1);
    if i < k - 1 { SemanticProgress(c, d, path, terms, i, k - 1); }
  }

  /** With positive quality margins the quality score of every later parent is strictly higher. */
  lemma {:induction false} QualityProgress(c: Config, d: Disk, path: seq<nat>, terms: seq<Terms>, i: nat, k: nat)
    requires Lineage(c, d, path, terms) && i < k <= |path| && d.cachedParentEval.Some?
    requires forall j :: i <= j < k ==> terms[j].thresholds.minQualityDelta > 0.0
    ensures EvalAt(d, path, i).Some? && EvalAt(d, path, k).Some?
    ensures GateQuality(EvalAt(d, path, k).value) > GateQuality(EvalAt(d, path, i).value)
    decreases k
  {
    PromotionLadder(c, d, path, terms, i);
    PromotionLadder(c, d, path, terms, k);
    assert LinkAt(c, d, path, terms, k - 1);
    if i < k - 1 { QualityProgress(c, d, path, terms, i, k - 1); }
  }

  /** The parent and a child that differs from it only in the temporal score, by all it may lose. */
  function Stagnating(t: Thresholds, parent: Digest, child: Digest): (Evaluation, Evaluation) {
    var floor := t.teacherSemantic * t.semanticFloorRatio;
    var e := Evaluation(parent, true, true, Some(false), true, None, Some(1.0), None, Some(floor), Some(1.0),
                        t.releaseContract, true);
    (e, e.(subject := child, temporal := Some(1.0 - t.maxTemporalDrop)))
  }

  lemma StagnatingIsPromoted(t: Thresholds, parent: Digest, child: Digest)
    requires t.qualityFloorRatio <= 1.0 && t.minSemanticDelta <= 0.0 && t.minQualityDelta <= 0.0
    ensures var (e, e') := Stagnating(t, parent, child);
            && Judge(t, e, e', None).accepted && !Ahead(e', e)
            && GateTemporal(e') == GateTemporal(e) - t.maxTemporalDrop
  {
  }

  /** One promotion is progress whatever the scores are exactly when one of the two margins is positive. */
  lemma PromotionProgressIff(t: Thresholds)
    requires 0.0 < t.qualityFloorRatio <= 1.0
    ensures (forall parent, child, gate :: Judge(t, parent, child, gate).accepted ==> Ahead(child, parent))
            <==> t.minSemanticDelta > 0.0 || t.minQualityDelta > 0.0
  {
    if t.minSemanticDelta <= 0.0 && t.minQualityDelta <= 0.0 {
      StagnatingIsPromoted(t, 0, 1);
      var (e, e') := Stagnating(t, 0, 1);
      assert Judge(t, e, e', None).accepted && !Ahead(e', e);
    }
  }

  /** Every later parent of a state is ahead of every earlier one. */
  ghost predicate Progresses(s: Sys) {
    forall i, k :: 0 <= i < k <= |s.path| && EvalAt(s.disk, s.path, i).Some? && EvalAt(s.disk, s.path, k).Some? ==>
      Ahead(EvalAt(s.disk, s.path, k).value, EvalAt(s.disk, s.path, i).value)
  }

  lemma MarginsGiveProgress(c: Config, trace: seq<Sys>, actions: seq<Action>, settings: Settings, k: nat)
    requires Run(c, trace, actions) && Under(actions, settings) && k < |trace|
    requires settings.thresholds.minSemanticDelta > 0.0 || settings.thresholds.minQualityDelta > 0.0
    ensures Progresses(trace[k])
  {
    var s := trace[k];
    RunInv(c, trace, actions, k);
    MarginsOfRun(c, trace, actions, settings, k);
    hide Run, Under, Ahead, Better, Link;
    assert ParentInv(c, s.disk, s.path, s.terms);
    forall i, j | 0 <= i < j <= |s.path| && EvalAt(s.disk, s.path, i).Some? && EvalAt(s.disk, s.path, j).Some?
      ensures Ahead(EvalAt(s.disk, s.path, j).value, EvalAt(s.disk, s.path, i).value)
    {
      InitialEvaluationKnown(c, s);
      if settings.thresholds.minSemanticDelta > 0.0 {
        SemanticProgress(c, s.disk, s.path, s.terms, i, j);
        BetterIsAhead(EvalAt(s.disk, s.path, j).value, EvalAt(s.disk, s.path, i).value);
      } else {
        QualityProgress(c, s.disk, s.path, s.terms, i, j);
        BetterIsAhead(EvalAt(s.disk, s.path, j).value, EvalAt(s.disk, s.path, i).value);
      }
    }
  }

  lemma InitialEvaluationKnown(c: Config, s: Sys)
    requires ParentInv(c, s.disk, s.path, s.terms) && s.path != []
    ensures s.disk.cachedParentEval.Some?
  {
    assert LinkAt(c, s.disk, s.path, s.terms, 0);
  }

  lemma BetterIsAhead(child: Evaluation, parent: Evaluation)
    ensures Better(child, parent) || GateQuality(child) > GateQuality(parent) ==> Ahead(child, parent)
  {
  }

  /**
   Under one set of settings, every later parent of every run is ahead of every earlier one exactly when one of the
   two margins is positive. With neither, as in the shipped configuration, a run promotes a child that is ahead in
   nothing and has lost temporal consistency.
   */
  lemma ProgressIff(c: Config, settings: Settings)
    requires 0.0 < settings.thresholds.qualityFloorRatio <= 1.0
    ensures (forall trace, actions, k :: Run(c, trace, actions) && Under(actions, settings) && 0 <= k < |trace| ==>
               Progresses(trace[k]))
            <==> settings.thresholds.minSemanticDelta > 0.0 || settings.thresholds.minQualityDelta > 0.0
  {
    if settings.thresholds.minSemanticDelta > 0.0 || settings.thresholds.minQualityDelta > 0.0 {
      forall trace, actions, k: nat | Run(c, trace, actions) && Under(actions, settings) && k < |trace|
        ensures Progresses(trace[k])
      {
        MarginsGiveProgress(c, trace, actions, settings, k);
      }
    } else {
      var trace, actions, s := StagnationHappens(c, settings);
      assert !Progresses(trace[|actions|]);
    }
  }

  lemma StagnationHappens(c: Config, settings: Settings) returns (trace: seq<Sys>, actions: seq<Action>, s: Sys)
    requires 0.0 < settings.thresholds.qualityFloorRatio <= 1.0
    requires settings.thresholds.minSemanticDelta <= 0.0 && settings.thresholds.minQualityDelta <= 0.0
    ensures Run(c, trace, actions) && trace[|actions|] == s && Under(actions, settings)
    ensures s.path == [1] && !Progresses(s)
    ensures s.disk.state.Some? && s.disk.cachedParentEval.Some?
    ensures GateTemporal(s.disk.state.value.parentEval)
            == GateTemporal(s.disk.cachedParentEval.value) - settings.thresholds.maxTemporalDrop
  {
    var (initial, candidate) := Stagnating(settings.thresholds, c.initial, c.initial + 1);
    StagnatingIsPromoted(settings.thresholds, c.initial, c.initial + 1);
    hide Ahead, Judge;
    trace, actions, s := PromotionHappens(c, settings, initial, candidate, None);
    assert EvalAt(s.disk, s.path, 0) == Some(initial) && EvalAt(s.disk, s.path, 1) == Some(candidate);
  }
}
