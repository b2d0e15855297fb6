/** What holds over every run of the campaign, with crashes and restarts at any durable write. */
module CampaignSafety {
  import opened Wrappers
  import opened CampaignDecision
  import opened Campaign
  import opened CampaignInvariant
  import opened CampaignFrames
  import opened CampaignProof

  lemma {:induction false} RunInv(c: Config, trace: seq<Sys>, actions: seq<Action>, k: nat)
    requires Run(c, trace, actions) && k < |trace|
    ensures Inv(c, trace[k])
  {
    hide Inv;
    if k == 0 {
      InitInv(c);
    } else {
      RunInv(c, trace, actions, k - 1);
      assert Next(c, trace[k - 1], actions[k - 1]) == Some(trace[k]);
      NextPreserves(c, trace[k - 1], actions[k - 1], trace[k]);
    }
  }

  lemma ExtendRun(c: Config, trace: seq<Sys>, actions: seq<Action>, a: Action, s': Sys)
    requires Run(c, trace, actions) && Next(c, trace[|actions|], a) == Some(s')
    ensures Run(c, trace + [s'], actions + [a])
  {
    hide Next;
    var trace', actions' := trace + [s'], actions + [a];
    forall k | 0 <= k < |actions'| ensures Next(c, trace'[k], actions'[k]) == Some(trace'[k + 1]) {
      if k < |actions| {
        assert Next(c, trace[k], actions[k]) == Some(trace[k + 1]);
      }
    }
  }

  predicate InRound(p: Proc) {
    !p.pc.Startup? && !p.pc.AtRound?
  }

  lemma InRoundPoint(c: Config, s: Sys)
    requires Inv(c, s) && s.proc.Some? && InRound(s.proc.value)
    ensures PointInv(c, s.disk, s.trained, s.proc.value, Dir(s.disk, s.proc.value.pc.round))
  {
  }

  // ----- Rounds

  /** One action leaves a complete round directory and its child alone and never trains it again. */
  lemma CompleteRoundStep(c: Config, s: Sys, a: Action, s': Sys, r: nat)
    requires Inv(c, s) && Next(c, s, a) == Some(s') && Complete(s.disk, r)
    ensures Dir(s'.disk, r) == Dir(s.disk, r) && ChildFile(s'.disk, r) == ChildFile(s.disk, r)
    ensures forall f: Fingerprint :: (r, f) in s'.trained ==> (r, f) in s.trained
  {
    if s.proc.Some? && !a.Crash? {
      var p := s.proc.value;
      match p.pc
      case Startup(_, _) => assert StartupInv(c, s.disk, p);
      case AtRound(_) =>
      case _ =>
        assert PointInv(c, s.disk, s.trained, p, Dir(s.disk, p.pc.round));
        CompleteRoundInRound(c, s, p, a, s', r);
    }
  }

  lemma CompleteRoundInRound(c: Config, s: Sys, p: Proc, a: Action, s': Sys, r: nat)
    requires !p.pc.Startup? && !p.pc.AtRound? && PointInv(c, s.disk, s.trained, p, Dir(s.disk, p.pc.round))
    requires NextInRound(c, s, p, a) == Some(s') && Complete(s.disk, r)
    ensures Dir(s'.disk, r) == Dir(s.disk, r) && ChildFile(s'.disk, r) == ChildFile(s.disk, r)
    ensures forall f: Fingerprint :: (r, f) in s'.trained ==> (r, f) in s.trained
  {
    hide Judge, BindTraining, JudgedInv, TrainedFrom, Registered;
    if p.pc.SavingState? {
      assert s'.disk.rounds == s.disk.rounds && s'.trained == s.trained;
    } else {
      assert p.pc.round != r;
    }
  }

  /** No complete round is ever executed again: its directory, its child and its training history stay. */
  lemma {:induction false} CompleteRoundsAreFrozen(c: Config, trace: seq<Sys>, actions: seq<Action>, i: nat, j: nat,
                                                   r: nat)
    requires Run(c, trace, actions) && i <= j < |trace| && Complete(trace[i].disk, r)
    ensures Dir(trace[j].disk, r) == Dir(trace[i].disk, r) && ChildFile(trace[j].disk, r) == ChildFile(trace[i].disk, r)
    ensures forall f: Fingerprint :: (r, f) in trace[j].trained ==> (r, f) in trace[i].trained
    decreases j
  {
    hide Inv;
    if i < j {
      CompleteRoundsAreFrozen(c, trace, actions, i, j - 1, r);
      RunInv(c, trace, actions, j - 1);
      assert Next(c, trace[j - 1], actions[j - 1]) == Some(trace[j]);
      CompleteRoundStep(c, trace[j - 1], actions[j - 1], trace[j], r);
    }
  }

  /** A round with artifacts that is neither complete nor recorded as failed. */
  ghost predicate Open(d: Disk, r: nat) {
    Interrupted(d, r) && r !in FailedOnDisk(d)
  }

  /** At most one round is open, and it is the highest-numbered round with artifacts. */
  lemma OpenRoundIsHighest(c: Config, trace: seq<Sys>, actions: seq<Action>, k: nat, r: nat)
    requires Run(c, trace, actions) && k < |trace| && Open(trace[k].disk, r)
    ensures forall i: nat :: Touched(trace[k].disk, i) ==> i <= r
    ensures forall i: nat :: Open(trace[k].disk, i) ==> i == r
  {
    RunInv(c, trace, actions, k);
    assert OrderInv(trace[k].disk);
    hide DiskInv;
  }

  /** No fingerprint is trained under two rounds, and no round trains two fingerprints. */
  lemma TrainedOnce(c: Config, trace: seq<Sys>, actions: seq<Action>, k: nat, r1: nat, f1: Fingerprint, r2: nat,
                    f2: Fingerprint)
    requires Run(c, trace, actions) && k < |trace|
    requires (r1, f1) in trace[k].trained && (r2, f2) in trace[k].trained
    ensures f1 == f2 <==> r1 == r2
  {
    RunInv(c, trace, actions, k);
    assert TrainedInv(trace[k].disk, trace[k].trained);
    hide DiskInv;
  }

  // ----- Restarting

  /** The restart checks never reject: the parent file has the stored digest whenever a process starts. */
  lemma StartNeverRejects(c: Config, trace: seq<Sys>, actions: seq<Action>, k: nat)
    requires Run(c, trace, actions) && k < |trace| && trace[k].proc.Some?
    requires trace[k].proc.value.pc.Startup? && trace[k].proc.value.pc.todo == {}
    requires StartEval(trace[k].disk, trace[k].proc.value).Some?
    ensures Next(c, trace[k], SaveStart).Some?
  {
    RunInv(c, trace, actions, k);
    var s := trace[k];
    assert ParentInv(c, s.disk, s.path, s.terms) && StartupInv(c, s.disk, s.proc.value);
    assert s.path != [] ==> DigestAt(c, s.disk, s.path, |s.path|) == ChildFile(s.disk, s.path[|s.path| - 1]);
  }

  // ----- Lineage

  /** The stored parent ends a chain of accepted rounds from the configured parent; its evaluation is its own. */
  lemma ParentLineage(c: Config, trace: seq<Sys>, actions: seq<Action>, k: nat)
    requires Run(c, trace, actions) && k < |trace| && trace[k].disk.state.Some?
    ensures Lineage(c, trace[k].disk, trace[k].path, trace[k].terms)
    ensures var st := trace[k].disk.state.value;
            IsParent(c, trace[k].disk, trace[k].path, st.parentRef, st.parentDigest, st.parentEval)
  {
    RunInv(c, trace, actions, k);
    assert ParentInv(c, trace[k].disk, trace[k].path, trace[k].terms);
    hide DiskInv, Lineage, IsParent;
  }

  // ----- The window between decision and state

  /**
   An accepted complete round is exactly one that was promoted, was orphaned by a crash, or is about to be
   promoted.
   */
  lemma AcceptedRoundsAccounted(c: Config, trace: seq<Sys>, actions: seq<Action>, k: nat, r: nat)
    requires Run(c, trace, actions) && k < |trace|
    ensures AcceptedRound(trace[k].disk, r) <==> r in trace[k].path || r in trace[k].orphaned || r in Window(trace[k])
    ensures r in trace[k].path ==> r !in trace[k].orphaned
  {
    RunInv(c, trace, actions, k);
    assert AccountingInv(trace[k].disk, trace[k].path, trace[k].orphaned, Window(trace[k]));
    hide DiskInv;
  }

  lemma {:induction false} OrphanedStays(c: Config, trace: seq<Sys>, actions: seq<Action>, i: nat, j: nat, r: nat)
    requires Run(c, trace, actions) && i <= j < |trace| && r in trace[i].orphaned
    ensures r in trace[j].orphaned
    decreases j
  {
    if i < j {
      OrphanedStays(c, trace, actions, i, j - 1, r);
      assert Next(c, trace[j - 1], actions[j - 1]) == Some(trace[j]);
    }
  }

  /** A child orphaned in the window stays accepted on disk and never becomes a parent. */
  lemma OrphanNeverPromoted(c: Config, trace: seq<Sys>, actions: seq<Action>, i: nat, j: nat, r: nat)
    requires Run(c, trace, actions) && i <= j < |trace| && r in trace[i].orphaned
    ensures AcceptedRound(trace[j].disk, r) && r !in trace[j].path
  {
    OrphanedStays(c, trace, actions, i, j, r);
    AcceptedRoundsAccounted(c, trace, actions, j, r);
  }
}
