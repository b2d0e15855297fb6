/** The campaign invariant at the start of a process and of a round, and under a write into the current round. */
module CampaignFrames {
  import opened Wrappers
  import opened CampaignDecision
  import opened Campaign
  import opened CampaignInvariant

  lemma InitInv(c: Config)
    ensures Inv(c, INIT)
  {
  }

  /** Lineage reads only the rounds on the path, their child files and the cached parent evaluation. */
  lemma LineageFrame(c: Config, d: Disk, d': Disk, path: seq<nat>, terms: seq<Terms>)
    requires Lineage(c, d, path, terms)
    requires forall k :: 0 <= k < |path| ==>
               Dir(d', path[k]) == Dir(d, path[k]) && ChildFile(d', path[k]) == ChildFile(d, path[k])
    requires path != [] ==> d'.cachedParentEval == d.cachedParentEval
    ensures Lineage(c, d', path, terms)
    ensures DigestAt(c, d', path, |path|) == DigestAt(c, d, path, |path|)
    ensures path != [] ==> EvalAt(d', path, |path|) == EvalAt(d, path, |path|)
  {
    forall k | 0 <= k < |path|
      ensures LinkAt(c, d', path, terms, k)
    {
      assert LinkAt(c, d, path, terms, k);
      if k > 0 { assert Dir(d', path[k - 1]) == Dir(d, path[k - 1]); }
    }
  }

  // ----- Starting and stopping

  lemma LaunchPreserves(c: Config, d: Disk, settings: Settings, trained: set<(nat, Fingerprint)>)
    requires OrderInv(d) && ResumeInv(d, trained)
    ensures StartupInv(c, d, Start(c, d, settings))
  {
    forall i: nat | Touched(d, i) ensures i in d.rounds {}
    forall i: nat | Complete(d, i) ensures i in CompleteRounds(d) {}
  }

  lemma MarkPreserves(c: Config, d: Disk, trained: set<(nat, Fingerprint)>, p: Proc, r: nat)
    requires OrderInv(d) && ResumeInv(d, trained) && p.pc.Startup? && StartupInv(c, d, p) && r in p.pc.todo
    ensures var d' := WithDir(d, r, Dir(d, r).(decision := Some(INCOMPLETE)));
            && OrderInv(d') && ResumeInv(d', trained)
            && StartupInv(c, d', p.(failed := p.failed + {r}, pc := p.pc.(todo := p.pc.todo - {r})))
  {
    var d' := WithDir(d, r, Dir(d, r).(decision := Some(INCOMPLETE)));
    assert forall i: nat :: i != r ==> Dir(d', i) == Dir(d, i);
    assert forall i: nat :: Touched(d', i) <==> Touched(d, i);
    assert forall i: nat :: i != r ==> Complete(d', i) == Complete(d, i);
  }

  lemma SaveStartPreserves(c: Config, d: Disk, trained: set<(nat, Fingerprint)>, p: Proc, ev: Evaluation)
    requires OrderInv(d) && ResumeInv(d, trained) && p.pc.Startup? && StartupInv(c, d, p) && p.pc.todo == {}
    requires StartEval(d, p) == Some(ev)
    ensures var r := StartRound(d, p);
            var d' := d.(state := Some(State(r, p.failed, p.parentRef, p.parentDigest, ev)));
            && OrderInv(d') && ResumeInv(d', trained)
            && AtRoundInv(d', p.(pc := AtRound(r), memFailed := p.failed, parentEval := Some(ev)))
  {
    var r := StartRound(d, p);
    var d' := d.(state := Some(State(r, p.failed, p.parentRef, p.parentDigest, ev)));
    assert forall i: nat ::
             Dir(d', i) == Dir(d, i) && Touched(d', i) == Touched(d, i) && Complete(d', i) == Complete(d, i);
    forall i: nat | Dir(d', i).stepCheckpoint && Dir(d', i).training.None? ensures ResumeReady(d', trained, i) {
      assert ResumeReady(d, trained, i);
    }
  }

  // ----- Inside a round

  lemma PathIsComplete(c: Config, d: Disk, path: seq<nat>, terms: seq<Terms>, r: nat)
    requires Lineage(c, d, path, terms) && r in path
    ensures AcceptedRound(d, r)
  {
    var k :| 0 <= k < |path| && path[k] == r;
    assert LinkAt(c, d, path, terms, k);
  }

  lemma PutKeepsOrder(d: Disk, p: Proc, r: nat, dir: RoundDir)
    requires OrderInv(d) && Current(d, p, r) && dir.proposal.Some?
    ensures OrderInv(WithDir(d, r, dir)) && Current(WithDir(d, r, dir), p, r)
  {
    var d' := WithDir(d, r, dir);
    assert forall i: nat :: i != r ==>
             Dir(d', i) == Dir(d, i) && Touched(d', i) == Touched(d, i) && Complete(d', i) == Complete(d, i);
  }

  /** A write into the current round directory keeps what is on disk consistent. */
  lemma PutPreserves(c: Config, d: Disk, trained: set<(nat, Fingerprint)>, trained': set<(nat, Fingerprint)>,
                     path: seq<nat>, terms: seq<Terms>, p: Proc, r: nat, dir: RoundDir)
    requires DiskInv(c, d, trained, path, terms) && Current(d, p, r) && !Complete(d, r) && dir.proposal.Some?
    requires trained <= trained'
    requires forall i: nat, f: Fingerprint :: (i, f) in trained' && (i, f) !in trained ==>
               i == r && f in d.fingerprints && d.fingerprints[f] == r
    requires forall f: Fingerprint :: (r, f) in trained' ==> dir.fingerprint == Some(FingerprintFile(f, false))
    requires dir.stepCheckpoint && dir.training.None? ==> ResumeReady(WithDir(d, r, dir), trained', r)
    ensures DiskInv(c, WithDir(d, r, dir), trained', path, terms) && Current(WithDir(d, r, dir), p, r)
  {
    var d' := WithDir(d, r, dir);
    PutKeepsOrder(d, p, r, dir);
    assert forall i: nat :: i != r ==> Dir(d', i) == Dir(d, i);
    forall i: nat | Dir(d', i).stepCheckpoint && Dir(d', i).training.None? ensures ResumeReady(d', trained', i) {
      if i != r { assert ResumeReady(d, trained, i); }
    }
    forall k | 0 <= k < |path| ensures path[k] != r {
      PathIsComplete(c, d, path, terms, path[k]);
    }
    LineageFrame(c, d, d', path, terms);
  }

  /** Writing the round directory moves neither the process fields nor the accounting, unless it decides. */
  lemma PutStep(c: Config, s: Sys, trained': set<(nat, Fingerprint)>, p: Proc, r: nat, dir: RoundDir, pc': Pc)
    requires Inv(c, s) && Current(s.disk, p, r) && !Complete(s.disk, r) && dir.proposal.Some? && dir.decision.None?
    requires Window(s) == {} && !pc'.SavingState? && !pc'.Startup? && !pc'.AtRound? && pc'.round == r
    requires s.trained <= trained'
    requires forall i: nat, f: Fingerprint :: (i, f) in trained' && (i, f) !in s.trained ==>
               i == r && f in s.disk.fingerprints && s.disk.fingerprints[f] == r
    requires forall f: Fingerprint :: (r, f) in trained' ==> dir.fingerprint == Some(FingerprintFile(f, false))
    requires dir.stepCheckpoint && dir.training.None? ==> ResumeReady(WithDir(s.disk, r, dir), trained', r)
    requires PointInv(c, WithDir(s.disk, r, dir), trained', p.(pc := pc'), dir)
    ensures Inv(c, Put(s, p, r, dir, pc').(trained := trained'))
  {
    var d, d' := s.disk, WithDir(s.disk, r, dir);
    PutPreserves(c, d, s.trained, trained', s.path, s.terms, p, r, dir);
    assert forall i: nat :: i != r ==> Dir(d', i) == Dir(d, i);
    assert forall i: nat :: AcceptedRound(d', i) == AcceptedRound(d, i);
    assert Current(d', p.(pc := pc'), r);
  }

  lemma SkipStep(d: Disk, p: Proc, r: nat)
    requires p.pc == AtRound(r) && AtRoundInv(d, p) && r in p.failed && r !in p.resumable
    ensures AtRoundInv(d, p.(pc := AtRound(r + 1)))
  {
    assert Touched(d, r);
    assert forall i: nat :: i in p.resumable ==> Touched(d, i) && i !in p.failed;
  }

  lemma SkipFailedPreserves(c: Config, s: Sys, p: Proc, s': Sys)
    requires Inv(c, s) && s.proc == Some(p) && p.pc.AtRound?
    requires NextAtRound(c, s, p, SkipFailed) == Some(s')
    ensures Inv(c, s')
  {
    SkipStep(s.disk, p, p.pc.round);
  }

  /** Two disks with the same round directories and the same state file. */
  ghost predicate SameRounds(d: Disk, d': Disk) {
    d'.rounds == d.rounds && d'.state == d.state && d'.cachedParentEval == d.cachedParentEval
  }

  lemma SameRoundsKeepOrder(d: Disk, d': Disk, trained: set<(nat, Fingerprint)>)
    requires OrderInv(d) && ResumeInv(d, trained) && SameRounds(d, d')
    ensures OrderInv(d') && ResumeInv(d', trained)
    ensures forall i: nat ::
              Dir(d', i) == Dir(d, i) && Touched(d', i) == Touched(d, i) && Complete(d', i) == Complete(d, i)
  {
    assert forall i: nat ::
             Dir(d', i) == Dir(d, i) && Touched(d', i) == Touched(d, i) && Complete(d', i) == Complete(d, i);
    forall i: nat | Dir(d', i).stepCheckpoint && Dir(d', i).training.None? ensures ResumeReady(d', trained, i) {
      assert ResumeReady(d, trained, i);
    }
  }

  lemma SameRoundsKeepCurrent(d: Disk, d': Disk, p: Proc, r: nat)
    requires SameRounds(d, d') && Current(d, p, r)
    ensures Current(d', p, r)
  {
    assert forall i: nat ::
             Dir(d', i) == Dir(d, i) && Touched(d', i) == Touched(d, i) && Complete(d', i) == Complete(d, i);
  }

  lemma FreshRoundIsCurrent(d: Disk, p: Proc, r: nat, pc: Pc)
    requires p.pc == AtRound(r) && OrderInv(d) && AtRoundInv(d, p) && r !in p.failed && r !in p.resumable
    ensures Current(d, p.(pc := pc), r) && Dir(d, r) == EMPTY_ROUND
  {
    assert !Touched(d, r);
  }

  lemma ProposePreserves(c: Config, s: Sys, p: Proc, proposal: Proposal, s': Sys)
    requires Inv(c, s) && s.proc == Some(p) && p.pc.AtRound?
    requires NextAtRound(c, s, p, Propose(proposal)) == Some(s')
    ensures Inv(c, s')
  {
    var r, d, d' := p.pc.round, s.disk, s'.disk;
    FreshRoundIsCurrent(d, p, r, s'.proc.value.pc);
    SameRoundsKeepOrder(d, d', s.trained);
    SameRoundsKeepCurrent(d, d', s'.proc.value, r);
    LineageFrame(c, d, d', s.path, s.terms);
    assert TrainedInv(d', s.trained);
    assert PointInv(c, d', s.trained, s'.proc.value, Dir(d', r));
  }

  lemma ResumePreserves(c: Config, s: Sys, p: Proc, s': Sys)
    requires Inv(c, s) && s.proc == Some(p) && p.pc.AtRound?
    requires NextAtRound(c, s, p, Resume) == Some(s')
    ensures Inv(c, s')
  {
    var r, d := p.pc.round, s.disk;
    assert AtRoundInv(d, p);
    assert ResumeReady(d, s.trained, r);
    assert Current(d, s'.proc.value, r);
  }
}
