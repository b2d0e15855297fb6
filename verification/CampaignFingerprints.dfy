/** What becomes of registered fingerprints: who may resume them, and which crashes lose them. */
module CampaignFingerprints {
  import opened Wrappers
  import opened CampaignDecision
  import opened Campaign
  import opened CampaignInvariant
  import opened CampaignSafety
  import opened CampaignTraces

  // ----- Where fingerprints come from

  /** The fingerprint is that of the round's proposal, as one of these launches computes it. */
  ghost predicate Signed(c: Config, d: Disk, identities: set<Identity>, r: nat, f: Fingerprint) {
    && Dir(d, r).proposal.Some?
    && exists id ::
         id in identities && f == c.fingerprintOf(Dir(d, r).proposal.value, Dir(d, r).proposal.value.parent, id)
  }

  ghost predicate SignedInv(c: Config, s: Sys) {
    && (s.proc.Some? ==> s.proc.value.settings.identity in s.identities)
    && (forall r: nat, f: Fingerprint :: (r, f) in s.trained ==> Signed(c, s.disk, s.identities, r, f))
  }

  /** There is a training result, or a step checkpoint to resume from. */
  predicate Worked(dir: RoundDir) {
    dir.training.Some? || dir.stepCheckpoint
  }

  /** A fingerprint file that is no duplicate names a fingerprint its own round registered; only workers leave work. */
  ghost predicate FilesInv(s: Sys) {
    forall r: nat, f: Fingerprint :: Dir(s.disk, r).fingerprint == Some(FingerprintFile(f, false)) ==>
      && f in s.disk.fingerprints && s.disk.fingerprints[f] == r
      && (Worked(Dir(s.disk, r)) ==> (r, f) in s.trained)
  }

  /** What fingerprints and training look at in a round directory. */
  predicate SameWork(dir: RoundDir, dir': RoundDir) {
    && dir'.proposal == dir.proposal && dir'.fingerprint == dir.fingerprint
    && dir'.training == dir.training && dir'.stepCheckpoint == dir.stepCheckpoint
  }

  /** Outside a round, and in every other round, nothing of that changes. */
  lemma OtherRoundsStay(c: Config, s: Sys, a: Action, s': Sys, r: nat)
    requires Next(c, s, a) == Some(s')
    requires s.proc.Some? && InRound(s.proc.value) ==> a.Crash? || r != s.proc.value.pc.round
    ensures SameWork(Dir(s.disk, r), Dir(s'.disk, r))
  {
    hide Judge, BindTraining, StartRound;
  }

  /** Only a proposal registers a fingerprint, and never one again. */
  lemma FingerprintsGrow(c: Config, s: Sys, a: Action, s': Sys, f: Fingerprint)
    requires Next(c, s, a) == Some(s') && f in s.disk.fingerprints
    ensures f in s'.disk.fingerprints && s'.disk.fingerprints[f] == s.disk.fingerprints[f]
  {
    hide Judge, BindTraining, StartRound, Dir;
  }

  /** A write never changes the proposal of a round whose worker was started. */
  lemma TrainedKeepsProposal(c: Config, s: Sys, a: Action, s': Sys, r: nat, f: Fingerprint)
    requires Inv(c, s) && Next(c, s, a) == Some(s') && (r, f) in s.trained
    ensures Dir(s'.disk, r).proposal == Dir(s.disk, r).proposal
  {
    assert TrainedInv(s.disk, s.trained);
    if s.proc.Some? && InRound(s.proc.value) && !a.Crash? && r == s.proc.value.pc.round {
      InRoundPoint(c, s);
      hide Inv, Judge, BindTraining;
    } else {
      hide Inv;
      OtherRoundsStay(c, s, a, s', r);
    }
  }

  lemma StartedIsSigned(c: Config, s: Sys, s': Sys)
    requires Inv(c, s) && SignedInv(c, s) && s.proc.Some? && InRound(s.proc.value)
    requires NextInRound(c, s, s.proc.value, StartTraining) == Some(s')
    ensures Signed(c, s'.disk, s'.identities, s.proc.value.pc.round, s.proc.value.pc.fingerprint)
  {
    InRoundPoint(c, s);
    hide Inv;
  }

  lemma NewlyTrained(c: Config, s: Sys, a: Action, s': Sys, r: nat, f: Fingerprint)
    requires Next(c, s, a) == Some(s') && (r, f) in s'.trained && (r, f) !in s.trained
    ensures s.proc.Some? && InRound(s.proc.value) && a.StartTraining? && NextInRound(c, s, s.proc.value, a) == Some(s')
    ensures r == s.proc.value.pc.round && f == s.proc.value.pc.fingerprint
  {
    hide Judge, BindTraining, StartRound, Dir;
  }

  lemma IdentitiesGrow(c: Config, s: Sys, a: Action, s': Sys)
    requires Next(c, s, a) == Some(s')
    ensures s.identities <= s'.identities
    ensures (s.proc.Some? ==> s.proc.value.settings.identity in s.identities) ==>
              (s'.proc.Some? ==> s'.proc.value.settings.identity in s'.identities)
  {
    hide Judge, BindTraining, StartRound, Dir;
  }

  lemma SignedStep(c: Config, s: Sys, a: Action, s': Sys)
    requires Inv(c, s) && SignedInv(c, s) && Next(c, s, a) == Some(s')
    ensures SignedInv(c, s')
  {
    IdentitiesGrow(c, s, a, s');
    hide Inv, Next;
    forall r: nat, f: Fingerprint | (r, f) in s'.trained ensures Signed(c, s'.disk, s'.identities, r, f) {
      if (r, f) in s.trained {
        TrainedKeepsProposal(c, s, a, s', r, f);
      } else {
        NewlyTrained(c, s, a, s', r, f);
        StartedIsSigned(c, s, s');
      }
    }
  }

  lemma FileOfCurrent(c: Config, s: Sys, p: Proc, a: Action, s': Sys, f: Fingerprint)
    requires Inv(c, s) && FilesInv(s) && s.proc == Some(p) && InRound(p) && NextInRound(c, s, p, a) == Some(s')
    requires Dir(s'.disk, p.pc.round).fingerprint == Some(FingerprintFile(f, false))
    ensures f in s'.disk.fingerprints && s'.disk.fingerprints[f] == p.pc.round
    ensures Worked(Dir(s'.disk, p.pc.round)) ==> (p.pc.round, f) in s'.trained
  {
    InRoundPoint(c, s);
    assert ResumeInv(s.disk, s.trained);
    hide Inv, Judge, BindTraining, TrainedFrom, JudgedInv;
  }

  lemma TrainedGrows(c: Config, s: Sys, a: Action, s': Sys)
    requires Next(c, s, a) == Some(s')
    ensures s.trained <= s'.trained
  {
    hide Judge, BindTraining, StartRound, Dir;
  }

  lemma FilesStep(c: Config, s: Sys, a: Action, s': Sys)
    requires Inv(c, s) && FilesInv(s) && Next(c, s, a) == Some(s')
    ensures FilesInv(s')
  {
    TrainedGrows(c, s, a, s');
    forall r: nat, f: Fingerprint | Dir(s'.disk, r).fingerprint == Some(FingerprintFile(f, false))
      ensures f in s'.disk.fingerprints && s'.disk.fingerprints[f] == r
      ensures Worked(Dir(s'.disk, r)) ==> (r, f) in s'.trained
    {
      if s.proc.Some? && InRound(s.proc.value) && !a.Crash? && r == s.proc.value.pc.round {
        FileOfCurrent(c, s, s.proc.value, a, s', f);
      } else {
        OtherRoundsStay(c, s, a, s', r);
        hide Inv, Next;
        FingerprintsGrow(c, s, a, s', f);
      }
    }
  }

  lemma {:induction false} RunHistory(c: Config, trace: seq<Sys>, actions: seq<Action>, k: nat)
    requires Run(c, trace, actions) && k < |trace|
    ensures SignedInv(c, trace[k]) && FilesInv(trace[k])
  {
    hide Inv, Next, SignedInv, FilesInv;
    if k == 0 {
      InitHistory(c);
    } else {
      RunHistory(c, trace, actions, k - 1);
      RunInv(c, trace, actions, k - 1);
      assert Next(c, trace[k - 1], actions[k - 1]) == Some(trace[k]);
      SignedStep(c, trace[k - 1], actions[k - 1], trace[k]);
      FilesStep(c, trace[k - 1], actions[k - 1], trace[k]);
    }
  }

  lemma InitHistory(c: Config)
    ensures SignedInv(c, INIT) && FilesInv(INIT)
  {
  }

  // ----- Resuming

  /**
   A round that qualifies for resumption resumes exactly when the launch computes the stored fingerprint for the stored
   proposal; the parent digest cannot have moved. So it resumes whenever no launch so far had another identity.
   */
  lemma ResumesIff(c: Config, trace: seq<Sys>, actions: seq<Action>, k: nat)
    requires Run(c, trace, actions) && k < |trace| && trace[k].proc.Some?
    requires trace[k].proc.value.pc.AtRound? && trace[k].proc.value.pc.round in trace[k].proc.value.resumable
    ensures var s, p := trace[k], trace[k].proc.value;
            var dir := Dir(s.disk, p.pc.round);
            && dir.proposal.Some? && dir.fingerprint.Some?
            && (Next(c, s, Resume).Some? <==>
                  c.fingerprintOf(dir.proposal.value, p.parentDigest, p.settings.identity)
                    == dir.fingerprint.value.fingerprint)
            && (s.identities == {p.settings.identity} ==> Next(c, s, Resume).Some?)
  {
    RunInv(c, trace, actions, k);
    RunHistory(c, trace, actions, k);
    var s := trace[k];
    var p := s.proc.value;
    assert AtRoundInv(s.disk, p) && ResumeInv(s.disk, s.trained);
    assert ResumeReady(s.disk, s.trained, p.pc.round);
    assert Signed(c, s.disk, s.identities, p.pc.round, Dir(s.disk, p.pc.round).fingerprint.value.fingerprint);
  }

  // ----- Registered and never handed to a worker

  /** The process has registered f and not yet started its worker. */
  predicate Holds(pc: Pc, f: Fingerprint) {
    match pc
    case SavingProposal(_, _, g, dup) => g == f && !dup
    case SavingFingerprint(_, _, g, dup) => g == f && !dup
    case ReadyToTrain(_, g) => g == f
    case _ => false
  }

  /** A registered fingerprint for which no worker was started, and which no live process holds for one. */
  ghost predicate Burned(s: Sys, f: Fingerprint) {
    && f in s.disk.fingerprints
    && (forall r: nat :: (r, f) !in s.trained)
    && (s.proc.Some? ==> !Holds(s.proc.value.pc, f))
  }

  /** A resumed round holds a fingerprint it has trained already, so never a burned one. */
  lemma ResumedIsTrained(c: Config, s: Sys, p: Proc, s': Sys)
    requires Inv(c, s) && s.proc == Some(p) && p.pc.AtRound? && NextAtRound(c, s, p, Resume) == Some(s')
    ensures s'.proc.Some? && s'.proc.value.pc.SavingProposal? && !s'.proc.value.pc.duplicate
    ensures (p.pc.round, s'.proc.value.pc.fingerprint) in s.trained
    ensures Dir(s.disk, p.pc.round).stepCheckpoint
    ensures Dir(s.disk, p.pc.round).fingerprint == Some(FingerprintFile(s'.proc.value.pc.fingerprint, false))
  {
    assert AtRoundInv(s.disk, p) && ResumeInv(s.disk, s.trained);
    hide Inv;
    assert ResumeReady(s.disk, s.trained, p.pc.round);
  }

  lemma BurnedStep(c: Config, s: Sys, a: Action, s': Sys, f: Fingerprint)
    requires Inv(c, s) && Next(c, s, a) == Some(s') && Burned(s, f)
    ensures Burned(s', f)
  {
    hide Inv, Judge, BindTraining, StartRound, Dir;
    if s.proc.Some? && a.Resume? && s.proc.value.pc.AtRound? {
      ResumedIsTrained(c, s, s.proc.value, s');
    }
  }

  /** No worker is ever started for a burned fingerprint. */
  lemma {:induction false} BurnedForever(c: Config, trace: seq<Sys>, actions: seq<Action>, i: nat, j: nat,
                                         f: Fingerprint, r: nat)
    requires Run(c, trace, actions) && i <= j < |trace| && Burned(trace[i], f)
    ensures Burned(trace[j], f) && (r, f) !in trace[j].trained
    decreases j
  {
    hide Inv, Next;
    if i < j {
      BurnedForever(c, trace, actions, i, j - 1, f, r);
      RunInv(c, trace, actions, j - 1);
      assert Next(c, trace[j - 1], actions[j - 1]) == Some(trace[j]);
      BurnedStep(c, trace[j - 1], actions[j - 1], trace[j], f);
    }
  }

  lemma HeldIsRegistered(c: Config, s: Sys, f: Fingerprint)
    requires Inv(c, s) && s.proc.Some? && Held(s.proc.value.pc, f)
    ensures InRound(s.proc.value) && f in s.disk.fingerprints && s.disk.fingerprints[f] == s.proc.value.pc.round
    ensures Dir(s.disk, s.proc.value.pc.round).training.None?
  {
    InRoundPoint(c, s);
    hide Inv;
  }

  /** A fingerprint is burned by a crash between its registration and the start of its worker, and by nothing else. */
  lemma CrashBurnsIff(c: Config, s: Sys, a: Action, s': Sys, f: Fingerprint)
    requires Inv(c, s) && Next(c, s, a) == Some(s') && !Burned(s, f)
    ensures Burned(s', f) <==>
              a.Crash? && s.proc.Some? && Holds(s.proc.value.pc, f) && forall r: nat :: (r, f) !in s.trained
  {
    if s.proc.Some? && a.Crash? {
      if Holds(s.proc.value.pc, f) {
        HeldIsRegistered(c, s, f);
      }
      hide Inv;
    } else if s.proc.Some? && Burned(s', f) {
      OnlyCrashBurns(c, s, a, s', f);
    }
  }

  lemma OnlyCrashBurns(c: Config, s: Sys, a: Action, s': Sys, f: Fingerprint)
    requires s.proc.Some? && !a.Crash? && Next(c, s, a) == Some(s') && Burned(s', f)
    ensures Burned(s, f)
  {
    hide Judge, BindTraining, StartRound, Dir;
  }

  /** With any settings, any proposal can have its fingerprint burned, even after its file is written. */
  lemma BurnHappens(c: Config, settings: Settings, initial: Evaluation, proposal: Proposal)
    returns (trace: seq<Sys>, actions: seq<Action>, s: Sys)
    requires initial.subject == c.initial == proposal.parent
    ensures Run(c, trace, actions) && trace[|actions|] == s
    ensures var f := c.fingerprintOf(proposal, c.initial, settings.identity);
            Burned(s, f) && Dir(s.disk, 1).fingerprint == Some(FingerprintFile(f, false))
  {
    trace, actions, s := RunToReady(c, settings, initial, proposal);
    trace, actions, s := Then(c, settings, trace, actions, s, Crash);
  }

  // ----- Registered and never trained to a result

  /** The process works on f, up to the training result. */
  predicate Held(pc: Pc, f: Fingerprint) {
    Holds(pc, f) || (pc.TrainingRound? && pc.fingerprint == f)
  }

  /** Round r wrote f into its fingerprint file and has a training result, or a step checkpoint to resume from. */
  predicate WorkFor(d: Disk, r: nat, f: Fingerprint) {
    Dir(d, r).fingerprint == Some(FingerprintFile(f, false)) && Worked(Dir(d, r))
  }

  ghost predicate NothingToShow(d: Disk, f: Fingerprint) {
    forall r: nat :: !WorkFor(d, r, f)
  }

  /** A registered fingerprint without a training result that no process works on and none can resume. */
  ghost predicate Lost(s: Sys, f: Fingerprint) {
    f in s.disk.fingerprints && NothingToShow(s.disk, f) && (s.proc.Some? ==> !Held(s.proc.value.pc, f))
  }

  /** A round that does not work on f does not begin to, and leaves the work for f as it is. */
  lemma WorkOfOthers(c: Config, s: Sys, p: Proc, a: Action, s': Sys, f: Fingerprint)
    requires Inv(c, s) && s.proc == Some(p) && InRound(p) && !Held(p.pc, f) && NextInRound(c, s, p, a) == Some(s')
    ensures s'.proc.Some? && !Held(s'.proc.value.pc, f)
    ensures WorkFor(s'.disk, p.pc.round, f) <==> WorkFor(s.disk, p.pc.round, f)
  {
    NotHeldStays(c, s, p, a, s', f);
    InRoundPoint(c, s);
    hide Inv, Judge, BindTraining, Held, Registered, TrainedFrom, JudgedInv;
  }

  lemma NotHeldStays(c: Config, s: Sys, p: Proc, a: Action, s': Sys, f: Fingerprint)
    requires s.proc == Some(p) && InRound(p) && !Held(p.pc, f) && NextInRound(c, s, p, a) == Some(s')
    ensures s'.proc.Some? && !Held(s'.proc.value.pc, f)
  {
    hide Judge, BindTraining, Dir;
  }

  /** Outside a round no process takes up a lost fingerprint. */
  lemma LostIsNotTaken(c: Config, s: Sys, a: Action, s': Sys, f: Fingerprint)
    requires Inv(c, s) && Next(c, s, a) == Some(s') && Lost(s, f)
    requires s.proc.Some? ==> a.Crash? || !InRound(s.proc.value)
    ensures s'.proc.Some? ==> !Held(s'.proc.value.pc, f)
  {
    if s.proc.Some? && a.Resume? && s.proc.value.pc.AtRound? {
      ResumedIsTrained(c, s, s.proc.value, s');
      assert WorkFor(s.disk, s.proc.value.pc.round, s'.proc.value.pc.fingerprint);
    }
    hide Inv, Judge, BindTraining, StartRound, NothingToShow, Dir;
  }

  lemma LostStep(c: Config, s: Sys, a: Action, s': Sys, f: Fingerprint)
    requires Inv(c, s) && Next(c, s, a) == Some(s') && Lost(s, f)
    ensures Lost(s', f)
  {
    FingerprintsGrow(c, s, a, s', f);
    if s.proc.Some? && InRound(s.proc.value) && !a.Crash? {
      WorkOfOthers(c, s, s.proc.value, a, s', f);
    } else {
      LostIsNotTaken(c, s, a, s', f);
    }
    forall r: nat ensures !WorkFor(s'.disk, r, f) {
      assert !WorkFor(s.disk, r, f);
      if !(s.proc.Some? && InRound(s.proc.value) && !a.Crash? && r == s.proc.value.pc.round) {
        OtherRoundsStay(c, s, a, s', r);
      }
      hide Inv, Next, NextInRound;
    }
  }

  /** A lost fingerprint never gets a training result, and every later proposal with it is a duplicate. */
  lemma {:induction false} LostForever(c: Config, trace: seq<Sys>, actions: seq<Action>, i: nat, j: nat, f: Fingerprint)
    requires Run(c, trace, actions) && i <= j < |trace| && Lost(trace[i], f)
    ensures Lost(trace[j], f)
    decreases j
  {
    hide Inv, Next, Lost;
    if i < j {
      LostForever(c, trace, actions, i, j - 1, f);
      RunInv(c, trace, actions, j - 1);
      assert Next(c, trace[j - 1], actions[j - 1]) == Some(trace[j]);
      LostStep(c, trace[j - 1], actions[j - 1], trace[j], f);
    }
  }

  /**
   A fingerprint is lost by a crash that interrupts its round before the first step checkpoint, whether or not the
   worker has started, and by nothing else.
   */
  lemma CrashLosesIff(c: Config, s: Sys, a: Action, s': Sys, f: Fingerprint)
    requires Inv(c, s) && FilesInv(s) && Next(c, s, a) == Some(s') && !Lost(s, f)
    ensures Lost(s', f) <==>
              a.Crash? && s.proc.Some? && Held(s.proc.value.pc, f) && !Dir(s.disk, s.proc.value.pc.round).stepCheckpoint
  {
    if s.proc.Some? && Held(s.proc.value.pc, f) {
      HeldIsRegistered(c, s, f);
      if a.Crash? {
        HeldNothingToShow(c, s, f);
      }
    }
    hide Inv;
    if !a.Crash? && Lost(s', f) {
      OnlyCrashLoses(c, s, a, s', f);
    }
  }

  /** Whether a held fingerprint has anything to show depends on the current round alone. */
  lemma HeldNothingToShow(c: Config, s: Sys, f: Fingerprint)
    requires Inv(c, s) && FilesInv(s) && s.proc.Some? && Held(s.proc.value.pc, f)
    ensures InRound(s.proc.value)
    ensures NothingToShow(s.disk, f) <==> !Dir(s.disk, s.proc.value.pc.round).stepCheckpoint
  {
    HeldIsRegistered(c, s, f);
    InRoundPoint(c, s);
    hide Inv;
    assert WorkFor(s.disk, s.proc.value.pc.round, f) <==> Dir(s.disk, s.proc.value.pc.round).stepCheckpoint;
  }

  /** A round that works on f goes on working on it, or leaves its training result. */
  lemma WorkOfHeld(c: Config, s: Sys, p: Proc, a: Action, s': Sys, f: Fingerprint)
    requires Inv(c, s) && s.proc == Some(p) && InRound(p) && Held(p.pc, f) && NextInRound(c, s, p, a) == Some(s')
    ensures s'.proc.Some? && (Held(s'.proc.value.pc, f) || WorkFor(s'.disk, p.pc.round, f))
  {
    InRoundPoint(c, s);
    hide Inv, Judge, BindTraining, Registered, TrainedFrom, JudgedInv;
  }

  /** Only a proposal registers, and then the process holds what it registered. */
  lemma RegisteredIsHeld(c: Config, s: Sys, a: Action, s': Sys, f: Fingerprint)
    requires Next(c, s, a) == Some(s') && f in s'.disk.fingerprints && f !in s.disk.fingerprints
    ensures s'.proc.Some? && Held(s'.proc.value.pc, f)
  {
    hide Judge, BindTraining, StartRound, Dir;
  }

  lemma OnlyCrashLoses(c: Config, s: Sys, a: Action, s': Sys, f: Fingerprint)
    requires Inv(c, s) && !a.Crash? && Next(c, s, a) == Some(s') && Lost(s', f)
    ensures Lost(s, f)
  {
    if f !in s.disk.fingerprints {
      RegisteredIsHeld(c, s, a, s', f);
    }
    if s.proc.Some? && InRound(s.proc.value) {
      if Held(s.proc.value.pc, f) {
        WorkOfHeld(c, s, s.proc.value, a, s', f);
      } else {
        WorkOfOthers(c, s, s.proc.value, a, s', f);
      }
    }
    forall r: nat ensures !WorkFor(s.disk, r, f) {
      assert !WorkFor(s'.disk, r, f);
      if !(s.proc.Some? && InRound(s.proc.value) && r == s.proc.value.pc.round) {
        OtherRoundsStay(c, s, a, s', r);
      }
      hide Inv, Next, NextInRound;
    }
  }

  /** Burned fingerprints are lost as well. */
  lemma BurnedIsLost(c: Config, s: Sys, f: Fingerprint)
    requires Inv(c, s) && FilesInv(s) && Burned(s, f)
    ensures Lost(s, f)
  {
    hide Inv;
    if s.proc.Some? && Held(s.proc.value.pc, f) {
      BurnedIsNotTraining(c, s, f);
    }
  }

  lemma BurnedIsNotTraining(c: Config, s: Sys, f: Fingerprint)
    requires Inv(c, s) && s.proc.Some? && s.proc.value.pc.TrainingRound? && s.proc.value.pc.fingerprint == f
    ensures (s.proc.value.pc.round, f) in s.trained
  {
    InRoundPoint(c, s);
  }
}
