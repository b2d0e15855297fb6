/**
 The campaign loop as a program over the campaign root. Every durable write may be the last one the process
 makes. Whatever the program does, in however many launches, is a run of the campaign machine.
 */
module CampaignRun {
  import opened Wrappers
  import opened CampaignDecision
  import opened Campaign
  import opened CampaignInvariant
  import opened CampaignSafety
  import opened CampaignProgress

  /** The files of a campaign root. */
  class CampaignRoot {
    var rounds: map<nat, RoundDir>
    var childFiles: map<nat, Digest>
    var state: Option<State>
    var cachedParentEval: Option<Evaluation>
    var fingerprints: map<Fingerprint, nat>

    function View(): Disk
      reads this
    {
      Disk(rounds, childFiles, state, cachedParentEval, fingerprints)
    }

    constructor ()
      ensures View() == EMPTY_DISK
    {
      rounds, childFiles, state, cachedParentEval, fingerprints := map[], map[], None, None, map[];
    }

    method Store(d: Disk)
      modifies this
      ensures View() == d
    {
      rounds, childFiles, state := d.rounds, d.childFiles, d.state;
      cachedParentEval, fingerprints := d.cachedParentEval, d.fingerprints;
    }
  }

  /** What a training worker leaves behind before it reports. */
  datatype WorkerWrite = StepCheckpoint | Child(digest: Digest)

  /**
   The settings of a launch, and the answers of everything outside the loop: controller, devices, training worker,
   evaluator and correctness audit.
   */
  datatype World = World(
    settings: Settings,
    propose: nat -> Option<nat>,
    quiet: nat -> bool,
    work: nat -> seq<WorkerWrite>,
    report: nat -> Option<WorkerReport>,
    evaluate: nat -> Evaluation,
    gate: nat -> Option<CorrectnessGate>,
    evaluateParent: Digest -> Evaluation)

  /** How a launch ends: by itself, by dying between two writes, or by raising. */
  datatype Exit = Finished | Died | Raised

  class Campaigner {
    const config: Config
    const root: CampaignRoot
    var world: World
    var writesLeft: nat

    // The volatile part of the process.
    var failed: set<nat>
    var resumable: set<nat>
    var memFailed: set<nat>
    var parentRef: CheckpointRef
    var parentDigest: Digest
    var parentEval: Option<Evaluation>

    ghost var s: Sys
    ghost var trace: seq<Sys>
    ghost var actions: seq<Action>

    /** The files are where a run of the machine has brought them. */
    ghost predicate Tracks()
      reads this, root
    {
      Run(config, trace, actions) && |trace| == |actions| + 1 && trace[|actions|] == s && s.disk == root.View()
    }

    /** The machine's process is this one, at `pc`. */
    ghost predicate Running(pc: Pc)
      reads this
    {
      s.proc == Some(Proc(pc, failed, resumable, memFailed, parentRef, parentDigest, parentEval, world.settings))
    }

    constructor (config: Config, world: World)
      ensures Tracks() && s == INIT && root.View() == EMPTY_DISK && fresh(root)
      ensures this.config == config && this.world == world
    {
      this.config := config;
      this.world := world;
      root := new CampaignRoot();
      writesLeft := 0;
      failed, resumable, memFailed := {}, {}, {};
      parentRef, parentDigest, parentEval := Initial, config.initial, None;
      s, trace, actions := INIT, [INIT], [];
    }

    /** A step of the machine that writes nothing. */
    ghost method Note(a: Action)
      requires Tracks() && Next(config, s, a).Some? && Next(config, s, a).value.disk == s.disk
      modifies this`s, this`trace, this`actions
      ensures Tracks() && Some(s) == Next(config, old(s), a)
      ensures trace == old(trace) + [s]
    {
      hide Next;
      var s' := Next(config, s, a).value;
      ExtendRun(config, trace, actions, a, s');
      trace, actions, s := trace + [s'], actions + [a], s';
    }

    /** One durable write, or the start of a worker, or death just before it. */
    method Commit(ghost a: Action, d: Disk) returns (alive: bool)
      requires Tracks() && s.proc.Some? && Next(config, s, a).Some? && Next(config, s, a).value.disk == d
      modifies this`s, this`trace, this`actions, this`writesLeft, root
      ensures Tracks() && old(trace) <= trace
      ensures alive ==> Some(s) == Next(config, old(s), a)
      ensures !alive ==> s.proc == None
    {
      if writesLeft == 0 {
        Note(Crash);
        return false;
      }
      writesLeft := writesLeft - 1;
      hide Next;
      root.Store(d);
      ghost var s' := Next(config, s, a).value;
      ExtendRun(config, trace, actions, a, s');
      trace, actions, s := trace + [s'], actions + [a], s';
      alive := true;
    }

    /** The process raises: nothing more is written. */
    method Raise() returns (exit: Exit)
      requires Tracks() && s.proc.Some?
      modifies this`s, this`trace, this`actions
      ensures Tracks() && old(trace) <= trace && s.proc == None && exit == Raised
    {
      Note(Crash);
      exit := Raised;
    }

    // ----- One round

    /** Write the proposal and its fingerprint. */
    method SaveProposal(r: nat, proposal: Proposal, f: Fingerprint, duplicate: bool) returns (alive: bool)
      requires Tracks() && Running(SavingProposal(r, proposal, f, duplicate))
      modifies this`s, this`trace, this`actions, this`writesLeft, root
      ensures Tracks() && old(trace) <= trace
      ensures alive ==> Running(if duplicate then SkippingTraining(r) else ReadyToTrain(r, f))
      ensures !alive ==> s.proc == None
    {
      hide Run, Next;
      var dir := Dir(root.View(), r);
      InRoundIs(config, s, Action.SaveProposal);
      alive := Commit(Action.SaveProposal, WithDir(root.View(), r, dir.(proposal := Some(proposal))));
      if alive {
        alive := WriteFingerprint(r, proposal, f, duplicate);
      }
    }

    method WriteFingerprint(r: nat, ghost proposal: Proposal, f: Fingerprint, duplicate: bool) returns (alive: bool)
      requires Tracks() && Running(SavingFingerprint(r, proposal, f, duplicate))
      modifies this`s, this`trace, this`actions, this`writesLeft, root
      ensures Tracks() && old(trace) <= trace
      ensures alive ==> Running(if duplicate then SkippingTraining(r) else ReadyToTrain(r, f))
      ensures !alive ==> s.proc == None
    {
      hide Run, Next;
      var dir := Dir(root.View(), r);
      InRoundIs(config, s, SaveFingerprint);
      alive := Commit(SaveFingerprint,
                      WithDir(root.View(), r, dir.(fingerprint := Some(FingerprintFile(f, duplicate)))));
    }

    /** A duplicate is neither trained nor evaluated, only written down as skipped. */
    method SkipDuplicate(r: nat) returns (alive: bool)
      requires Tracks() && Running(SkippingTraining(r))
      modifies this`s, this`trace, this`actions, this`writesLeft, root
      ensures Tracks() && old(trace) <= trace
      ensures alive ==> Running(SkippingEvaluation(r, Duplicate))
      ensures !alive ==> s.proc == None
    {
      hide Run, Next;
      InRoundIs(config, s, SkipTraining);
      alive := Commit(SkipTraining, WithDir(root.View(), r, Dir(root.View(), r).(training := Some(Skipped))));
    }

    /** The worker writes step checkpoints and children as it pleases; its report is then bound and written. */
    method Train(r: nat, ghost f: Fingerprint) returns (alive: bool, succeeded: bool)
      requires Tracks() && Running(ReadyToTrain(r, f))
      modifies this`s, this`trace, this`actions, this`writesLeft, root
      ensures Tracks() && old(trace) <= trace
      ensures alive ==> Running(if succeeded then Evaluating(r) else SkippingEvaluation(r, TrainingFailure))
      ensures alive ==> (succeeded <==>
                           && world.report(r).Some? && world.report(r).value.success
                           && (world.report(r).value.exitCode == 0 ==>
                                 Bound(world.report(r).value, ChildFile(root.View(), r), parentDigest)))
      ensures !alive ==> s.proc == None
    {
      hide Run, Next;
      alive := StartWorker(r, f);
      if alive {
        alive := WorkerWrites(r, f, world.work(r));
      }
      if !alive {
        return false, false;
      }
      hide BindTraining;
      var training := BindTraining(world.report(r), ChildFile(root.View(), r), parentDigest);
      succeeded := training.Succeeded?;
      InRoundIs(config, s, FinishTraining(world.report(r)));
      alive := Commit(FinishTraining(world.report(r)),
                      WithDir(root.View(), r, Dir(root.View(), r).(training := Some(training))));
    }

    method StartWorker(r: nat, ghost f: Fingerprint) returns (alive: bool)
      requires Tracks() && Running(ReadyToTrain(r, f))
      modifies this`s, this`trace, this`actions, this`writesLeft, root
      ensures Tracks() && old(trace) <= trace
      ensures alive ==> Running(TrainingRound(r, f))
      ensures !alive ==> s.proc == None
    {
      hide Run, Next;
      InRoundIs(config, s, StartTraining);
      alive := Commit(StartTraining, root.View());
    }

    method WorkerWrites(r: nat, ghost f: Fingerprint, writes: seq<WorkerWrite>) returns (alive: bool)
      requires Tracks() && Running(TrainingRound(r, f))
      modifies this`s, this`trace, this`actions, this`writesLeft, root
      ensures Tracks() && old(trace) <= trace
      ensures alive ==> Running(TrainingRound(r, f))
      ensures !alive ==> s.proc == None
    {
      hide Run, Next;
      for i := 0 to |writes|
        invariant Tracks() && old(trace) <= trace && Running(TrainingRound(r, f))
      {
        match writes[i] {
          case StepCheckpoint =>
            InRoundIs(config, s, WriteStepCheckpoint);
            alive := Commit(WriteStepCheckpoint,
                            WithDir(root.View(), r, Dir(root.View(), r).(stepCheckpoint := true)));
          case Child(digest) =>
            InRoundIs(config, s, WriteChild(digest));
            alive := Commit(WriteChild(digest), root.View().(childFiles := root.childFiles[r := digest]));
        }
        if !alive {
          return false;
        }
      }
      alive := true;
    }

    method SkipEvaluating(r: nat, outcome: Outcome) returns (alive: bool)
      requires Tracks() && Running(SkippingEvaluation(r, outcome))
      modifies this`s, this`trace, this`actions, this`writesLeft, root
      ensures Tracks() && old(trace) <= trace
      ensures alive ==> Running(Deciding(r, outcome))
      ensures !alive ==> s.proc == None
    {
      hide Run, Next;
      InRoundIs(config, s, SkipEvaluation);
      alive := Commit(SkipEvaluation,
                      WithDir(root.View(), r, Dir(root.View(), r).(evaluation := Some(EvaluationSkipped))));
    }

    /** Evaluate the child and judge it against the parent. */
    method EvaluateChild(r: nat) returns (alive: bool, outcome: Outcome)
      requires Tracks() && Running(Evaluating(r)) && parentEval.Some?
      modifies this`s, this`trace, this`actions, this`writesLeft, root
      ensures Tracks() && old(trace) <= trace
      ensures alive ==> Running(Deciding(r, outcome)) && outcome.Judged? && outcome.gate == world.gate(r)
      ensures alive ==> (outcome.decision.accepted <==>
                           Passes(Terms(world.settings.thresholds, world.gate(r)), parentEval.value,
                                  outcome.evaluation))
      ensures alive && r in old(root.childFiles) ==>
                outcome.evaluation == world.evaluate(r).(subject := old(root.childFiles)[r])
      ensures alive && r !in old(root.childFiles) ==> !outcome.decision.accepted
      ensures !alive ==> s.proc == None
    {
      hide Run, Next, Judge, Passes, Meets;
      var scored := world.evaluate(r);
      var child := ChildFile(root.View(), r);
      var evaluation := if child.Some? then scored.(subject := child.value) else scored.(success := false);
      var decision := Judge(world.settings.thresholds, parentEval.value, evaluation, world.gate(r));
      MeetsIff(Terms(world.settings.thresholds, world.gate(r)), parentEval.value, evaluation);
      if child.None? {
        FailureNeverPasses(Terms(world.settings.thresholds, world.gate(r)), parentEval.value, evaluation);
      }
      outcome := Judged(evaluation, decision, world.gate(r));
      InRoundIs(config, s, FinishEvaluation(evaluation, world.gate(r)));
      alive := Commit(FinishEvaluation(evaluation, world.gate(r)),
                      WithDir(root.View(), r, Dir(root.View(), r).(evaluation := Some(Evaluated(evaluation)))));
    }

    /** Write the decision, then the state; only the second write moves the parent. */
    method Decide(r: nat, outcome: Outcome) returns (end: RoundEnd)
      requires Tracks() && Running(Deciding(r, outcome)) && parentEval.Some?
      modifies this`s, this`trace, this`actions, this`writesLeft, this`memFailed, this`parentRef, this`parentDigest,
               this`parentEval, root
      ensures Tracks() && old(trace) <= trace
      ensures end.Went? ==> Running(AtRound(r + 1)) && parentEval.Some?
      ensures end.Went? ==> parentRef == if end.improved then ChildOf(r) else old(parentRef)
      ensures end.Ended? ==> s.proc == None && !end.exit.Finished?
    {
      hide Run, Next;
      InRoundIs(config, s, SaveDecision);
      var alive := Commit(SaveDecision,
                          WithDir(root.View(), r, Dir(root.View(), r).(decision := Some(DecisionOf(outcome)))));
      if !alive {
        return Ended(Died);
      }
      end := FinishRound(r, outcome);
    }

    /** What the process knows after it has written the state. */
    method Remember(ghost pc: Pc, failures: set<nat>, ref: CheckpointRef, digest: Digest, evaluation: Evaluation)
      requires Tracks()
      requires s.proc == Some(Proc(pc, failed, resumable, failures, ref, digest, Some(evaluation), world.settings))
      modifies this`memFailed, this`parentRef, this`parentDigest, this`parentEval
      ensures Tracks() && Running(pc) && parentEval.Some?
    {
      hide Run;
      memFailed, parentRef, parentDigest, parentEval := failures, ref, digest, Some(evaluation);
    }

    method FinishRound(r: nat, outcome: Outcome) returns (end: RoundEnd)
      requires Tracks() && Running(SavingState(r, outcome)) && parentEval.Some?
      modifies this`s, this`trace, this`actions, this`writesLeft, this`memFailed, this`parentRef, this`parentDigest,
               this`parentEval, root
      ensures Tracks() && old(trace) <= trace
      ensures end.Went? ==> Running(AtRound(r + 1)) && parentEval.Some?
      ensures end.Went? ==> parentRef == if end.improved then ChildOf(r) else old(parentRef)
      ensures end.Ended? ==> s.proc == None && !end.exit.Finished?
    {
      hide Run;
      var promoted := outcome.Judged? && outcome.decision.accepted;
      if promoted && r !in root.childFiles {
        var exit := Raise();
        return Ended(exit);
      }
      var failures := match outcome
                      case Duplicate => failed
                      case TrainingFailure => memFailed + {r}
                      case Judged(_, _, _) => memFailed;
      var ref := if promoted then ChildOf(r) else parentRef;
      var digest := if promoted then root.childFiles[r] else parentDigest;
      var evaluation := if promoted then outcome.evaluation else parentEval.value;
      StateIsSaved(config, s, r, outcome);
      ghost var next := EndRound(s, s.proc.value, r, outcome);
      assert next.proc
             == Some(Proc(AtRound(r + 1), failed, resumable, failures, ref, digest, Some(evaluation), world.settings));
      assert next.disk == root.View().(state := Some(State(r + 1, failures, ref, digest, evaluation)));
      hide Next, EndRound;
      var alive := Commit(SaveState, root.View().(state := Some(State(r + 1, failures, ref, digest, evaluation))));
      if !alive {
        return Ended(Died);
      }
      Remember(AtRound(r + 1), failures, ref, digest, evaluation);
      end := Went(promoted);
    }

    /** Read the stored proposal of an interrupted round, or ask the controller; then register the fingerprint. */
    method ObtainProposal(r: nat) returns (end: Option<Exit>, proposal: Proposal, f: Fingerprint, duplicate: bool)
      requires Tracks() && Running(AtRound(r)) && !(r in failed && r !in resumable)
      modifies this`s, this`trace, this`actions, this`writesLeft, root
      ensures Tracks() && old(trace) <= trace
      ensures end.None? ==> Running(SavingProposal(r, proposal, f, duplicate))
      ensures end.Some? ==> s.proc == None && !end.value.Finished?
    {
      hide Run;
      proposal, f, duplicate := Proposal(0, 0), 0, false;
      if r in resumable {
        var resumed := ResumeProposal(r);
        match resumed {
          case None => end := Some(Raised);
          case Some(pair) => end, proposal, f := None, pair.0, pair.1;
        }
        return;
      }
      var recipe := world.propose(r);
      if recipe.None? {
        var exit := Raise();
        return Some(exit), proposal, f, duplicate;
      }
      proposal := Proposal(recipe.value, parentDigest);
      f := config.fingerprintOf(proposal, parentDigest, world.settings.identity);
      duplicate := f in root.fingerprints;
      var alive := true;
      if duplicate {
        Note(Propose(proposal));
      } else {
        alive := Commit(Propose(proposal), root.View().(fingerprints := root.fingerprints[f := r]));
      }
      end := if alive then None else Some(Died);
    }

    method ResumeProposal(r: nat) returns (resumed: Option<(Proposal, Fingerprint)>)
      requires Tracks() && Running(AtRound(r)) && r in resumable
      modifies this`s, this`trace, this`actions
      ensures Tracks() && old(trace) <= trace
      ensures resumed.Some? ==> Running(SavingProposal(r, resumed.value.0, resumed.value.1, false))
      ensures resumed.None? ==> s.proc == None
    {
      hide Run;
      var dir := Dir(root.View(), r);
      if dir.proposal.None? || dir.proposal.value.parent != parentDigest {
        var _ := Raise();
        return None;
      }
      var proposal := dir.proposal.value;
      var f := config.fingerprintOf(proposal, parentDigest, world.settings.identity);
      if dir.fingerprint.Some? && dir.fingerprint.value.fingerprint != f {
        var _ := Raise();
        return None;
      }
      Note(Resume);
      resumed := Some((proposal, f));
    }

    /** Up to the verdict, or up to the reason why there is none. */
    method TrainAndEvaluate(r: nat, ghost f: Fingerprint, duplicate: bool) returns (alive: bool, outcome: Outcome)
      requires Tracks() && Running(if duplicate then SkippingTraining(r) else ReadyToTrain(r, f)) && parentEval.Some?
      modifies this`s, this`trace, this`actions, this`writesLeft, root
      ensures Tracks() && old(trace) <= trace
      ensures alive ==> Running(if outcome.Judged? then Deciding(r, outcome) else SkippingEvaluation(r, outcome))
      ensures alive && outcome.Judged? ==> !duplicate && outcome.gate == world.gate(r)
      ensures !alive ==> s.proc == None
    {
      hide Run, Passes, Next;
      outcome := if duplicate then Duplicate else TrainingFailure;
      if duplicate {
        alive := SkipDuplicate(r);
      } else {
        var succeeded;
        alive, succeeded := Train(r, f);
        if alive && succeeded {
          alive, outcome := EvaluateChild(r);
        }
      }
    }

    method RunRound(r: nat) returns (end: RoundEnd)
      requires Tracks() && Running(AtRound(r)) && parentEval.Some? && !(r in failed && r !in resumable)
      modifies this`s, this`trace, this`actions, this`writesLeft, this`memFailed, this`parentRef, this`parentDigest,
               this`parentEval, root
      ensures Tracks() && old(trace) <= trace
      ensures end.Went? ==> Running(AtRound(r + 1)) && parentEval.Some?
      ensures end.Went? ==> parentRef == if end.improved then ChildOf(r) else old(parentRef)
      ensures end.Ended? ==> s.proc == None && !end.exit.Finished?
    {
      hide Run, Passes, Next;
      var exit, proposal, f, duplicate := ObtainProposal(r);
      if exit.Some? {
        return Ended(exit.value);
      }
      var alive := SaveProposal(r, proposal, f, duplicate);
      if !alive {
        return Ended(Died);
      }
      if !duplicate && !world.quiet(r) {
        var raised := Raise();
        return Ended(raised);
      }
      var outcome;
      alive, outcome := TrainAndEvaluate(r, f, duplicate);
      if alive && !outcome.Judged? {
        alive := SkipEvaluating(r, outcome);
      }
      if !alive {
        return Ended(Died);
      }
      end := Decide(r, outcome);
    }

    // ----- Startup

    /** Read the root; mark rounds that were interrupted beyond repair as failed. */
    method Recover() returns (alive: bool, greatest: nat)
      requires Tracks() && s.proc == None
      modifies this`s, this`trace, this`actions, this`writesLeft, this`failed, this`resumable, this`memFailed,
               this`parentRef, this`parentDigest, this`parentEval, root
      ensures Tracks() && old(trace) <= trace
      ensures alive ==> Running(Startup({}, greatest))
      ensures !alive ==> s.proc == None
    {
      hide Run;
      greatest := Greatest(CompleteRounds(root.View()));
      var todo := ReadRoot(greatest);
      alive := MarkAll(todo, greatest);
    }

    method ReadRoot(greatest: nat) returns (todo: set<nat>)
      requires Tracks() && s.proc == None && greatest == MaxOf(CompleteRounds(root.View()))
      modifies this`s, this`trace, this`actions, this`failed, this`resumable, this`memFailed,
               this`parentRef, this`parentDigest, this`parentEval
      ensures Tracks() && old(trace) <= trace
      ensures Running(Startup(todo, greatest))
    {
      hide Run, MaxOf, CompleteRounds, InterruptedRounds, LooksResumable;
      Note(Launch(world.settings));
      var d := root.View();
      failed := FailedOnDisk(d);
      var open := InterruptedRounds(d) - failed;
      resumable := set r | r in open && LooksResumable(d, r);
      memFailed := failed;
      parentRef := if d.state.Some? then d.state.value.parentRef else Initial;
      parentDigest := if d.state.Some? then d.state.value.parentDigest else config.initial;
      parentEval := if d.state.Some? then Some(d.state.value.parentEval) else None;
      todo := open - resumable;
    }

    method MarkAll(todo: set<nat>, ghost completeMax: nat) returns (alive: bool)
      requires Tracks() && Running(Startup(todo, completeMax))
      modifies this`s, this`trace, this`actions, this`writesLeft, this`failed, root
      ensures Tracks() && old(trace) <= trace
      ensures alive ==> Running(Startup({}, completeMax))
      ensures !alive ==> s.proc == None
    {
      hide Run;
      var rest := todo;
      while rest != {}
        invariant Tracks() && old(trace) <= trace && Running(Startup(rest, completeMax))
        decreases rest
      {
        var r :| r in rest;
        alive := Commit(MarkIncomplete(r), WithDir(root.View(), r, Dir(root.View(), r).(decision := Some(INCOMPLETE))));
        if !alive {
          return;
        }
        failed := failed + {r};
        rest := rest - {r};
      }
      alive := true;
    }

    /** The parent's evaluation: stored, cached, or made now. */
    method ParentEvaluation(ghost completeMax: nat) returns (alive: bool)
      requires Tracks() && Running(Startup({}, completeMax))
      modifies this`s, this`trace, this`actions, this`writesLeft, this`parentEval, root
      ensures Tracks() && old(trace) <= trace
      ensures alive ==> Running(Startup({}, completeMax)) && (parentEval.Some? || root.cachedParentEval.Some?)
      ensures alive ==> root.childFiles == old(root.childFiles)
      ensures !alive ==> s.proc == None
    {
      hide Run;
      if parentEval.Some? || root.cachedParentEval.Some? {
        return true;
      }
      var evaluation := world.evaluateParent(parentDigest).(subject := parentDigest);
      alive := Commit(EvaluateParent(evaluation), root.View().(cachedParentEval := Some(evaluation)));
      if alive {
        parentEval := Some(evaluation);
      }
    }

    /** The interrupted round that can be resumed, or else the first round after everything recorded. */
    method FirstRound(greatest: nat) returns (start: nat)
      requires Running(Startup({}, greatest))
      ensures start == StartRound(root.View(), s.proc.value)
    {
      var stored := NextOnDisk(root.View());
      if resumable != {} {
        start := Least(resumable);
      } else {
        start := if stored > greatest then stored else greatest + 1;
      }
    }

    /** Find the first round to run and write the state of the launch. */
    method Begin(greatest: nat) returns (end: Option<Exit>, start: nat)
      requires Tracks() && Running(Startup({}, greatest))
      modifies this`s, this`trace, this`actions, this`writesLeft, this`memFailed, this`parentRef, this`parentDigest,
               this`parentEval, root
      ensures Tracks() && old(trace) <= trace
      ensures end.None? ==> Running(AtRound(start)) && parentEval.Some?
      ensures end.Some? ==> s.proc == None && !end.value.Finished?
    {
      hide Run;
      start := 0;
      if FileDigest(config, root.View(), parentRef) != Some(parentDigest) {
        var exit := Raise();
        return Some(exit), start;
      }
      var alive := ParentEvaluation(greatest);
      if !alive {
        return Some(Died), start;
      }
      var evaluation := if parentEval.Some? then parentEval.value else root.cachedParentEval.value;
      start := FirstRound(greatest);
      hide Next, StartRound;
      alive := SaveBeginning(greatest, start, evaluation);
      end := if alive then None else Some(Died);
    }

    /** Write the state of the launch. */
    method SaveBeginning(ghost greatest: nat, start: nat, evaluation: Evaluation) returns (alive: bool)
      requires Tracks() && Running(Startup({}, greatest)) && start == StartRound(root.View(), s.proc.value)
      requires StartEval(root.View(), s.proc.value) == Some(evaluation)
      requires FileDigest(config, root.View(), parentRef) == Some(parentDigest)
      modifies this`s, this`trace, this`actions, this`writesLeft, this`memFailed, this`parentRef, this`parentDigest,
               this`parentEval, root
      ensures Tracks() && old(trace) <= trace
      ensures alive ==> Running(AtRound(start)) && parentEval.Some?
      ensures !alive ==> s.proc == None
    {
      hide Run;
      StartIsSaved(config, s, evaluation);
      hide Next, StartRound, FileDigest;
      alive := Commit(SaveStart,
                      root.View().(state := Some(State(start, failed, parentRef, parentDigest, evaluation))));
      if alive {
        Remember(AtRound(start), failed, parentRef, parentDigest, evaluation);
      }
    }

    // ----- A launch

    /** One process: recover, begin, and run rounds until the limit, until patience runs out, or until it dies. */
    method RunCampaign(limit: nat, patience: nat, writes: nat) returns (exit: Exit, ghost parents: seq<CheckpointRef>)
      requires Tracks() && s.proc == None
      modifies this, root
      ensures Tracks() && s.proc == None && old(trace) <= trace && world == old(world)
      ensures NeverIdleBefore(parents, patience)
      ensures exit.Finished? ==> StoppedAbove(limit) || Idle(parents, patience)
    {
      hide Run;
      parents := [];
      writesLeft := writes;
      var alive, greatest := Recover();
      if !alive {
        return Died, [];
      }
      var end, start := Begin(greatest);
      if end.Some? {
        return end.value, [];
      }
      exit, parents := RunRounds(start, limit, patience);
    }

    /** The process has ended itself before a round above the limit. */
    ghost predicate StoppedAbove(limit: nat)
      reads this
    {
      && |trace| >= 2 && trace[|trace| - 2].proc.Some? && trace[|trace| - 2].proc.value.pc.AtRound?
      && trace[|trace| - 2].proc.value.pc.round > limit
    }

    /** A round that has failed before is passed over. */
    ghost method PassOver(r: nat)
      requires Tracks() && Running(AtRound(r)) && r in failed && r !in resumable
      modifies this`s, this`trace, this`actions
      ensures Tracks() && old(trace) <= trace && Running(AtRound(r + 1))
    {
      hide Run;
      Note(SkipFailed);
    }

    /** The process ends before round r. */
    ghost method Stop(r: nat)
      requires Tracks() && Running(AtRound(r))
      modifies this`s, this`trace, this`actions
      ensures Tracks() && old(trace) <= trace && s.proc == None
      ensures |trace| >= 2 && trace[|trace| - 2] == old(s)
    {
      hide Run;
      Note(Crash);
    }

    /** The loop over the rounds; `parents` is the parent at its start and after every round that has ended. */
    method RunRounds(start: nat, limit: nat, patience: nat) returns (exit: Exit, ghost parents: seq<CheckpointRef>)
      requires Tracks() && Running(AtRound(start)) && parentEval.Some?
      modifies this, root
      ensures Tracks() && s.proc == None && old(trace) <= trace && world == old(world)
      ensures NeverIdleBefore(parents, patience)
      ensures exit.Finished? ==> StoppedAbove(limit) || Idle(parents, patience)
    {
      hide Run, Next;
      var r, noImprovement := start, 0;
      parents := [parentRef];
      while r <= limit
        invariant Tracks() && Running(AtRound(r)) && parentEval.Some? && old(trace) <= trace && world == old(world)
        invariant |parents| >= 1 && parents[|parents| - 1] == parentRef
        invariant Unchanged(parents, noImprovement) && NeverIdleBefore(parents, patience)
        invariant !Idle(parents, patience)
        decreases limit + 1 - r
      {
        if r in failed && r !in resumable {
          PassOver(r);
          r := r + 1;
          continue;
        }
        ParentIsOlder(config, trace, actions, |actions|);
        var end := RunRound(r);
        if end.Ended? {
          return end.exit, parents;
        }
        OneMoreRound(parents, parentRef, noImprovement, patience);
        noImprovement := if end.improved then 0 else noImprovement + 1;
        parents := parents + [parentRef];
        r := r + 1;
        if noImprovement >= patience {
          break;
        }
      }
      Stop(r);
      exit := Finished;
    }

    /**
     Any number of launches, each with its own outside world and its own moment of death: rounds that were complete
     stay as they are, at most one round is open, and the stored parent keeps its place above the initial one.
     */
    method RunLaunches(worlds: seq<World>, limit: nat, patience: nat, writes: seq<nat>)
      requires Tracks() && s.proc == None && |writes| == |worlds|
      modifies this, root
      ensures Tracks() && s.proc == None
      ensures forall r: nat :: Complete(old(root.View()), r) ==>
                Dir(root.View(), r) == Dir(old(root.View()), r)
                  && ChildFile(root.View(), r) == ChildFile(old(root.View()), r)
      ensures forall r: nat, i: nat :: Open(root.View(), r) && Touched(root.View(), i) ==> i <= r
      ensures root.state.Some? ==>
                && root.cachedParentEval.Some? && |s.terms| == |s.path|
                && Climbed(s.terms, |s.path|, root.cachedParentEval.value, root.state.value.parentEval)
    {
      hide Run;
      for i := 0 to |worlds|
        invariant Tracks() && s.proc == None && old(trace) <= trace
      {
        world := worlds[i];
        var _, _ := RunCampaign(limit, patience, writes[i]);
      }
      Conclude(old(trace), old(actions), old(root.View()));
    }

    lemma Conclude(before: seq<Sys>, beforeActions: seq<Action>, disk: Disk)
      requires Tracks() && before <= trace && |before| == |beforeActions| + 1 && before[|beforeActions|].disk == disk
      ensures forall r: nat :: Complete(disk, r) ==>
                Dir(root.View(), r) == Dir(disk, r) && ChildFile(root.View(), r) == ChildFile(disk, r)
      ensures forall r: nat, i: nat :: Open(root.View(), r) && Touched(root.View(), i) ==> i <= r
      ensures root.state.Some? ==>
                && root.cachedParentEval.Some? && |s.terms| == |s.path|
                && Climbed(s.terms, |s.path|, root.cachedParentEval.value, root.state.value.parentEval)
    {
      hide Complete, Dir, ChildFile, Open, Touched, Climbed;
      var i, k := |beforeActions|, |actions|;
      assert trace[i] == before[i];
      forall r: nat | Complete(disk, r)
        ensures Dir(root.View(), r) == Dir(disk, r) && ChildFile(root.View(), r) == ChildFile(disk, r)
      {
        CompleteRoundsAreFrozen(config, trace, actions, i, k, r);
      }
      forall r: nat, j: nat | Open(root.View(), r) && Touched(root.View(), j) ensures j <= r {
        OpenRoundIsHighest(config, trace, actions, k, r);
      }
      if root.state.Some? {
        StoredParentImproves(config, trace, actions, k);
      }
    }
  }

  lemma StateIsSaved(c: Config, s: Sys, r: nat, o: Outcome)
    requires s.proc.Some? && s.proc.value.pc == SavingState(r, o) && s.proc.value.parentEval.Some?
    requires o.Judged? && o.decision.accepted ==> r in s.disk.childFiles
    ensures Next(c, s, SaveState) == Some(EndRound(s, s.proc.value, r, o))
  {
  }

  lemma StartIsSaved(c: Config, s: Sys, e: Evaluation)
    requires s.proc.Some? && s.proc.value.pc.Startup? && s.proc.value.pc.todo == {}
    requires StartEval(s.disk, s.proc.value) == Some(e)
    requires FileDigest(c, s.disk, s.proc.value.parentRef) == Some(s.proc.value.parentDigest)
    ensures var p, r := s.proc.value, StartRound(s.disk, s.proc.value);
            Next(c, s, SaveStart)
            == Some(s.(disk := s.disk.(state := Some(State(r, p.failed, p.parentRef, p.parentDigest, e))),
                       proc := Some(p.(pc := AtRound(r), memFailed := p.failed, parentEval := Some(e)))))
  {
    hide StartRound;
  }

  /** Inside a round the machine looks at nothing but the round. */
  lemma InRoundIs(c: Config, s: Sys, a: Action)
    requires s.proc.Some? && !s.proc.value.pc.Startup? && !s.proc.value.pc.AtRound? && !a.Crash?
    ensures Next(c, s, a) == NextInRound(c, s, s.proc.value, a)
  {
  }

  /** The last n rounds have not changed the parent. */
  predicate Idle(parents: seq<CheckpointRef>, n: nat) {
    |parents| >= 2 && n < |parents| && forall k :: |parents| - 1 - n <= k < |parents| ==>
      parents[k] == parents[|parents| - 1]
  }

  predicate NeverIdleBefore(parents: seq<CheckpointRef>, n: nat) {
    forall m :: 0 <= m < |parents| ==> !Idle(parents[..m], n)
  }

  /** The parent has stood for exactly the last n rounds. */
  predicate Unchanged(parents: seq<CheckpointRef>, n: nat) {
    && n < |parents| && (forall k :: |parents| - 1 - n <= k < |parents| ==> parents[k] == parents[|parents| - 1])
    && (n + 1 < |parents| ==> parents[|parents| - 2 - n] != parents[|parents| - 1])
  }

  lemma OneMoreRound(parents: seq<CheckpointRef>, next: CheckpointRef, n: nat, patience: nat)
    requires parents != [] && Unchanged(parents, n) && NeverIdleBefore(parents, patience) && !Idle(parents, patience)
    ensures var m := if next == parents[|parents| - 1] then n + 1 else 0;
            && Unchanged(parents + [next], m)
            && (Idle(parents + [next], patience) <==> m >= patience)
    ensures NeverIdleBefore(parents + [next], patience)
  {
    var more := parents + [next];
    forall m | 0 <= m < |more| ensures !Idle(more[..m], patience) {
      if m < |parents| {
        assert more[..m] == parents[..m];
      } else {
        assert more[..m] == parents;
      }
    }
  }

  /** The round to run next is not the one whose child is the parent. */
  lemma ParentIsOlder(c: Config, trace: seq<Sys>, actions: seq<Action>, k: nat)
    requires Run(c, trace, actions) && k < |trace| && trace[k].proc.Some? && trace[k].proc.value.pc.AtRound?
    ensures var p := trace[k].proc.value;
            p.pc.round !in p.failed || p.pc.round in p.resumable ==> p.parentRef != ChildOf(p.pc.round)
  {
    RunInv(c, trace, actions, k);
    var s, p := trace[k], trace[k].proc.value;
    assert AtRoundInv(s.disk, p) && ParentInv(c, s.disk, s.path, s.terms);
    assert AccountingInv(s.disk, s.path, s.orphaned, Window(s));
    if p.parentRef == ChildOf(p.pc.round) {
      assert s.path[|s.path| - 1] in s.path;
      assert Complete(s.disk, p.pc.round);
    }
    hide Inv, Lineage;
  }

  /** A round either leads to the next one, with or without a new parent, or ends the launch. */
  datatype RoundEnd = Went(improved: bool) | Ended(exit: Exit)

  method Greatest(rounds: set<nat>) returns (m: nat)
    ensures m == MaxOf(rounds)
  {
    m := 0;
    var todo := rounds;
    while todo != {}
      invariant todo <= rounds && (forall x :: x in rounds && x !in todo ==> x <= m) && (m == 0 || m in rounds)
      decreases todo
    {
      var x :| x in todo;
      if x > m {
        m := x;
      }
      todo := todo - {x};
    }
  }

  method Least(rounds: set<nat>) returns (m: nat)
    requires rounds != {}
    ensures m == MinOf(rounds)
  {
    m :| m in rounds;
    var todo := rounds - {m};
    while todo != {}
      invariant todo <= rounds && m in rounds && (forall x :: x in rounds && x !in todo ==> m <= x)
      decreases todo
    {
      var x :| x in todo;
      if x < m {
        m := x;
      }
      todo := todo - {x};
    }
  }
}
