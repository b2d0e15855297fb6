/**
 The two-file artifact of a teacher trajectory: a tensor file and a JSON record that carries its digests.
 Directories are made and files replaced in one step each; savers may interleave and may die between any two steps.
 */
module TrajectoryRecord {
  import opened Wrappers
  import opened Tensors
  import SchedulerMachine

  /** Hashing without collisions: a digest is the hashed structure itself. */
  datatype Digest = NoDigest | TensorDigest(Tensor) | TensorsDigest(Payload)

  /** The content of the tensor file. */
  datatype Payload = Payload(noise: Tensor, cleanLatent: Tensor, states: seq<Tensor>,
                             snapshots: seq<SchedulerMachine.Snapshot>, predictions: seq<Tensor>)

  datatype Record = Record(
    schemaVersion: int,
    cacheItem: string, cacheDigest: string, conditioningDigest: string,
    cleanLatentDigest: Digest, noiseDigest: Digest,
    teacherCheckpointDigest: string, schedulerDigest: string,
    sourceNfe: int, targetNfe: int,
    sourceSigmas: seq<real>, targetSigmas: seq<real>, sourceTimesteps: seq<real>, targetTimesteps: seq<real>,
    tensorArtifact: string, tensorDigest: Digest)

  datatype Trajectory = Trajectory(metadata: Record, tensors: Payload)

  const SCHEMA_VERSION: int := 1
  const TENSOR_ARTIFACT: string := "trajectory-tensors.pt"
  const RECORD_ARTIFACT: string := "trajectory-record.json"

  datatype Rejection =
    | UnsupportedSchema | NotBinaryPair
    | SourceSigmaCount | TargetSigmaCount | SourceTimestepCount | TargetTimestepCount
    | StateCount | SnapshotCount | PredictionCount
    | SourceSigmasNotFalling | TargetSigmasNotFalling
    | NoiseNotFinite | CleanNotFinite | StateNotFinite | PredictionNotFinite
    | NoiseDigestMismatch | CleanDigestMismatch | TensorDigestMismatch
    | MissingRecord | MissingTensors | NotAFile

  predicate FallsToZero(sigmas: seq<real>) {
    && sigmas != [] && sigmas[|sigmas| - 1] == 0.0
    && forall i :: 0 <= i < |sigmas| - 1 ==> sigmas[i] > sigmas[i + 1]
  }

  predicate EachFinite(tensors: seq<Tensor>) {
    forall i :: 0 <= i < |tensors| ==> tensors[i].AllFinite()
  }

  /** The checks in source order; None when the trajectory passes. */
  function Validate(t: Trajectory): Option<Rejection> {
    var m, p := t.metadata, t.tensors;
    if m.schemaVersion != SCHEMA_VERSION then Some(UnsupportedSchema)
    else if m.sourceNfe != 2 * m.targetNfe || m.targetNfe <= 0 then Some(NotBinaryPair)
    else if |m.sourceSigmas| != m.sourceNfe + 1 then Some(SourceSigmaCount)
    else if |m.targetSigmas| != m.targetNfe + 1 then Some(TargetSigmaCount)
    else if |m.sourceTimesteps| != m.sourceNfe then Some(SourceTimestepCount)
    else if |m.targetTimesteps| != m.targetNfe then Some(TargetTimestepCount)
    else if |p.states| != m.sourceNfe + 1 then Some(StateCount)
    else if |p.snapshots| != m.sourceNfe + 1 then Some(SnapshotCount)
    else if |p.predictions| != m.sourceNfe then Some(PredictionCount)
    else if !FallsToZero(m.sourceSigmas) then Some(SourceSigmasNotFalling)
    else if !FallsToZero(m.targetSigmas) then Some(TargetSigmasNotFalling)
    else if !p.noise.AllFinite() then Some(NoiseNotFinite)
    else if !p.cleanLatent.AllFinite() then Some(CleanNotFinite)
    else if !EachFinite(p.states) then Some(StateNotFinite)
    else if !EachFinite(p.predictions) then Some(PredictionNotFinite)
    else if TensorDigest(p.noise) != m.noiseDigest then Some(NoiseDigestMismatch)
    else if TensorDigest(p.cleanLatent) != m.cleanLatentDigest then Some(CleanDigestMismatch)
    else if TensorsDigest(p) != m.tensorDigest then Some(TensorDigestMismatch)
    else None
  }

  /** Everything a valid trajectory satisfies; nothing else is asked of it. */
  lemma ValidIff(t: Trajectory)
    ensures var m, p := t.metadata, t.tensors;
            Validate(t) == None <==>
              && m.schemaVersion == 1 && m.targetNfe > 0 && m.sourceNfe == 2 * m.targetNfe
              && |m.sourceSigmas| == m.sourceNfe + 1 && |m.targetSigmas| == m.targetNfe + 1
              && |m.sourceTimesteps| == m.sourceNfe && |m.targetTimesteps| == m.targetNfe
              && |p.states| == |p.snapshots| == m.sourceNfe + 1 && |p.predictions| == m.sourceNfe
              && Falling(m.sourceSigmas) && Falling(m.targetSigmas)
              && Real(p.noise) && Real(p.cleanLatent)
              && (forall x :: x in p.states ==> Real(x)) && (forall x :: x in p.predictions ==> Real(x))
              && m.noiseDigest == TensorDigest(p.noise) && m.cleanLatentDigest == TensorDigest(p.cleanLatent)
              && m.tensorDigest == TensorsDigest(p)
  {
    var m, p := t.metadata, t.tensors;
    FallsMeans(m.sourceSigmas);
    FallsMeans(m.targetSigmas);
    forall x: Tensor ensures x.AllFinite() <==> Real(x) {
      RealMeans(x);
    }
    hide FallsToZero;
  }

  /** Each entry is larger than all later ones, and the last is zero. */
  ghost predicate Falling(sigmas: seq<real>) {
    sigmas != [] && sigmas[|sigmas| - 1] == 0.0 && forall i, j :: 0 <= i < j < |sigmas| ==> sigmas[i] > sigmas[j]
  }

  ghost predicate Real(t: Tensor) {
    forall x :: x in t.data ==> x != NonFinite
  }

  lemma RealMeans(t: Tensor)
    ensures t.AllFinite() <==> Real(t)
  {
    if Real(t) {
      forall i | 0 <= i < |t.data| ensures t.data[i].Finite? { assert t.data[i] in t.data; }
    }
  }

  lemma FallsMeans(sigmas: seq<real>)
    ensures FallsToZero(sigmas) <==> Falling(sigmas)
  {
    if FallsToZero(sigmas) {
      forall i, j | 0 <= i < j < |sigmas| ensures sigmas[i] > sigmas[j] { FallsFurther(sigmas, i, j); }
    }
  }

  lemma {:induction false} FallsFurther(sigmas: seq<real>, i: nat, j: nat)
    requires FallsToZero(sigmas) && i < j < |sigmas|
    ensures sigmas[i] > sigmas[j]
    decreases j
  {
    if i < j - 1 { FallsFurther(sigmas, i, j - 1); }
  }

  // ----- Saving and loading

  datatype File = RecordFile(record: Record) | TensorFile(payload: Payload)

  /** The parts of an absolute path; one path lies below another that is a proper prefix of it. */
  type Path = seq<string>

  /** Where a name leads from the directory; two names may lead to one place. */
  type Locator = string -> Path

  datatype Disk = Disk(files: map<Path, File>, dirs: set<Path>)

  function Ancestors(p: Path): set<Path> {
    set i | 0 <= i < |p| :: p[..i]
  }

  /** Files and directories form a tree. */
  ghost predicate Tree(d: Disk) {
    && (forall p :: p in d.files ==> p !in d.dirs && Ancestors(p) <= d.dirs)
    && (forall p :: p in d.dirs ==> Ancestors(p) <= d.dirs)
  }

  /** A file may be written there: it is no directory, and no file is in the way. */
  predicate CanHold(d: Disk, p: Path) {
    p !in d.dirs && Ancestors(p) !! d.files.Keys
  }

  /** Making the directories above a path, and replacing the file there, are one step each. */
  datatype Op = MakeParents(path: Path) | Replace(path: Path, content: File)

  predicate Possible(d: Disk, op: Op) {
    match op
    case MakeParents(p) => Ancestors(p) !! d.files.Keys
    case Replace(p, _) => p !in d.dirs && Ancestors(p) <= d.dirs
  }

  function Apply(d: Disk, op: Op): Disk {
    match op
    case MakeParents(p) => d.(dirs := d.dirs + Ancestors(p))
    case Replace(p, content) => d.(files := d.files[p := content])
  }

  function TensorPath(locate: Locator, t: Trajectory): Path {
    locate(t.metadata.tensorArtifact)
  }

  /** The steps of a save, in order. */
  function SaveOps(locate: Locator, t: Trajectory): (ops: seq<Op>)
    ensures |ops| == 4
  {
    var tensors, record := TensorPath(locate, t), locate(RECORD_ARTIFACT);
    [MakeParents(tensors), Replace(tensors, TensorFile(t.tensors)),
     MakeParents(record), Replace(record, RecordFile(t.metadata.(tensorDigest := TensorsDigest(t.tensors))))]
  }

  /** Step after step up to the first that raises; whether none did. */
  function Perform(d: Disk, ops: seq<Op>): (Disk, bool)
    decreases |ops|
  {
    if ops == [] then (d, true)
    else if !Possible(d, ops[0]) then (d, false)
    else Perform(Apply(d, ops[0]), ops[1..])
  }

  function Saved(locate: Locator, d: Disk, t: Trajectory): Disk {
    Perform(d, SaveOps(locate, t)).0
  }

  function Read(locate: Locator, d: Disk, name: string): Option<File> {
    if locate(name) in d.files then Some(d.files[locate(name)]) else None
  }

  function ReadRecord(locate: Locator, d: Disk): Result<Record, Rejection> {
    match Read(locate, d, RECORD_ARTIFACT)
    case Some(RecordFile(record)) => Ok(record)
    case _ => Err(MissingRecord)
  }

  function ReadTensors(locate: Locator, d: Disk, record: Record): Result<Trajectory, Rejection> {
    match Read(locate, d, record.tensorArtifact)
    case Some(TensorFile(payload)) => Ok(Trajectory(record, payload))
    case _ => Err(MissingTensors)
  }

  /** Record and tensors may be read at different moments. */
  function LoadAcross(locate: Locator, first: Disk, second: Disk): Result<Trajectory, Rejection> {
    var record :- ReadRecord(locate, first);
    var t :- ReadTensors(locate, second, record);
    match Validate(t)
    case Some(e) => Err(e)
    case None => Ok(t)
  }

  function Load(locate: Locator, d: Disk): Result<Trajectory, Rejection> {
    LoadAcross(locate, d, d)
  }

  /** The tensors and the record have a place each, and neither place is below the other. */
  predicate Apart(locate: Locator, tensorArtifact: string) {
    !(locate(tensorArtifact) <= locate(RECORD_ARTIFACT)) && !(locate(RECORD_ARTIFACT) <= locate(tensorArtifact))
  }

  class Directory {
    const locate: Locator
    var disk: Disk

    constructor (locate: Locator, disk: Disk)
      ensures this.locate == locate && this.disk == disk
    {
      this.locate := locate;
      this.disk := disk;
    }

    /** One step; None when it went through. */
    method Do(op: Op) returns (rejection: Option<Rejection>)
      modifies this
      ensures rejection == if Possible(old(disk), op) then None else Some(NotAFile)
      ensures disk == if Possible(old(disk), op) then Apply(old(disk), op) else old(disk)
    {
      if !Possible(disk, op) {
        return Some(NotAFile);
      }
      disk := Apply(disk, op);
      rejection := None;
    }

    /** Write beside the target, then rename over it. */
    method Store(path: Path, content: File) returns (rejection: Option<Rejection>)
      modifies this
      ensures var (after, done) := Perform(old(disk), [MakeParents(path), Replace(path, content)]);
              disk == after && rejection == if done then None else Some(NotAFile)
    {
      PerformPair(disk, MakeParents(path), Replace(path, content));
      hide Perform;
      rejection := Do(MakeParents(path));
      if rejection.None? {
        rejection := Do(Replace(path, content));
      }
    }

    /** Nothing is written for a trajectory that does not validate. */
    method Save(t: Trajectory) returns (rejection: Option<Rejection>)
      modifies this
      ensures Validate(t).Some? ==> rejection == Validate(t) && disk == old(disk)
      ensures Validate(t).None? ==>
                var (after, done) := Perform(old(disk), SaveOps(locate, t));
                disk == after && rejection == if done then None else Some(NotAFile)
    {
      hide Validate, Perform;
      rejection := Validate(t);
      if rejection.Some? {
        return;
      }
      var ops := SaveOps(locate, t);
      PerformTwice(disk, ops[..2], ops[2..]);
      assert ops == ops[..2] + ops[2..] && ops[..2] == [ops[0], ops[1]] && ops[2..] == [ops[2], ops[3]];
      rejection := Store(locate(t.metadata.tensorArtifact), TensorFile(t.tensors));
      if rejection.None? {
        rejection := Store(locate(RECORD_ARTIFACT), RecordFile(t.metadata.(tensorDigest := TensorsDigest(t.tensors))));
      }
    }

    method LoadRecord() returns (r: Result<Trajectory, Rejection>)
      ensures r == Load(locate, disk)
    {
      var record :- ReadRecord(locate, disk);
      var t :- ReadTensors(locate, disk, record);
      var rejection := Validate(t);
      r := if rejection.Some? then Err(rejection.value) else Ok(t);
    }
  }

  lemma PerformPair(d: Disk, first: Op, second: Op)
    ensures Perform(d, [first, second])
            == if !Possible(d, first) then (d, false)
               else if !Possible(Apply(d, first), second) then (Apply(d, first), false)
               else (Apply(Apply(d, first), second), true)
  {
    assert [first, second][1..] == [second] && [second][1..] == [];
    if Possible(d, first) {
      assert Perform(d, [first, second]) == Perform(Apply(d, first), [second]);
      if Possible(Apply(d, first), second) {
        assert Perform(Apply(d, first), [second]) == Perform(Apply(Apply(d, first), second), []);
      }
    }
  }

  lemma {:induction false} PerformTwice(d: Disk, first: seq<Op>, second: seq<Op>)
    ensures var (between, done) := Perform(d, first);
            Perform(d, first + second) == if done then Perform(between, second) else (between, false)
    decreases |first|
  {
    if first == [] {
      assert first + second == second;
    } else if Possible(d, first[0]) {
      assert (first + second)[1..] == first[1..] + second;
      PerformTwice(Apply(d, first[0]), first[1..], second);
    }
  }

  lemma AncestorIs(p: Path, q: Path)
    ensures q in Ancestors(p) <==> q < p
  {
    if q < p {
      assert p[..|q|] == q;
    }
  }

  lemma StepKeepsTree(d: Disk, op: Op)
    requires Tree(d) && Possible(d, op)
    ensures Tree(Apply(d, op)) && d.dirs <= Apply(d, op).dirs && d.files.Keys <= Apply(d, op).files.Keys
  {
    if op.MakeParents? {
      forall p | p in Ancestors(op.path) ensures Ancestors(p) <= Ancestors(op.path) {
        AncestorIs(op.path, p);
        forall q | q in Ancestors(p) ensures q in Ancestors(op.path) {
          AncestorIs(p, q);
          AncestorIs(op.path, q);
        }
      }
    }
  }

  lemma {:induction false} PerformKeepsTree(d: Disk, ops: seq<Op>)
    requires Tree(d)
    ensures var after := Perform(d, ops).0;
            Tree(after) && d.dirs <= after.dirs && d.files.Keys <= after.files.Keys
    decreases |ops|
  {
    hide Tree, Possible, Apply;
    if ops != [] && Possible(d, ops[0]) {
      StepKeepsTree(d, ops[0]);
      PerformKeepsTree(Apply(d, ops[0]), ops[1..]);
    }
  }

  /** What is stored in a tree stands where files can be, and nothing stored lies below something stored. */
  lemma StoredIsApart(d: Disk, p: Path, q: Path)
    requires Tree(d) && p in d.files && q in d.files
    ensures CanHold(d, p) && !(p < q)
  {
    AncestorIs(q, p);
  }

  /** The two steps of storing a file go through exactly where a file can be. */
  lemma StoreWhenPossible(d: Disk, p: Path, content: File)
    requires Tree(d)
    ensures var (after, done) := Perform(d, [MakeParents(p), Replace(p, content)]);
            && (done <==> CanHold(d, p))
            && (done ==> after == Disk(d.files[p := content], d.dirs + Ancestors(p)))
            && (!done ==> after.files == d.files)
  {
    PerformPair(d, MakeParents(p), Replace(p, content));
    AncestorIs(p, p);
    hide Perform;
  }

  /** Where tensors and record end up, in two stores. */
  lemma SaveIsTwoStores(locate: Locator, d: Disk, t: Trajectory)
    ensures var ops := SaveOps(locate, t);
            var (between, done) := Perform(d, ops[..2]);
            && ops[..2] == [ops[0], ops[1]] && ops[2..] == [ops[2], ops[3]]
            && Perform(d, ops) == if done then Perform(between, ops[2..]) else (between, false)
  {
    var ops := SaveOps(locate, t);
    PerformTwice(d, ops[..2], ops[2..]);
    assert ops == ops[..2] + ops[2..];
  }

  lemma LoadedIsThere(locate: Locator, d: Disk, t: Trajectory)
    requires Load(locate, d) == Ok(t)
    ensures Validate(t) == None && ReadRecord(locate, d) == Ok(t.metadata)
    ensures Read(locate, d, RECORD_ARTIFACT) == Some(RecordFile(t.metadata))
    ensures Read(locate, d, t.metadata.tensorArtifact) == Some(TensorFile(t.tensors))
  {
    hide Validate;
    var record := ReadRecord(locate, d).value;
    assert ReadTensors(locate, d, record) == Ok(t);
  }

  lemma StoredLoads(locate: Locator, d: Disk, t: Trajectory)
    requires Validate(t) == None
    requires Read(locate, d, RECORD_ARTIFACT) == Some(RecordFile(t.metadata))
    requires Read(locate, d, t.metadata.tensorArtifact) == Some(TensorFile(t.tensors))
    ensures Load(locate, d) == Ok(t)
  {
  }

  lemma DigestIsOwn(t: Trajectory)
    requires Validate(t) == None
    ensures t.metadata.(tensorDigest := TensorsDigest(t.tensors)) == t.metadata
  {
  }

  /**
   An uninterrupted save, then a load: the same trajectory exactly when a file can be in both places and neither place
   is the other or below it.
   */
  lemma SaveThenLoadIff(locate: Locator, d: Disk, t: Trajectory)
    requires Tree(d) && Validate(t) == None
    ensures Load(locate, Saved(locate, d, t)) == Ok(t) <==>
            && Apart(locate, t.metadata.tensorArtifact)
            && CanHold(d, TensorPath(locate, t)) && CanHold(d, locate(RECORD_ARTIFACT))
  {
    hide Validate, Tree, Perform, Possible;
    var p, q, after := TensorPath(locate, t), locate(RECORD_ARTIFACT), Saved(locate, d, t);
    var ops := SaveOps(locate, t);
    PerformKeepsTree(d, ops);
    if Load(locate, after) == Ok(t) {
      LoadedIsThere(locate, after, t);
      StoredIsApart(after, p, q);
      StoredIsApart(after, q, p);
      assert p != q && p[..|p|] == p && q[..|q|] == q;
    }
    if Apart(locate, t.metadata.tensorArtifact) && CanHold(d, p) && CanHold(d, q) {
      SaveApart(locate, d, t);
      StoredLoads(locate, after, t);
    }
  }

  lemma SaveApart(locate: Locator, d: Disk, t: Trajectory)
    requires Tree(d) && Validate(t) == None && Apart(locate, t.metadata.tensorArtifact)
    requires CanHold(d, TensorPath(locate, t)) && CanHold(d, locate(RECORD_ARTIFACT))
    ensures TensorPath(locate, t) != locate(RECORD_ARTIFACT) && Perform(d, SaveOps(locate, t)).1
    ensures Saved(locate, d, t).files
            == d.files[TensorPath(locate, t) := TensorFile(t.tensors)]
                      [locate(RECORD_ARTIFACT) := RecordFile(t.metadata)]
  {
    hide Validate, Tree, Perform, Possible;
    var p, q, ops := TensorPath(locate, t), locate(RECORD_ARTIFACT), SaveOps(locate, t);
    assert q[..|q|] == q;
    SaveIsTwoStores(locate, d, t);
    StoreWhenPossible(d, p, TensorFile(t.tensors));
    var between := Perform(d, ops[..2]).0;
    PerformKeepsTree(d, ops[..2]);
    AncestorIs(q, p);
    AncestorIs(p, q);
    DigestIsOwn(t);
    StoreWhenPossible(between, q, RecordFile(t.metadata));
  }

  /** A saver that dies after k of its steps. */
  function Interrupted(locate: Locator, d: Disk, t: Trajectory, k: nat): Disk
    requires k <= 4
  {
    Perform(d, SaveOps(locate, t)[..k]).0
  }

  /** What the first k steps have done to the files. */
  lemma InterruptedFiles(locate: Locator, d: Disk, t: Trajectory, k: nat)
    requires Tree(d) && k <= 4
    ensures var p, q := TensorPath(locate, t), locate(RECORD_ARTIFACT);
            var files := Interrupted(locate, d, t, k).files;
            && (k <= 1 || !CanHold(d, p) ==> files == d.files)
            && (2 <= k <= 3 && CanHold(d, p) ==> files == d.files[p := TensorFile(t.tensors)])
            && (k == 4 ==> files == Saved(locate, d, t).files)
  {
    hide Tree, Possible, CanHold;
    var ops, p := SaveOps(locate, t), TensorPath(locate, t);
    StoreWhenPossible(d, p, TensorFile(t.tensors));
    SaveIsTwoStores(locate, d, t);
    assert ops[..4] == ops;
    if k == 1 {
      assert ops[..1] == [ops[0]] && [ops[0]][1..] == [];
      assert Possible(d, ops[0]) ==> Perform(Apply(d, ops[0]), []) == (Apply(d, ops[0]), true);
    }
    if k == 3 {
      var between := Perform(d, ops[..2]).0;
      assert ops[..3] == ops[..2] + [ops[2]] && [ops[2]][1..] == [];
      PerformTwice(d, ops[..2], [ops[2]]);
      assert Possible(between, ops[2]) ==> Perform(Apply(between, ops[2]), []) == (Apply(between, ops[2]), true);
    }
  }

  /**
   Saving `next` over `previous`, dying anywhere: a later load gives the old trajectory, the new one, or an error.
   Once the new tensors are written and the record is not, it is the old one exactly when the old tensors are untouched
   or rewritten as they were.
   */
  lemma CrashGivesOldNewOrError(locate: Locator, d: Disk, previous: Trajectory, next: Trajectory, k: nat)
    requires k <= 4 && Tree(d) && Load(locate, d) == Ok(previous) && Validate(next) == None
    ensures var loaded := Load(locate, Interrupted(locate, d, next, k));
            var newPath, recordPath := TensorPath(locate, next), locate(RECORD_ARTIFACT);
            && (loaded == Ok(previous) || loaded == Ok(next) || loaded.Err?)
            && (k <= 1 || !CanHold(d, newPath) ==> loaded == Ok(previous))
            && (2 <= k <= 3 && CanHold(d, newPath) && newPath != recordPath ==>
                  (loaded == Ok(previous) <==>
                    newPath != TensorPath(locate, previous) || next.tensors == previous.tensors))
            && (k == 4 && CanHold(d, newPath) && newPath != recordPath ==> loaded == Ok(next))
            && (k >= 2 && CanHold(d, newPath) && newPath == recordPath ==> loaded.Err?)
  {
    hide Validate, Tree, Perform, CanHold, SaveOps;
    var p, q, after := TensorPath(locate, next), locate(RECORD_ARTIFACT), Interrupted(locate, d, next, k);
    LoadedIsThere(locate, d, previous);
    InterruptedFiles(locate, d, next, k);
    RecordCanStay(locate, d, next);
    if k <= 1 || !CanHold(d, p) {
      SameFilesLoad(locate, d, after);
    } else if k < 4 && p != q {
      RecordVouchesForTensors(locate, previous, after, after);
    } else if k < 4 {
      assert Read(locate, after, RECORD_ARTIFACT) == Some(TensorFile(next.tensors));
    } else {
      SaveOverRecord(locate, d, next);
      SameFilesLoad(locate, Saved(locate, d, next), after);
    }
  }

  lemma SameFilesLoad(locate: Locator, d: Disk, d': Disk)
    requires d'.files == d.files
    ensures Load(locate, d') == Load(locate, d)
  {
    hide Validate;
  }

  /** Over an existing record, tensors that can be stored elsewhere lie apart from it. */
  lemma RecordCanStay(locate: Locator, d: Disk, t: Trajectory)
    requires Tree(d) && locate(RECORD_ARTIFACT) in d.files
    ensures CanHold(d, locate(RECORD_ARTIFACT))
    ensures CanHold(d, TensorPath(locate, t)) && TensorPath(locate, t) != locate(RECORD_ARTIFACT) ==>
              Apart(locate, t.metadata.tensorArtifact)
  {
    var p, q := TensorPath(locate, t), locate(RECORD_ARTIFACT);
    StoredIsApart(d, q, q);
    AncestorIs(p, q);
    AncestorIs(q, p);
  }

  /** A whole save over an existing record. */
  lemma SaveOverRecord(locate: Locator, d: Disk, t: Trajectory)
    requires Tree(d) && locate(RECORD_ARTIFACT) in d.files && Validate(t) == None && CanHold(d, TensorPath(locate, t))
    ensures var loaded, apart := Load(locate, Saved(locate, d, t)), TensorPath(locate, t) != locate(RECORD_ARTIFACT);
            (apart ==> loaded == Ok(t)) && (!apart ==> loaded.Err?)
  {
    hide Validate, Tree, Possible, Perform;
    var p, q := TensorPath(locate, t), locate(RECORD_ARTIFACT);
    RecordCanStay(locate, d, t);
    if p != q {
      SaveThenLoadIff(locate, d, t);
    } else {
      SaveIsTwoStores(locate, d, t);
      StoreWhenPossible(d, p, TensorFile(t.tensors));
      var between := Perform(d, SaveOps(locate, t)[..2]).0;
      PerformKeepsTree(d, SaveOps(locate, t)[..2]);
      StoreWhenPossible(between, q, RecordFile(t.metadata.(tensorDigest := TensorsDigest(t.tensors))));
      DigestIsOwn(t);
      hide CanHold;
      assert Saved(locate, d, t).files[p] == TensorFile(t.tensors)
          || Saved(locate, d, t).files[p] == RecordFile(t.metadata);
    }
  }

  // ----- Any number of savers

  datatype Saver = Saver(trajectory: Trajectory, done: nat)

  /** `accepted` remembers every trajectory whose save got past validation. */
  datatype World = World(disk: Disk, savers: map<nat, Saver>, accepted: set<Trajectory>)

  datatype Event = Start(id: nat, trajectory: Trajectory) | Advance(id: nat) | Die(id: nat)

  ghost predicate Next(locate: Locator, w: World, e: Event, w': World) {
    match e
    case Start(id, t) =>
      && id !in w.savers
      && w' == (if Validate(t) == None then World(w.disk, w.savers[id := Saver(t, 0)], w.accepted + {t}) else w)
    case Advance(id) =>
      && id in w.savers && w.savers[id].done < 4
      && var saver := w.savers[id];
      && var op := SaveOps(locate, saver.trajectory)[saver.done];
      && w' == (if Possible(w.disk, op) then
                  World(Apply(w.disk, op), w.savers[id := saver.(done := saver.done + 1)], w.accepted)
                else w.(savers := w.savers - {id}))
    case Die(id) => w' == w.(savers := w.savers - {id})
  }

  ghost predicate Run(locate: Locator, states: seq<World>, events: seq<Event>) {
    && |states| == |events| + 1
    && states[0].disk.files == map[] && states[0].savers == map[] && states[0].accepted == {}
    && forall i :: 0 <= i < |events| ==> Next(locate, states[i], events[i], states[i + 1])
  }

  /** Every file on disk was written whole by the save of an accepted trajectory. */
  ghost predicate WorldInv(w: World) {
    && (forall t :: t in w.accepted ==> Validate(t) == None)
    && (forall id :: id in w.savers ==> w.savers[id].trajectory in w.accepted)
    && (forall p :: p in w.disk.files && w.disk.files[p].RecordFile? ==>
          exists t :: t in w.accepted && t.metadata == w.disk.files[p].record)
  }

  lemma NextKeepsInv(locate: Locator, w: World, e: Event, w': World)
    requires WorldInv(w) && Next(locate, w, e, w')
    ensures WorldInv(w') && w.accepted <= w'.accepted
  {
    if e.Advance? {
      var saver := w.savers[e.id];
      assert saver.trajectory in w.accepted;
      DigestIsOwn(saver.trajectory);
    }
  }

  lemma {:induction false} RunInv(locate: Locator, states: seq<World>, events: seq<Event>, i: nat)
    requires Run(locate, states, events) && i < |states|
    ensures WorldInv(states[i])
  {
    if i > 0 {
      RunInv(locate, states, events, i - 1);
      NextKeepsInv(locate, states[i - 1], events[i - 1], states[i]);
    }
  }

  lemma {:induction false} AcceptedGrows(locate: Locator, states: seq<World>, events: seq<Event>, i: nat, j: nat)
    requires Run(locate, states, events) && i <= j < |states|
    ensures states[i].accepted <= states[j].accepted
    decreases j
  {
    if i < j {
      AcceptedGrows(locate, states, events, i, j - 1);
      RunInv(locate, states, events, j - 1);
      NextKeepsInv(locate, states[j - 1], events[j - 1], states[j]);
    }
  }

  /**
   Whatever savers did and wherever they died, and even when the record and the tensors are read at different
   moments: a load returns a trajectory that was wholly accepted for saving, or an error; never a mixture.
   */
  lemma LoadsAreNeverMixed(locate: Locator, states: seq<World>, events: seq<Event>, i: nat, j: nat)
    requires Run(locate, states, events) && i <= j < |states|
    ensures var loaded := LoadAcross(locate, states[i].disk, states[j].disk);
            loaded.Ok? ==> loaded.value in states[j].accepted
  {
    RunInv(locate, states, events, i);
    AcceptedGrows(locate, states, events, i, j);
    var loaded := LoadAcross(locate, states[i].disk, states[j].disk);
    if loaded.Ok? {
      var t :| t in states[i].accepted && ReadRecord(locate, states[i].disk) == Ok(t.metadata);
      assert TensorsDigest(t.tensors) == t.metadata.tensorDigest == TensorsDigest(loaded.value.tensors);
    }
  }

  /** A record vouches for its tensors: with any other tensor file, however it came about, loading fails. */
  lemma RecordVouchesForTensors(locate: Locator, t: Trajectory, d: Disk, other: Disk)
    requires Validate(t) == None && ReadRecord(locate, d) == Ok(t.metadata)
    ensures LoadAcross(locate, d, other) == Ok(t) <==>
            Read(locate, other, t.metadata.tensorArtifact) == Some(TensorFile(t.tensors))
    ensures LoadAcross(locate, d, other).Ok? ==> LoadAcross(locate, d, other) == Ok(t)
  {
    var loaded := ReadTensors(locate, other, t.metadata);
    if loaded.Ok? && Validate(loaded.value) == None {
      assert TensorsDigest(loaded.value.tensors) == TensorsDigest(t.tensors);
    }
  }
}
