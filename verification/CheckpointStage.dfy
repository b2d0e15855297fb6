/**
 The one-entry staging cache that campaign prefetchers and rank-0 training workers share under one file lock.
 Every file operation is a step; a process may die before any of its steps, which releases its lock.
 */
module CheckpointStage {
  import opened Wrappers
  import opened Decimal

  type Byte = x: int | 0 <= x < 256

  /** A source checkpoint; it does not change and lies outside the staging directory. */
  datatype Source = Source(stem: string, mtime: int, bytes: seq<Byte>)

  type Name = string

  function Signed(n: int): string {
    if n < 0 then "-" + ToDecimal(-n) else ToDecimal(n)
  }

  /** A staged file is named after its source's stem, size and modification time. */
  function NameOf(s: Source): Name {
    s.stem + "-" + ToDecimal(|s.bytes|) + "-" + Signed(s.mtime) + ".safetensors"
  }

  /** Names tell sources apart by stem, size and modification time, dashes and digits in the stem notwithstanding. */
  lemma SameNameIff(s: Source, t: Source)
    ensures NameOf(s) == NameOf(t) <==> s.stem == t.stem && |s.bytes| == |t.bytes| && s.mtime == t.mtime
  {
    if NameOf(s) == NameOf(t) {
      var a, b := s.stem + "-" + ToDecimal(|s.bytes|), t.stem + "-" + ToDecimal(|t.bytes|);
      var x, y := a + "-" + Signed(s.mtime), b + "-" + Signed(t.mtime);
      assert NameOf(s) == x + ".safetensors" && NameOf(t) == y + ".safetensors";
      assert x == NameOf(s)[..|NameOf(s)| - |".safetensors"|] && y == NameOf(t)[..|NameOf(t)| - |".safetensors"|];
      var m, n := if s.mtime < 0 then -s.mtime else s.mtime, if t.mtime < 0 then -t.mtime else t.mtime;
      var c, d := if s.mtime < 0 then a + "-" else a, if t.mtime < 0 then b + "-" else b;
      assert x == c + "-" + ToDecimal(m) && y == d + "-" + ToDecimal(n);
      NumberAfterDash(c, m, d, n);
      assert IsAscii(a[|a| - 1]) && IsAscii(b[|b| - 1]);
      assert a == b by {
        assert s.mtime < 0 ==> c[|c| - 1] == '-' && c[..|c| - 1] == a;
        assert t.mtime < 0 ==> d[|d| - 1] == '-' && d[..|d| - 1] == b;
      }
      NumberAfterDash(s.stem, |s.bytes|, t.stem, |t.bytes|);
    }
  }

  datatype Kind = Prefetcher | Worker

  datatype Pc =
    | Waiting
    | Checking
    | UnlinkingPartial
    | Opening
    | Copying(copied: nat)
    | ComparingSize
    | Renaming
    | PruningFinals(todo: set<Name>)
    | PruningPartials(todo: set<Name>)
    | Unlocking(done: bool)
    | Ended(done: bool)

  /** `kept` and `keptPartials`: files whose deletion failed and was tolerated. */
  datatype Proc = Proc(kind: Kind, source: Source, pc: Pc, kept: set<Name>, keptPartials: set<Name>) {
    function Target(): Name {
      NameOf(source)
    }

    predicate Critical() {
      !pc.Waiting? && !pc.Ended?
    }
  }

  type Pid = nat

  datatype State = State(finals: map<Name, seq<Byte>>, partials: map<Name, seq<Byte>>, lock: Option<Pid>,
                         procs: map<Pid, Proc>)

  datatype Event =
    | Arrive(pid: Pid, kind: Kind, source: Source)
    | Acquire(pid: Pid)
    | Advance(pid: Pid)
    | Chunk(pid: Pid, upTo: nat)
    | CopyFails(pid: Pid)
    | Unlink(pid: Pid, name: Name)
    | UnlinkFails(pid: Pid, name: Name)
    | Crash(pid: Pid)

  function At(st: State, pid: Pid, pc: Pc): State
    requires pid in st.procs
  {
    st.(procs := st.procs[pid := st.procs[pid].(pc := pc)])
  }

  /** The holder's next step, where it has no choice; None where it must unlink first or copy on. */
  function AdvanceStep(st: State, pid: Pid): Option<State>
    requires pid in st.procs
  {
    var p := st.procs[pid];
    var target := p.Target();
    match p.pc
    case Waiting => None
    case Checking =>
      if target in st.finals && |st.finals[target]| == |p.source.bytes| then
        Some(At(st, pid, PruningFinals(st.finals.Keys - {target})))
      else Some(At(st, pid, if p.kind.Prefetcher? then UnlinkingPartial else Opening))
    case UnlinkingPartial => Some(At(st.(partials := st.partials - {target}), pid, Opening))
    case Opening => Some(At(st.(partials := st.partials[target := []]), pid, Copying(0)))
    case Copying(n) => if n == |p.source.bytes| then Some(At(st, pid, ComparingSize)) else None
    case ComparingSize =>
      if target in st.partials && |st.partials[target]| == |p.source.bytes| then Some(At(st, pid, Renaming))
      else Some(At(st, pid, Unlocking(false)))
    case Renaming =>
      if target !in st.partials then Some(At(st, pid, Unlocking(false)))
      else
        var finals := st.finals[target := st.partials[target]];
        Some(At(st.(finals := finals, partials := st.partials - {target}), pid, PruningFinals(finals.Keys - {target})))
    case PruningFinals(todo) => if todo == {} then Some(At(st, pid, PruningPartials(st.partials.Keys))) else None
    case PruningPartials(todo) => if todo == {} then Some(At(st, pid, Unlocking(true))) else None
    case Unlocking(done) => Some(At(st.(lock := None), pid, Ended(done)))
    case Ended(_) => None
  }

  ghost predicate Next(st: State, e: Event, st': State, sources: set<Source>) {
    match e
    case Arrive(pid, kind, source) =>
      && pid !in st.procs && source in sources
      && st' == st.(procs := st.procs[pid := Proc(kind, source, Waiting, {}, {})])
    case Acquire(pid) =>
      pid in st.procs && st.procs[pid].pc.Waiting? && st.lock == None
        && st' == At(st, pid, Checking).(lock := Some(pid))
    case Advance(pid) =>
      pid in st.procs && AdvanceStep(st, pid) == Some(st')
    case Chunk(pid, upTo) =>
      && pid in st.procs && st.procs[pid].pc.Copying?
      && st.procs[pid].pc.copied < upTo <= |st.procs[pid].source.bytes|
      && var p := st.procs[pid];
      && p.Target() in st.partials
      && st' == At(st.(partials := st.partials[p.Target() :=
                         st.partials[p.Target()] + p.source.bytes[p.pc.copied..upTo]]), pid, Copying(upTo))
    case CopyFails(pid) =>
      pid in st.procs && st.procs[pid].pc.Copying? && st' == At(st, pid, Unlocking(false))
    case Unlink(pid, name) =>
      && pid in st.procs
      && (match st.procs[pid].pc
          case PruningFinals(todo) =>
            name in todo && st' == At(st.(finals := st.finals - {name}), pid, PruningFinals(todo - {name}))
          case PruningPartials(todo) =>
            name in todo && st' == At(st.(partials := st.partials - {name}), pid, PruningPartials(todo - {name}))
          case _ => false)
    case UnlinkFails(pid, name) =>
      && pid in st.procs
      && var p := st.procs[pid];
      && (match p.pc
          case PruningFinals(todo) =>
            && name in todo
            && st' == (if p.kind.Prefetcher? then At(st, pid, Unlocking(false))
                       else st.(procs :=
                                st.procs[pid := p.(pc := PruningFinals(todo - {name}), kept := p.kept + {name})]))
          case PruningPartials(todo) =>
            && name in todo
            && st' == (if p.kind.Prefetcher? then At(st, pid, Unlocking(false))
                       else st.(procs := st.procs[pid := p.(pc := PruningPartials(todo - {name}),
                                                            keptPartials := p.keptPartials + {name})]))
          case _ => false)
    case Crash(pid) =>
      && pid in st.procs
      && st' == st.(procs := st.procs - {pid}, lock := if st.lock == Some(pid) then None else st.lock)
  }

  ghost predicate Run(states: seq<State>, events: seq<Event>, sources: set<Source>) {
    && |states| == |events| + 1
    && states[0] == State(map[], map[], None, map[])
    && forall i :: 0 <= i < |events| ==> Next(states[i], events[i], states[i + 1], sources)
  }

  // ----- The invariant

  ghost predicate IsWhole(name: Name, bytes: seq<Byte>, sources: set<Source>) {
    exists s :: s in sources && NameOf(s) == name && s.bytes == bytes
  }

  /** A file under a staged name is always the whole of a source of that name. */
  ghost predicate FinalsWhole(st: State, sources: set<Source>) {
    forall name :: name in st.finals ==> IsWhole(name, st.finals[name], sources)
  }

  /** Inside the critical section is exactly the lock holder. */
  ghost predicate LockInv(st: State) {
    forall pid :: pid in st.procs ==> (st.procs[pid].Critical() <==> st.lock == Some(pid))
  }

  ghost predicate LockHeld(st: State) {
    st.lock.Some? ==> st.lock.value in st.procs
  }

  /** What the holder has achieved at each point. */
  ghost predicate Progress(st: State, p: Proc) {
    var target := p.Target();
    match p.pc
    case Waiting => p.kept == {} && p.keptPartials == {}
    case Checking => p.kept == {} && p.keptPartials == {}
    case UnlinkingPartial => target !in st.finals && p.kept == {} && p.keptPartials == {}
    case Opening => target !in st.finals && p.kept == {} && p.keptPartials == {}
    case Copying(n) =>
      && target !in st.finals && p.kept == {} && p.keptPartials == {}
      && n <= |p.source.bytes| && target in st.partials && st.partials[target] == p.source.bytes[..n]
    case ComparingSize =>
      target !in st.finals && p.kept == {} && p.keptPartials == {} && target in st.partials
        && st.partials[target] == p.source.bytes
    case Renaming =>
      target !in st.finals && p.kept == {} && p.keptPartials == {} && target in st.partials
        && st.partials[target] == p.source.bytes
    case PruningFinals(todo) =>
      target in st.finals && target !in todo && todo !! p.kept && st.finals.Keys == {target} + todo + p.kept
        && p.keptPartials == {}
    case PruningPartials(todo) =>
      st.finals.Keys == {target} + p.kept && todo !! p.keptPartials && st.partials.Keys == todo + p.keptPartials
    case Unlocking(done) =>
      done ==> st.finals.Keys == {target} + p.kept && st.partials.Keys == p.keptPartials
    case Ended(_) => true
  }

  ghost predicate HolderInv(st: State) {
    st.lock.Some? && st.lock.value in st.procs ==> Progress(st, st.procs[st.lock.value])
  }

  ghost predicate ProcsInv(st: State, sources: set<Source>) {
    forall pid :: pid in st.procs ==>
      && st.procs[pid].source in sources
      && (st.procs[pid].pc.Waiting? || st.procs[pid].kind.Prefetcher? ==>
            st.procs[pid].kept == {} && st.procs[pid].keptPartials == {})
  }

  ghost predicate Inv(st: State, sources: set<Source>) {
    FinalsWhole(st, sources) && LockInv(st) && LockHeld(st) && HolderInv(st) && ProcsInv(st, sources)
  }

  // ----- Preservation

  /** A change of the holder's own entry and of the files, which leaves everyone else waiting or ended. */
  lemma HolderMoves(st: State, st': State, pid: Pid, p: Proc, sources: set<Source>)
    requires Inv(st, sources) && pid in st.procs && st.lock == Some(pid)
    requires st'.procs == st.procs[pid := p] && p.source == st.procs[pid].source && p.Critical() && st'.lock == st.lock
    requires FinalsWhole(st', sources) && Progress(st', p) && p.kind == st.procs[pid].kind
    requires p.kind.Prefetcher? ==> p.kept == st.procs[pid].kept && p.keptPartials == st.procs[pid].keptPartials
    ensures Inv(st', sources)
  {
  }

  lemma AdvanceKeepsInv(st: State, pid: Pid, st': State, sources: set<Source>)
    requires Inv(st, sources) && pid in st.procs && AdvanceStep(st, pid) == Some(st')
    ensures Inv(st', sources)
  {
    var p := st.procs[pid];
    assert p.Critical();
    assert st.lock == Some(pid);
    assert Progress(st, p);
    if p.pc.Unlocking? {
      UnlockKeepsInv(st, pid, st', sources);
    } else {
      AdvanceFiles(st, pid, st', sources);
      HolderMoves(st, st', pid, st'.procs[pid], sources);
    }
  }

  lemma UnlockKeepsInv(st: State, pid: Pid, st': State, sources: set<Source>)
    requires Inv(st, sources) && pid in st.procs && st.lock == Some(pid) && st.procs[pid].pc.Unlocking?
    requires AdvanceStep(st, pid) == Some(st')
    ensures Inv(st', sources)
  {
  }

  lemma AdvanceFiles(st: State, pid: Pid, st': State, sources: set<Source>)
    requires pid in st.procs && st.lock == Some(pid) && FinalsWhole(st, sources) && Progress(st, st.procs[pid])
    requires st.procs[pid].source in sources && !st.procs[pid].pc.Unlocking? && AdvanceStep(st, pid) == Some(st')
    ensures FinalsWhole(st', sources) && Progress(st', st'.procs[pid]) && st'.procs[pid].Critical()
    ensures st'.lock == st.lock && st'.procs == st.procs[pid := st'.procs[pid]]
    ensures st'.procs[pid] == st.procs[pid].(pc := st'.procs[pid].pc)
  {
    hide NameOf;
    var p := st.procs[pid];
    match p.pc {
      case Checking =>
        if p.Target() in st.finals {
          var s :| s in sources && NameOf(s) == p.Target() && s.bytes == st.finals[p.Target()];
          SameNameIff(s, p.source);
        }
      case Copying(n) =>
        assert p.source.bytes[..|p.source.bytes|] == p.source.bytes;
      case Renaming =>
        assert IsWhole(p.Target(), p.source.bytes, sources);
      case _ =>
    }
  }

  lemma ChunkKeepsInv(st: State, pid: Pid, upTo: nat, st': State, sources: set<Source>)
    requires Inv(st, sources) && Next(st, Chunk(pid, upTo), st', sources)
    ensures Inv(st', sources)
  {
    hide NameOf;
    var p := st.procs[pid];
    assert p.Critical();
    assert Progress(st, p);
    assert p.source.bytes[..p.pc.copied] + p.source.bytes[p.pc.copied..upTo] == p.source.bytes[..upTo];
    HolderMoves(st, st', pid, st'.procs[pid], sources);
  }

  lemma UnlinkKeepsInv(st: State, e: Event, st': State, sources: set<Source>)
    requires Inv(st, sources) && (e.Unlink? || e.UnlinkFails? || e.CopyFails?) && Next(st, e, st', sources)
    ensures Inv(st', sources)
  {
    hide NameOf;
    var p := st.procs[e.pid];
    assert p.Critical();
    assert Progress(st, p);
    UnlinkFiles(st, e, st', sources);
    hide Progress;
    HolderMoves(st, st', e.pid, st'.procs[e.pid], sources);
  }

  lemma UnlinkFiles(st: State, e: Event, st': State, sources: set<Source>)
    requires e.pid in st.procs && FinalsWhole(st, sources) && Progress(st, st.procs[e.pid])
    requires (e.Unlink? || e.UnlinkFails? || e.CopyFails?) && Next(st, e, st', sources)
    ensures e.pid in st'.procs && FinalsWhole(st', sources) && Progress(st', st'.procs[e.pid])
  {
    hide NameOf;
    var p, p' := st.procs[e.pid], st'.procs[e.pid];
    if !e.CopyFails? {
      match p.pc {
        case PruningFinals(todo) =>
          if e.Unlink? {
            assert st'.finals.Keys == {p.Target()} + (todo - {e.name}) + p.kept;
          } else if p.kind.Worker? {
            assert st.finals.Keys == {p.Target()} + (todo - {e.name}) + (p.kept + {e.name});
          }
        case PruningPartials(todo) =>
          if e.Unlink? {
            assert st'.partials.Keys == (todo - {e.name}) + p.keptPartials;
          } else if p.kind.Worker? {
            assert st.partials.Keys == (todo - {e.name}) + (p.keptPartials + {e.name});
          }
        case _ =>
      }
    }
  }

  lemma NextKeepsInv(st: State, e: Event, st': State, sources: set<Source>)
    requires Inv(st, sources) && Next(st, e, st', sources)
    ensures Inv(st', sources)
  {
    hide NameOf;
    match e {
      case Advance(pid) => AdvanceKeepsInv(st, pid, st', sources);
      case Chunk(pid, upTo) => ChunkKeepsInv(st, pid, upTo, st', sources);
      case CopyFails(_) => UnlinkKeepsInv(st, e, st', sources);
      case Unlink(_, _) => UnlinkKeepsInv(st, e, st', sources);
      case UnlinkFails(_, _) => UnlinkKeepsInv(st, e, st', sources);
      case Arrive(_, _, _) =>
      case Acquire(_) =>
      case Crash(_) =>
    }
  }

  lemma {:induction false} RunInv(states: seq<State>, events: seq<Event>, sources: set<Source>, i: nat)
    requires Run(states, events, sources) && i < |states|
    ensures Inv(states[i], sources)
  {
    if i > 0 {
      RunInv(states, events, sources, i - 1);
      NextKeepsInv(states[i - 1], events[i - 1], states[i], sources);
    }
  }

  // ----- What holds in every run

  /** Whoever crashed and wherever: a file under a final staged name is the whole of a source of that name. */
  lemma StagedFilesAreWhole(states: seq<State>, events: seq<Event>, sources: set<Source>, i: nat, name: Name)
    requires Run(states, events, sources) && i < |states| && name in states[i].finals
    ensures exists s :: s in sources && NameOf(s) == name && s.bytes == states[i].finals[name]
  {
    RunInv(states, events, sources, i);
    assert IsWhole(name, states[i].finals[name], sources);
  }

  /** Equal stem, size and modification time. */
  predicate SameMark(s: Source, t: Source) {
    s.stem == t.stem && |s.bytes| == |t.bytes| && s.mtime == t.mtime
  }

  ghost predicate NoCollision(sources: set<Source>) {
    forall s, t :: s in sources && t in sources && SameMark(s, t) ==> s.bytes == t.bytes
  }

  /** The check after the barrier: a file of the right name holds this very checkpoint. */
  lemma StagedFileIsMine(states: seq<State>, events: seq<Event>, sources: set<Source>, i: nat, mine: Source)
    requires Run(states, events, sources) && i < |states| && mine in sources && NoCollision(sources)
    requires NameOf(mine) in states[i].finals
    ensures states[i].finals[NameOf(mine)] == mine.bytes
  {
    StagedFilesAreWhole(states, events, sources, i, NameOf(mine));
    var s :| s in sources && NameOf(s) == NameOf(mine) && s.bytes == states[i].finals[NameOf(mine)];
    SameNameIff(s, mine);
  }

  /** Only the lock holder touches a file, by a step of its own, and there is one holder. */
  lemma OnlyHolderTouchesFiles(states: seq<State>, events: seq<Event>, sources: set<Source>, i: nat)
    requires Run(states, events, sources) && i < |events|
    requires states[i + 1].finals != states[i].finals || states[i + 1].partials != states[i].partials
    ensures states[i].lock == Some(events[i].pid) && (events[i].Advance? || events[i].Chunk? || events[i].Unlink?)
    ensures forall other :: other in states[i].procs && other != events[i].pid ==> !states[i].procs[other].Critical()
  {
    RunInv(states, events, sources, i);
    assert Next(states[i], events[i], states[i + 1], sources);
    var e := events[i];
    if !e.Arrive? {
      assert e.pid in states[i].procs;
      assert e.Advance? || e.Chunk? || e.Unlink? ==> states[i].procs[e.pid].Critical();
    }
  }

  /** A visible file is never written to: it appears whole, by a rename, and disappears whole. */
  lemma VisibleFilesNeverChange(states: seq<State>, events: seq<Event>, sources: set<Source>, i: nat, name: Name)
    requires Run(states, events, sources) && i < |events|
    ensures name in states[i].finals && name in states[i + 1].finals ==>
              states[i + 1].finals[name] == states[i].finals[name]
    ensures name !in states[i].finals && name in states[i + 1].finals ==>
              && events[i].Advance? && events[i].pid in states[i].procs
              && name == states[i].procs[events[i].pid].Target()
              && states[i + 1].finals[name] == states[i].procs[events[i].pid].source.bytes
  {
    hide NameOf;
    RunInv(states, events, sources, i);
    assert Next(states[i], events[i], states[i + 1], sources);
    var st, e := states[i], events[i];
    if e.Advance? {
      assert st.procs[e.pid].Critical();
      assert Progress(st, st.procs[e.pid]);
    }
  }

  /** A section that completes leaves its target as the only checkpoint and no partials, but for tolerated deletions. */
  lemma CompletedSectionLeavesTarget(states: seq<State>, events: seq<Event>, sources: set<Source>, i: nat)
    requires Run(states, events, sources) && i < |events| && events[i].Advance? && events[i].pid in states[i].procs
    requires states[i].procs[events[i].pid].pc == Unlocking(true)
    ensures var p, st := states[i].procs[events[i].pid], states[i + 1];
            && st.lock == None
            && p.Target() in st.finals && st.finals.Keys == {p.Target()} + p.kept && st.partials.Keys == p.keptPartials
            && (p.kind.Prefetcher? || p.kept + p.keptPartials == {} ==>
                  st.finals.Keys == {p.Target()} && st.partials == map[])
            && (NoCollision(sources) ==> st.finals[p.Target()] == p.source.bytes)
  {
    hide NameOf;
    RunInv(states, events, sources, i);
    assert Next(states[i], events[i], states[i + 1], sources);
    var p, st := states[i].procs[events[i].pid], states[i + 1];
    assert p.Critical();
    assert Progress(states[i], p);
    assert p.Target() in {p.Target()} + p.kept;
    assert p.Target() in states[i].finals.Keys;
    assert IsWhole(p.Target(), states[i].finals[p.Target()], sources);
    if p.kept + p.keptPartials == {} {
      assert p.kept == {} && p.keptPartials == {};
    }
    if NoCollision(sources) {
      StagedFileIsMine(states, events, sources, i, p.source);
    }
  }

  ghost predicate Failing(st: State, pid: Pid) {
    pid in st.procs && st.procs[pid].pc == Unlocking(false)
  }

  /** Staging fails exactly by a copy that fails, or by a deletion that fails a prefetcher; a worker goes on. */
  lemma FailsIff(states: seq<State>, events: seq<Event>, sources: set<Source>, i: nat, pid: Pid)
    requires Run(states, events, sources) && i < |events| && !Failing(states[i], pid)
    ensures Failing(states[i + 1], pid) <==>
            && events[i].pid == pid
            && (events[i].CopyFails? || (events[i].UnlinkFails? && states[i].procs[pid].kind.Prefetcher?))
  {
    hide NameOf;
    RunInv(states, events, sources, i);
    assert Next(states[i], events[i], states[i + 1], sources);
    if events[i].pid in states[i].procs && !events[i].Arrive? {
      var p := states[i].procs[events[i].pid];
      assert p.Critical() ==> Progress(states[i], p);
    }
  }

  /** The holder is never stuck, and a free lock can be taken. */
  lemma SomeoneCanMove(st: State, pid: Pid, sources: set<Source>)
    requires Inv(st, sources) && pid in st.procs
             && (st.lock == Some(pid) || (st.lock == None && !st.procs[pid].pc.Ended?))
    ensures exists e: Event, st': State ::
              e.pid == pid && !e.Crash? && !e.UnlinkFails? && !e.CopyFails? && Next(st, e, st', sources)
  {
    hide NameOf;
    var p := st.procs[pid];
    if st.lock == None {
      assert !p.Critical();
      assert Next(st, Acquire(pid), At(st, pid, Checking).(lock := Some(pid)), sources);
    } else {
      assert p.Critical();
      assert Progress(st, p);
      match AdvanceStep(st, pid) {
        case Some(st') =>
          assert Next(st, Advance(pid), st', sources);
        case None =>
          match p.pc {
            case Copying(n) =>
              var upTo := |p.source.bytes|;
              var st' := At(st.(partials :=
                                st.partials[p.Target() := st.partials[p.Target()] + p.source.bytes[n..upTo]]),
                            pid, Copying(upTo));
              assert Next(st, Chunk(pid, upTo), st', sources);
            case PruningFinals(todo) =>
              var name :| name in todo;
              var st' := At(st.(finals := st.finals - {name}), pid, PruningFinals(todo - {name}));
              assert Next(st, Unlink(pid, name), st', sources);
            case PruningPartials(todo) =>
              var name :| name in todo;
              var st' := At(st.(partials := st.partials - {name}), pid, PruningPartials(todo - {name}));
              assert Next(st, Unlink(pid, name), st', sources);
          }
      }
    }
  }

  // ----- Two sources of one name

  ghost predicate Reachable(st: State, sources: set<Source>) {
    exists states, events :: Run(states, events, sources) && states[|states| - 1] == st
  }

  lemma Step(st: State, e: Event, st': State, sources: set<Source>)
    requires Reachable(st, sources) && Next(st, e, st', sources)
    ensures Reachable(st', sources)
  {
    var states, events :| Run(states, events, sources) && states[|states| - 1] == st;
    var more, with := states + [st'], events + [e];
    forall i | 0 <= i < |with| ensures Next(more[i], with[i], more[i + 1], sources) {
      if i < |events| {
        assert Next(states[i], events[i], states[i + 1], sources);
      }
    }
    assert Run(more, with, sources);
  }

  lemma Initial(sources: set<Source>)
    ensures Reachable(State(map[], map[], None, map[]), sources)
  {
    assert Run([State(map[], map[], None, map[])], [], sources);
  }

  /** Stage `s` into a cache that holds nothing. */
  lemma StageAlone(pid: Pid, s: Source, sources: set<Source>)
    requires s in sources && |s.bytes| > 0
    ensures var p := Proc(Prefetcher, s, Ended(true), {}, {});
            Reachable(State(map[NameOf(s) := s.bytes], map[], None, map[pid := p]), sources)
  {
    hide NameOf;
    var n, p := NameOf(s), Proc(Prefetcher, s, Waiting, {}, {});
    var empty := State(map[], map[], None, map[]);
    Initial(sources);
    var arrived := empty.(procs := map[pid := p]);
    assert arrived.procs == empty.procs[pid := p];
    Step(empty, Arrive(pid, Prefetcher, s), arrived, sources);
    var checking := At(arrived, pid, Checking).(lock := Some(pid));
    Step(arrived, Acquire(pid), checking, sources);
    var unlinking := At(checking, pid, UnlinkingPartial);
    Step(checking, Advance(pid), unlinking, sources);
    var opening := At(unlinking.(partials := unlinking.partials - {n}), pid, Opening);
    Step(unlinking, Advance(pid), opening, sources);
    var copying := At(opening.(partials := opening.partials[n := []]), pid, Copying(0));
    Step(opening, Advance(pid), copying, sources);
    var size := |s.bytes|;
    var copied :=
      At(copying.(partials := copying.partials[n := copying.partials[n] + s.bytes[0..size]]), pid, Copying(size));
    Step(copying, Chunk(pid, size), copied, sources);
    assert [] + s.bytes[0..size] == s.bytes;
    StageEnd(pid, s, copied, sources);
  }

  lemma StageEnd(pid: Pid, s: Source, copied: State, sources: set<Source>)
    requires Reachable(copied, sources)
    requires copied.finals == map[] && copied.partials == map[NameOf(s) := s.bytes] && copied.lock == Some(pid)
    requires copied.procs == map[pid := Proc(Prefetcher, s, Copying(|s.bytes|), {}, {})]
    ensures Reachable(State(map[NameOf(s) := s.bytes], map[], None,
                            map[pid := Proc(Prefetcher, s, Ended(true), {}, {})]), sources)
  {
    hide NameOf;
    var n := NameOf(s);
    var comparing := At(copied, pid, ComparingSize);
    Step(copied, Advance(pid), comparing, sources);
    var renaming := At(comparing, pid, Renaming);
    Step(comparing, Advance(pid), renaming, sources);
    var finals := renaming.finals[n := renaming.partials[n]];
    var pruning :=
      At(renaming.(finals := finals, partials := renaming.partials - {n}), pid, PruningFinals(finals.Keys - {n}));
    Step(renaming, Advance(pid), pruning, sources);
    assert finals.Keys - {n} == {};
    PruneEnd(pid, pruning, sources);
    var ended := At(pruning, pid, Ended(true)).(lock := None);
    assert ended == State(map[n := s.bytes], map[], None, map[pid := Proc(Prefetcher, s, Ended(true), {}, {})]);
  }

  /** With nothing to prune, the section closes. */
  lemma PruneEnd(pid: Pid, st: State, sources: set<Source>)
    requires Reachable(st, sources) && pid in st.procs && st.procs[pid].pc == PruningFinals({}) && st.partials == map[]
    ensures Reachable(At(st, pid, Ended(true)).(lock := None), sources)
  {
    hide NameOf;
    var partials := At(st, pid, PruningPartials(st.partials.Keys));
    Step(st, Advance(pid), partials, sources);
    assert st.partials.Keys == {};
    var unlocking := At(partials, pid, Unlocking(true));
    Step(partials, Advance(pid), unlocking, sources);
    var ended := At(unlocking.(lock := None), pid, Ended(true));
    Step(unlocking, Advance(pid), ended, sources);
    assert ended == At(st, pid, Ended(true)).(lock := None);
  }

  /**
   Staging serves every source its own bytes exactly when no two sources share stem, size and modification time:
   otherwise a prefetch can end successfully with another checkpoint's bytes under its name.
   */
  lemma ServesOwnBytesIff(sources: set<Source>)
    ensures NoCollision(sources) <==>
            forall st, pid :: Reachable(st, sources) ==> !ServedOther(st, pid)
  {
    if NoCollision(sources) {
      forall st, pid | Reachable(st, sources) ensures !ServedOther(st, pid) {
        if ServedOther(st, pid) {
          var states, events :| Run(states, events, sources) && states[|states| - 1] == st;
          RunInv(states, events, sources, |states| - 1);
          StagedFileIsMine(states, events, sources, |states| - 1, st.procs[pid].source);
        }
      }
    } else {
      var s, t :| s in sources && t in sources && SameMark(s, t) && s.bytes != t.bytes;
      CollisionServesOther(s, t, sources);
    }
  }

  /** `pid` has ended well, and the file under its name is not its source. */
  ghost predicate ServedOther(st: State, pid: Pid) {
    && pid in st.procs && st.procs[pid].pc == Ended(true)
    && st.procs[pid].Target() in st.finals && st.finals[st.procs[pid].Target()] != st.procs[pid].source.bytes
  }

  lemma CollisionServesOther(s: Source, t: Source, sources: set<Source>)
    requires s in sources && t in sources && SameMark(s, t) && s.bytes != t.bytes
    ensures exists st, pid :: Reachable(st, sources) && ServedOther(st, pid)
  {
    SameNameIff(s, t);
    hide NameOf;
    var n := NameOf(s);
    StageAlone(0, s, sources);
    var staged := State(map[n := s.bytes], map[], None, map[0 := Proc(Prefetcher, s, Ended(true), {}, {})]);
    var arrived := staged.(procs := staged.procs[1 := Proc(Prefetcher, t, Waiting, {}, {})]);
    Step(staged, Arrive(1, Prefetcher, t), arrived, sources);
    var checking := At(arrived, 1, Checking).(lock := Some(1));
    Step(arrived, Acquire(1), checking, sources);
    var pruning := At(checking, 1, PruningFinals(checking.finals.Keys - {n}));
    Step(checking, Advance(1), pruning, sources);
    assert checking.finals.Keys - {n} == {};
    PruneEnd(1, pruning, sources);
    assert ServedOther(At(pruning, 1, Ended(true)).(lock := None), 1);
  }
}
