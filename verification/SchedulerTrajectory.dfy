/**
 The adapter's trajectory methods over mutable objects: native schedulers whose list attributes are changed in
 place, an adapter that owns one scheduler per role, and snapshots that must not share lists with either.
 */
module SchedulerTrajectory {
  import opened Wrappers
  import opened Tensors
  import opened SchedulerMachine

  /** A list object: whoever holds the reference sees the changes. */
  class PyList {
    var items: seq<Value>

    constructor (items: seq<Value>)
      ensures this.items == items
    {
      this.items := items;
    }
  }

  datatype Attr = Plain(value: Value) | List(list: PyList)

  ghost predicate Shows(a: Attr, v: Value)
    reads if a.List? then {a.list} else {}
  {
    match a
    case Plain(w) => v == w
    case List(l) => v == Sequence(l.items)
  }

  ghost function ListsOf(attrs: map<string, Attr>): set<PyList> {
    set n | n in attrs && attrs[n].List? :: attrs[n].list
  }

  /** The attributes have the values of `view`, and no list object is held under two names. */
  ghost predicate AllShow(attrs: map<string, Attr>, view: Attrs)
    reads ListsOf(attrs)
  {
    && attrs.Keys <= view.Keys
    && (forall n :: n in attrs ==> Shows(attrs[n], view[n]))
    && (forall m, n :: m in attrs && n in attrs && m != n && attrs[m].List? && attrs[n].List? ==>
          attrs[m].list != attrs[n].list)
  }

  method CloneAttr(a: Attr) returns (copy: Attr)
    ensures forall v :: Shows(a, v) ==> Shows(copy, v)
    ensures copy.List? ==> fresh(copy.list)
  {
    match a {
      case Plain(v) => copy := Plain(v);
      case List(l) =>
        var list := new PyList(l.items);
        copy := List(list);
    }
  }

  /** Copy the attributes with the given names; lists get new list objects. */
  method CloneAttrs(attrs: map<string, Attr>, names: set<string>, ghost view: Attrs) returns (copy: map<string, Attr>)
    requires AllShow(attrs, view)
    ensures copy.Keys == attrs.Keys * names && AllShow(copy, view)
    ensures forall n :: n in copy && copy[n].List? ==> fresh(copy[n].list)
  {
    copy := map[];
    var todo := attrs.Keys * names;
    while todo != {}
      invariant todo <= attrs.Keys * names
      invariant copy.Keys == attrs.Keys * names - todo
      invariant AllShow(copy, view) && AllShow(attrs, view)
      invariant forall n :: n in copy && copy[n].List? ==> fresh(copy[n].list)
      decreases todo
    {
      var n :| n in todo;
      assert Shows(attrs[n], view[n]);
      var clone := CloneAttr(attrs[n]);
      copy := copy[n := clone];
      todo := todo - {n};
    }
  }

  class NativeScheduler {
    const className: string
    var attrs: map<string, Attr>
    ghost var view: Attrs
    ghost var Repr: set<object>

    ghost predicate Valid()
      reads this, Repr
      ensures Valid() ==> this in Repr
    {
      this in Repr && ListsOf(attrs) <= Repr && attrs.Keys == view.Keys && AllShow(attrs, view)
    }

    ghost function View(): Native
      reads this
    {
      Native(className, view)
    }

    constructor (className: string, attrs: map<string, Attr>, ghost view: Attrs)
      requires attrs.Keys == view.Keys && AllShow(attrs, view)
      ensures Valid() && View() == Native(className, view) && Repr == {this} + ListsOf(attrs)
    {
      this.className := className;
      this.attrs := attrs;
      this.view := view;
      Repr := {this} + ListsOf(attrs);
    }

    /** The attribute values, as the foreign code reads them. */
    method Read() returns (native: Native)
      requires Valid()
      ensures native == View()
    {
      var values := map n | n in attrs :: match attrs[n] case Plain(v) => v case List(l) => Sequence(l.items);
      forall n | n in attrs ensures values[n] == view[n] {
        assert Shows(attrs[n], view[n]);
      }
      assert values == view;
      native := Native(className, values);
    }

    /** deepcopy of a scheduler. */
    method Copy() returns (copy: NativeScheduler)
      requires Valid()
      ensures copy.Valid() && copy.View() == View() && fresh(copy.Repr)
    {
      var fields := CloneAttrs(attrs, attrs.Keys, view);
      copy := new NativeScheduler(className, fields, view);
    }

    /** Assign one attribute: a list attribute that gets a list is changed in place. */
    method SetAttr(name: string, value: Value)
      requires Valid()
      modifies Repr
      ensures Valid() && view == old(view)[name := value] && fresh(Repr - old(Repr))
    {
      if name in attrs && attrs[name].List? && value.Sequence? {
        attrs[name].list.items := value.items;
      } else if value.Sequence? {
        var list := new PyList(value.items);
        attrs := attrs[name := List(list)];
        Repr := Repr + {list};
      } else {
        attrs := attrs[name := Plain(value)];
      }
      view := view[name := value];
    }

    /** Set every captured attribute to a clone of its value. */
    method Load(s: NativeSnapshot)
      requires Valid() && s.Valid()
      modifies this
      ensures Valid() && view == old(view) + s.view && fresh(Repr - old(Repr))
    {
      var fields := CloneAttrs(s.state, s.state.Keys, s.view);
      assert forall l :: l in ListsOf(fields) ==> fresh(l);
      Adopt(fields, s.view);
    }

    method Adopt(fields: map<string, Attr>, ghost values: Attrs)
      requires Valid() && AllShow(fields, values) && fields.Keys == values.Keys && ListsOf(fields) !! Repr
      modifies this
      ensures Valid() && view == old(view) + values && Repr == old(Repr) + ListsOf(fields)
    {
      forall m, n | m in fields && n in attrs && fields[m].List? && attrs[n].List?
        ensures fields[m].list != attrs[n].list
      {
        assert fields[m].list in ListsOf(fields) && attrs[n].list in ListsOf(attrs);
      }
      attrs := attrs + fields;
      view := view + values;
      Repr := Repr + ListsOf(fields);
    }

    /** What a call into the foreign scheduler may do: lists are changed in place, other attributes are rebound. */
    method Mutate(after: Attrs)
      requires Valid()
      modifies Repr
      ensures Valid() && View() == Native(className, after) && fresh(Repr - old(Repr))
    {
      attrs := map n | n in attrs && n in after :: attrs[n];
      view := map n | n in view && n in after :: view[n];
      var done: set<string>, todo := {}, after.Keys;
      while todo != {}
        invariant done + todo == after.Keys && done !! todo
        invariant Valid() && fresh(Repr - old(Repr))
        invariant done <= view.Keys <= after.Keys
        invariant forall n :: n in done ==> view[n] == after[n]
        decreases todo
      {
        var n :| n in todo;
        SetAttr(n, after[n]);
        todo := todo - {n};
        done := done + {n};
      }
      assert view == after;
    }
  }

  /** A captured state: never the scheduler's own lists. */
  class NativeSnapshot {
    const index: nat
    const className: string
    const state: map<string, Attr>
    ghost const view: Attrs

    ghost predicate Valid()
      reads ListsOf(state)
    {
      state.Keys == view.Keys && AllShow(state, view)
    }

    ghost function View(): Snapshot {
      Snapshot(index, className, view)
    }

    method Read() returns (s: Snapshot)
      requires Valid()
      ensures s == View()
    {
      var values := map n | n in state :: match state[n] case Plain(v) => v case List(l) => Sequence(l.items);
      forall n | n in state ensures values[n] == view[n] {
        assert Shows(state[n], view[n]);
      }
      assert values == view;
      s := Snapshot(index, className, values);
    }

    constructor (index: nat, className: string, state: map<string, Attr>, ghost view: Attrs)
      requires state.Keys == view.Keys && AllShow(state, view)
      ensures Valid() && View() == Snapshot(index, className, view) && this.state == state
    {
      this.index := index;
      this.className := className;
      this.state := state;
      this.view := view;
    }
  }

  datatype Owned = Owned(native: NativeScheduler, index: nat)

  /**
   Each role's scheduler is its own, within the objects of `owned`: no object is reachable from two roles.
   The schedulers' values are those of `machine`.
   */
  ghost predicate Partition(trajectories: map<Role, Owned>, machine: Machine, owned: set<object>)
    reads owned
  {
    && trajectories.Keys == machine.Keys
    && (forall r :: r in trajectories ==>
          var native := trajectories[r].native;
          && native in owned && native.Repr <= owned && native.Valid()
          && machine[r] == Context(native.View(), trajectories[r].index))
    && (forall r, s :: r in trajectories && s in trajectories && r != s ==>
          trajectories[r].native.Repr !! trajectories[s].native.Repr)
  }

  lemma PartitionAt(trajectories: map<Role, Owned>, machine: Machine, owned: set<object>, role: Role)
    requires Partition(trajectories, machine, owned) && role in trajectories
    ensures trajectories.Keys == machine.Keys
    ensures var native := trajectories[role].native;
            && native in owned && native.Repr <= owned && native.Valid()
            && machine[role] == Context(native.View(), trajectories[role].index)
  {
  }

  lemma PartitionWithout(trajectories: map<Role, Owned>, machine: Machine, owned: set<object>, role: Role)
    requires Partition(trajectories, machine, owned)
    ensures Partition(trajectories - {role}, machine - {role},
                      if role in trajectories then owned - trajectories[role].native.Repr else owned)
  {
    hide NativeScheduler.Valid;
  }

  lemma PartitionWith(trajectories: map<Role, Owned>, machine: Machine, owned: set<object>,
                      role: Role, native: NativeScheduler, index: nat)
    requires Partition(trajectories, machine, owned) && role !in trajectories && native.Valid() && native.Repr !! owned
    ensures Partition(trajectories[role := Owned(native, index)], machine[role := Context(native.View(), index)],
                      owned + native.Repr)
  {
    hide NativeScheduler.Valid;
  }

  class WanAdapter {
    const solver: Solver
    const scheduler: NativeScheduler
    var trajectories: map<Role, Owned>
    ghost var machine: Machine
    ghost var owned: set<object>
    ghost var Repr: set<object>

    ghost predicate Valid()
      reads this, Repr
      ensures Valid() ==> this in Repr && scheduler in Repr && trajectories.Keys == machine.Keys
    {
      && this in Repr && scheduler in Repr
      && Repr == {this} + scheduler.Repr + owned && this !in scheduler.Repr + owned && scheduler.Repr !! owned
      && scheduler.Valid() && Partition(trajectories, machine, owned) && trajectories.Keys == machine.Keys
    }

    constructor (solver: Solver, scheduler: NativeScheduler)
      requires scheduler.Valid()
      ensures Valid() && machine == map[] && this.solver == solver && this.scheduler == scheduler
      ensures fresh(Repr - scheduler.Repr)
    {
      this.solver := solver;
      this.scheduler := scheduler;
      trajectories := map[];
      machine := map[];
      owned := {};
      Repr := {this} + scheduler.Repr;
    }

    /** A copy of the configured scheduler, set up for a trajectory from `start`. */
    method PrepareNative(table: seq<real>, start: int) returns (r: Result<NativeScheduler, Failure>)
      requires Valid()
      ensures r.Ok? ==> start >= 0 && r.value.Valid() && fresh(r.value.Repr)
      ensures Prepare(solver, scheduler.View(), table, start)
              == match r case Ok(native) => Ok(Context(native.View(), start)) case Err(e) => Err(e)
    {
      var nfe := |table| - 1;
      if nfe <= 0 || start < 0 || start >= nfe {
        return Err(TrajectoryInvalid);
      }
      var native := scheduler.Copy();
      var view := native.Read();
      var prepared := solver.setTimesteps(view, nfe);
      if prepared.None? {
        return Err(InitFailed);
      }
      native.Mutate(prepared.value);
      view := native.Read();
      if HasTable(view, "sigmas") && !AllNear(Prefix(FloatsOf(view, "sigmas").value, nfe), table[..nfe]) {
        return Err(ScheduleMismatch);
      }
      if solver.canBegin {
        var begun := solver.setBeginIndex(view, start);
        if begun.None? {
          return Err(InitFailed);
        }
        native.Mutate(begun.value);
      } else if start != 0 {
        return Err(TrajectoryInvalid);
      }
      r := Ok(native);
    }

    /** The role's old trajectory is gone even when the new one cannot begin. */
    method BeginTrajectory(role: Role, sigmas: Option<seq<real>>, start: int) returns (failure: Option<Failure>)
      requires Valid()
      modifies this
      ensures Valid() && fresh(Repr - old(Repr))
      ensures (machine, failure) == Begin(old(machine), role, solver, old(scheduler.View()), sigmas, start)
      ensures scheduler.View() == old(scheduler.View())
    {
      Drop(role);
      if !solver.hasTrajectory || sigmas.None? {
        return None;
      }
      var native := PrepareNative(sigmas.value, start);
      if native.Err? {
        return Some(native.error);
      }
      Install(role, native.value, start);
      failure := None;
    }

    /** Forget the role; its scheduler is no longer part of the adapter. */
    method Drop(role: Role)
      requires Valid()
      modifies this`trajectories, this`machine, this`owned, this`Repr
      ensures Valid() && machine == old(machine) - {role} && Repr <= old(Repr)
      ensures role in old(trajectories) ==>
        var native := old(trajectories[role].native);
        && native.Valid() && native.Repr !! Repr && native.Repr <= old(Repr)
        && old(machine)[role] == Context(native.View(), old(trajectories[role].index))
    {
      hide NativeScheduler.Valid, Partition;
      PartitionWithout(trajectories, machine, owned, role);
      if role in trajectories {
        PartitionAt(trajectories, machine, owned, role);
        owned := owned - trajectories[role].native.Repr;
      }
      trajectories := trajectories - {role};
      machine := machine - {role};
      Repr := {this} + scheduler.Repr + owned;
    }

    method Install(role: Role, native: NativeScheduler, index: nat)
      requires Valid() && role !in trajectories && native.Valid() && native.Repr !! Repr
      modifies this`trajectories, this`machine, this`owned, this`Repr
      ensures Valid() && Repr == old(Repr) + native.Repr
      ensures machine == old(machine)[role := Context(native.View(), index)]
    {
      hide NativeScheduler.Valid, Partition;
      PartitionWith(trajectories, machine, owned, role, native, index);
      trajectories := trajectories[role := Owned(native, index)];
      machine := machine[role := Context(native.View(), index)];
      owned := owned + native.Repr;
      Repr := Repr + native.Repr;
    }

    method Current(role: Role) returns (c: Context)
      requires Valid() && role in trajectories
      ensures c == machine[role]
    {
      PartitionAt(trajectories, machine, owned, role);
      var held := trajectories[role];
      var native := held.native.Read();
      c := Context(native, held.index);
    }

    /** Let the foreign code change the role's scheduler; record the index of its next step. */
    method Advance(role: Role, after: Attrs, index: nat)
      requires Valid() && role in trajectories
      modifies this`trajectories, this`machine, this`owned, this`Repr, trajectories[role].native.Repr
      ensures Valid() && fresh(Repr - old(Repr))
      ensures machine == old(machine)[role := Context(Native(old(machine)[role].native.className, after), index)]
      ensures scheduler.View() == old(scheduler.View())
    {
      hide Partition, NativeScheduler.Valid, WanAdapter.Valid;
      var native := trajectories[role].native;
      Drop(role);
      native.Mutate(after);
      Install(role, native, index);
    }

    method SchedulerStep(role: Role, latent: Tensor, prediction: Tensor, interval: Interval)
      returns (sample: Result<Tensor, Failure>)
      requires Valid()
      modifies this, if role in trajectories then trajectories[role].native.Repr else {}
      ensures Valid() && fresh(Repr - old(Repr))
      ensures (machine, sample) == Step(old(machine), role, solver, latent, prediction, interval)
      ensures scheduler.View() == old(scheduler.View())
    {
      hide Partition, NativeScheduler.Valid, WanAdapter.Valid, StepContext, EulerStep;
      if role in trajectories {
        sample := NativeStep(role, latent, prediction, interval);
      } else {
        sample := EulerStep(latent, prediction, interval);
      }
    }

    method NativeStep(role: Role, latent: Tensor, prediction: Tensor, interval: Interval)
      returns (sample: Result<Tensor, Failure>)
      requires Valid() && role in trajectories
      modifies this, trajectories[role].native.Repr
      ensures Valid() && fresh(Repr - old(Repr))
      ensures var (after, reply) := StepContext(old(machine)[role], solver, latent, prediction, interval);
              machine == old(machine)[role := after] && sample == reply
      ensures scheduler.View() == old(scheduler.View())
    {
      hide Partition, NativeScheduler.Valid, WanAdapter.Valid, NativeTimestep;
      var c := Current(role);
      var timestep := NativeTimestep(c, interval);
      if timestep.Err? {
        assert machine == machine[role := machine[role]];
        return Err(timestep.error);
      }
      var outcome := solver.step(c.native, prediction, timestep.value, latent);
      var accepted := outcome.sample.Some? && outcome.sample.value.shape == latent.shape;
      Advance(role, outcome.after, if accepted then c.index + 1 else c.index);
      sample := if accepted then Ok(outcome.sample.value) else Err(StepFailed);
    }

    /** The snapshot's lists are new objects. */
    method CaptureNative(role: Role) returns (r: Result<NativeSnapshot, Failure>)
      requires Valid()
      ensures r.Ok? ==> r.value.Valid() && fresh(r.value) && fresh(ListsOf(r.value.state))
      ensures Capture(machine, role) == match r case Ok(s) => Ok(s.View()) case Err(e) => Err(e)
    {
      if role !in trajectories {
        return Err(SnapshotMissing);
      }
      PartitionAt(trajectories, machine, owned, role);
      var held := trajectories[role];
      var native := held.native;
      ghost var covered := Covered(native.view);
      var fields := CloneAttrs(native.attrs, MUTABLE_NAMES, native.view);
      assert fields.Keys == covered.Keys;
      assert AllShow(fields, covered);
      var snapshot := new NativeSnapshot(held.index, native.className, fields, covered);
      r := Ok(snapshot);
    }

    method Reinstall(role: Role, s: NativeSnapshot)
      requires Valid() && s.Valid() && role in trajectories
      modifies this`trajectories, this`machine, this`owned, this`Repr, trajectories[role].native
      ensures Valid() && fresh(Repr - old(Repr))
      ensures machine == old(machine)[role := RestoreContext(old(machine)[role], s.View())]
      ensures scheduler.View() == old(scheduler.View()) && s.Valid()
    {
      hide Partition, NativeScheduler.Valid, WanAdapter.Valid;
      var native := trajectories[role].native;
      Drop(role);
      assert s.Valid();
      native.Load(s);
      Install(role, native, s.index);
      assert s.Valid();
    }

    /** The scheduler gets clones: it never shares a list with the snapshot. */
    method RestoreNative(role: Role, s: NativeSnapshot) returns (failure: Option<Failure>)
      requires Valid() && s.Valid()
      modifies this, if role in trajectories then {trajectories[role].native} else {}
      ensures Valid() && fresh(Repr - old(Repr))
      ensures (machine, failure) == Restore(old(machine), role, s.View())
      ensures scheduler.View() == old(scheduler.View()) && s.Valid()
    {
      if role !in trajectories {
        return Some(SnapshotMissing);
      }
      var native := trajectories[role].native;
      if s.className != "" && s.className != native.className {
        return Some(SnapshotInvalid);
      }
      Reinstall(role, s);
      failure := None;
    }

    /** One call of any kind; a restore is handed a snapshot object with the given values. */
    method Dispatch(call: Call) returns (reply: Reply)
      requires Valid()
      modifies Repr
      ensures Valid() && fresh(Repr - old(Repr))
      ensures (machine, reply) == Perform(old(machine), solver, old(scheduler.View()), call)
      ensures scheduler.View() == old(scheduler.View())
    {
      NativesInRepr();
      hide Partition, NativeScheduler.Valid, WanAdapter.Valid, NativeSnapshot.Valid, Begin, Step, Capture, Restore;
      match call {
        case BeginCall(role, sigmas, start) =>
          var failure := BeginTrajectory(role, sigmas, start);
          reply := ReplyOf(failure);
        case StepCall(role, latent, prediction, interval) =>
          var sample := SchedulerStep(role, latent, prediction, interval);
          reply := match sample case Ok(x) => Sample(x) case Err(e) => Failed(e);
        case CaptureCall(role) =>
          ghost var captured := Capture(machine, role);
          var r := CaptureNative(role);
          if r.Err? {
            return Failed(r.error);
          }
          var values := r.value.Read();
          reply := Captured(values);
        case RestoreCall(role, s) =>
          var snapshot := SnapshotOf(s);
          var failure := RestoreNative(role, snapshot);
          reply := ReplyOf(failure);
      }
    }

    lemma NativesInRepr()
      requires Valid()
      ensures this in Repr
      ensures forall r :: r in trajectories ==> trajectories[r].native in Repr && trajectories[r].native.Repr <= Repr
    {
    }

    /** Any interleaving of calls of any roles does what the machine does. */
    method Interleave(calls: seq<Call>) returns (replies: seq<Reply>)
      requires Valid()
      modifies Repr
      ensures Valid() && fresh(Repr - old(Repr))
      ensures (machine, replies) == PerformAll(old(machine), solver, old(scheduler.View()), calls)
      ensures scheduler.View() == old(scheduler.View())
    {
      hide Partition, NativeScheduler.Valid, WanAdapter.Valid, Perform;
      replies := [];
      ghost var start, configured := machine, scheduler.View();
      for i := 0 to |calls|
        invariant Valid() && fresh(Repr - old(Repr)) && scheduler.View() == configured
        invariant (machine, replies) == PerformAll(start, solver, configured, calls[..i])
      {
        PerformAllStep(start, solver, configured, calls, i);
        var reply := Dispatch(calls[i]);
        replies := replies + [reply];
      }
      assert calls[..|calls|] == calls;
    }

    method RestoreWithin(role: Role, s: NativeSnapshot) returns (failure: Option<Failure>)
      requires Valid() && s.Valid()
      modifies Repr
      ensures Valid() && fresh(Repr - old(Repr)) && s.Valid()
      ensures (machine, failure) == Restore(old(machine), role, s.View())
    {
      NativesInRepr();
      hide Partition, NativeScheduler.Valid, WanAdapter.Valid, NativeSnapshot.Valid, Restore;
      failure := RestoreNative(role, s);
    }

    /** Whatever the calls change in place, a snapshot beside the adapter keeps its values. */
    method InterleaveBeside(calls: seq<Call>, snapshot: NativeSnapshot) returns (replies: seq<Reply>)
      requires Valid() && snapshot.Valid() && ListsOf(snapshot.state) !! Repr
      modifies Repr
      ensures Valid() && fresh(Repr - old(Repr)) && snapshot.Valid()
      ensures (machine, replies) == PerformAll(old(machine), solver, old(scheduler.View()), calls)
      ensures scheduler.View() == old(scheduler.View())
    {
      hide Partition, NativeScheduler.Valid, WanAdapter.Valid, PerformAll;
      replies := Interleave(calls);
    }

    /**
     Capture a role, let anything happen, restore: the role is back where it was, and the snapshot still shows
     the captured values although the scheduler's lists were changed in place meanwhile.
     */
    method Resume(role: Role, between: seq<Call>) returns (snapshot: NativeSnapshot, failure: Option<Failure>)
      requires Valid() && role in trajectories && Confined(solver)
      requires ContextFits(Lookup(machine, role), scheduler.View())
      requires forall call :: call in between ==> CallFits(call, scheduler.View())
      modifies Repr
      ensures Valid() && fresh(Repr - old(Repr))
      ensures snapshot.Valid() && snapshot.View() == CaptureContext(old(machine)[role])
      ensures var m := PerformAll(old(machine), solver, old(scheduler.View()), between).0;
              && (role in m ==> failure == None && machine == m[role := old(machine)[role]])
              && (role !in m ==> failure == Some(SnapshotMissing) && machine == m)
    {
      hide Partition, NativeScheduler.Valid, WanAdapter.Valid, NativeSnapshot.Valid, ListsOf, PerformAll, Confined,
           ContextFits, CallFits, Restore,
        CaptureContext, Lookup;
      ResumeSpec(machine, solver, scheduler.View(), role, between);
      var captured := CaptureNative(role);
      snapshot := captured.value;
      var _ := InterleaveBeside(between, snapshot);
      failure := RestoreWithin(role, snapshot);
    }
  }

  lemma ResumeSpec(m: Machine, solver: Solver, configured: Native, role: Role, between: seq<Call>)
    requires Confined(solver) && role in m && ContextFits(Lookup(m, role), configured)
    requires forall call :: call in between ==> CallFits(call, configured)
    ensures var m1 := PerformAll(m, solver, configured, between).0;
            Restore(m1, role, CaptureContext(m[role]))
            == if role in m1 then (m1[role := m[role]], None) else (m1, Some(SnapshotMissing))
  {
    hide PerformAll, Confined, ContextFits, CallFits, CaptureContext, RestoreContext;
    var m1 := PerformAll(m, solver, configured, between).0;
    if role in m1 {
      RestoreResumes(m, solver, configured, role, between, []);
      assert Restore(m1, role, CaptureContext(m[role])).0 == m1[role := m[role]];
    }
  }

  lemma {:induction false} PerformAllStep(m: Machine, solver: Solver, configured: Native, calls: seq<Call>, i: nat)
    requires i < |calls|
    ensures var (m1, replies) := PerformAll(m, solver, configured, calls[..i]);
            var (m2, reply) := Perform(m1, solver, configured, calls[i]);
            PerformAll(m, solver, configured, calls[..i + 1]) == (m2, replies + [reply])
    decreases i
  {
    hide Perform;
    if i == 0 {
      assert calls[..1] == [calls[0]] && calls[..1][1..] == [] && calls[..0] == [];
      var (m1, first) := Perform(m, solver, configured, calls[0]);
      assert PerformAll(m1, solver, configured, []) == (m1, []);
      assert [first] + [] == [] + [first];
    } else {
      var (m1, first) := Perform(m, solver, configured, calls[0]);
      assert calls[..i + 1][1..] == calls[1..][..i] && calls[..i][1..] == calls[1..][..i - 1];
      PerformAllStep(m1, solver, configured, calls[1..], i - 1);
      var replies := PerformAll(m1, solver, configured, calls[1..][..i - 1]).1;
      var reply := Perform(PerformAll(m1, solver, configured, calls[1..][..i - 1]).0, solver, configured, calls[i]).1;
      assert [first] + (replies + [reply]) == ([first] + replies) + [reply];
    }
  }

  /** A snapshot object with the given values. */
  method SnapshotOf(s: Snapshot) returns (snapshot: NativeSnapshot)
    ensures snapshot.Valid() && snapshot.View() == s && fresh(snapshot) && fresh(ListsOf(snapshot.state))
  {
    var fields := map n | n in s.state :: Plain(s.state[n]);
    snapshot := new NativeSnapshot(s.index, s.className, fields, s.state);
  }
}
