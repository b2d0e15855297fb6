/**
 Progressive distillation halves the number of function evaluations stage by stage; after each stage the accepted
 student becomes the next teacher. The manager owns that chain and is stored by replaying it.
 */
module StageManager {
  import opened Wrappers

  datatype Stage = Stage(teacherNfe: int, studentNfe: int)

  datatype Promotion = Promotion(
    stageIndex: int,
    teacherModelId: string, teacherCheckpoint: Option<string>, teacherNfe: int,
    studentModelId: string, studentCheckpoint: string, studentNfe: int)

  datatype Failure =
    | InvalidRange | OddTeacher | TargetNotReachable
    | EmptyTeacher | TooManyPromotions | NotOrdered | NfeNotInPlan
    | AlreadyComplete | NotAccepted | StudentNotDistinct | WrongStudentNfe | EmptyCheckpoint
    | TeacherMismatch | SerializedTeacherMismatch | SerializedCheckpointMismatch

  // ----- The plan

  function PlanFrom(current: int, target: int): Result<seq<Stage>, Failure>
    requires target > 0
    decreases current
  {
    if current <= target then Ok([])
    else if current % 2 != 0 then Err(OddTeacher)
    else if current / 2 < target then Err(TargetNotReachable)
    else
      var rest :- PlanFrom(current / 2, target);
      Ok([Stage(current, current / 2)] + rest)
  }

  function PlanStages(source: int, target: int): Result<seq<Stage>, Failure> {
    if source <= 0 || target <= 0 || target > source then Err(InvalidRange) else PlanFrom(source, target)
  }

  lemma PlanFromStep(stages: seq<Stage>, current: int, target: int)
    requires target > 0 && current > target && current % 2 == 0 && current / 2 >= target
    ensures Behind(stages, PlanFrom(current, target))
            == Behind(stages + [Stage(current, current / 2)], PlanFrom(current / 2, target))
  {
    if PlanFrom(current / 2, target).Ok? {
      var rest := PlanFrom(current / 2, target).value;
      assert stages + ([Stage(current, current / 2)] + rest) == (stages + [Stage(current, current / 2)]) + rest;
    }
  }

  function Behind(stages: seq<Stage>, rest: Result<seq<Stage>, Failure>): Result<seq<Stage>, Failure> {
    match rest
    case Err(e) => Err(e)
    case Ok(r) => Ok(stages + r)
  }

  method PlanBinaryStages(source: int, target: int) returns (r: Result<seq<Stage>, Failure>)
    ensures r == PlanStages(source, target)
  {
    if source <= 0 || target <= 0 || target > source {
      return Err(InvalidRange);
    }
    var stages: seq<Stage>, current := [], source;
    assert PlanFrom(source, target).Ok? ==> [] + PlanFrom(source, target).value == PlanFrom(source, target).value;
    while current > target
      invariant current >= target > 0
      invariant PlanStages(source, target) == Behind(stages, PlanFrom(current, target))
      decreases current
    {
      if current % 2 != 0 {
        return Err(OddTeacher);
      }
      var following := current / 2;
      if following < target {
        return Err(TargetNotReachable);
      }
      PlanFromStep(stages, current, target);
      stages := stages + [Stage(current, following)];
      current := following;
    }
    assert stages + [] == stages;
    r := Ok(stages);
  }

  function Pow2(k: nat): nat {
    if k == 0 then 1 else 2 * Pow2(k - 1)
  }

  /** The stages halve from the source to the target, one per factor of two. */
  ghost predicate Halves(stages: seq<Stage>, source: int, target: int) {
    && source == target * Pow2(|stages|)
    && (forall i :: 0 <= i < |stages| ==>
          stages[i] == Stage(target * Pow2(|stages| - i), target * Pow2(|stages| - i - 1)))
  }

  lemma {:induction false} PlanFromHalves(current: int, target: int)
    requires 0 < target <= current && PlanFrom(current, target).Ok?
    ensures Halves(PlanFrom(current, target).value, current, target)
    decreases current
  {
    if current > target {
      PlanFromHalves(current / 2, target);
      var rest, stages := PlanFrom(current / 2, target).value, PlanFrom(current, target).value;
      DoubleProduct(target, |rest|);
      forall i | 0 <= i < |stages|
        ensures stages[i] == Stage(target * Pow2(|stages| - i), target * Pow2(|stages| - i - 1))
      {
        if i > 0 { assert stages[i] == rest[i - 1]; }
      }
    }
  }

  lemma DoubleProduct(target: int, k: nat)
    ensures target * Pow2(k + 1) == 2 * (target * Pow2(k))
  {
  }

  lemma PlanFromDouble(half: int, target: int)
    requires 0 < target <= half
    ensures PlanFrom(2 * half, target).Ok? <==> PlanFrom(half, target).Ok?
    ensures PlanFrom(half, target).Ok? ==> |PlanFrom(2 * half, target).value| == |PlanFrom(half, target).value| + 1
  {
    assert (2 * half) / 2 == half && (2 * half) % 2 == 0;
  }

  lemma {:induction false} PlanFromPower(target: int, k: nat)
    requires target > 0
    ensures PlanFrom(target * Pow2(k), target).Ok? && |PlanFrom(target * Pow2(k), target).value| == k
  {
    if k == 0 {
      assert target * Pow2(0) == target;
    } else {
      DoubleProduct(target, k - 1);
      PlanFromPower(target, k - 1);
      AtLeastTarget(target, k - 1);
      PlanFromDouble(target * Pow2(k - 1), target);
    }
  }

  lemma {:induction false} AtLeastTarget(target: int, k: nat)
    requires target > 0
    ensures target * Pow2(k) >= target
  {
    if k > 0 {
      AtLeastTarget(target, k - 1);
      DoubleProduct(target, k - 1);
    }
  }

  /** There is a plan exactly when the source is the target times a power of two, and it has one stage per factor. */
  lemma PlanIff(source: int, target: int)
    ensures PlanStages(source, target).Ok? <==> target > 0 && exists k: nat :: source == target * Pow2(k)
    ensures PlanStages(source, target).Ok? ==> Halves(PlanStages(source, target).value, source, target)
  {
    if PlanStages(source, target).Ok? {
      PlanFromHalves(source, target);
    }
    if k: nat :| target > 0 && source == target * Pow2(k) {
      AtLeastTarget(target, k);
      PlanFromPower(target, k);
    }
  }

  // ----- The manager as a value

  datatype View = View(sourceNfe: int, targetNfe: int, teacherModelId: string, teacherCheckpoint: Option<string>,
                       promotions: seq<Promotion>, stages: seq<Stage>)

  function CheckPromotions(promotions: seq<Promotion>, stages: seq<Stage>, from: nat): Option<Failure>
    requires |promotions| <= |stages|
    decreases |promotions| - from
  {
    if from >= |promotions| then None
    else if promotions[from].stageIndex != from then Some(NotOrdered)
    else if promotions[from].teacherNfe != stages[from].teacherNfe
      || promotions[from].studentNfe != stages[from].studentNfe then
      Some(NfeNotInPlan)
    else CheckPromotions(promotions, stages, from + 1)
  }

  function Make(source: int, target: int, teacher: string, checkpoint: Option<string>, promotions: seq<Promotion>)
    : Result<View, Failure>
  {
    var stages :- PlanStages(source, target);
    if teacher == "" then Err(EmptyTeacher)
    else if |promotions| > |stages| then Err(TooManyPromotions)
    else
      match CheckPromotions(promotions, stages, 0)
      case Some(e) => Err(e)
      case None => Ok(View(source, target, teacher, checkpoint, promotions, stages))
  }

  predicate Complete(v: View) {
    |v.promotions| == |v.stages|
  }

  /** The promotion of an accepted student, if the manager takes it. */
  function NextPromotion(v: View, student: string, path: string, nfe: int, accepted: bool, resolve: string -> string)
    : Result<Promotion, Failure>
  {
    if |v.promotions| >= |v.stages| then Err(AlreadyComplete)
    else if !accepted then Err(NotAccepted)
    else if student == "" || student == v.teacherModelId then Err(StudentNotDistinct)
    else if nfe != v.stages[|v.promotions|].studentNfe then Err(WrongStudentNfe)
    else if resolve(path) == "" then Err(EmptyCheckpoint)
    else
      var stage := v.stages[|v.promotions|];
      Ok(Promotion(|v.promotions|, v.teacherModelId, v.teacherCheckpoint, stage.teacherNfe,
                   student, resolve(path), stage.studentNfe))
  }

  /** A promotion is taken exactly when there is a stage left for an accepted, distinct student of its evaluations. */
  lemma PromotesIff(v: View, student: string, path: string, nfe: int, accepted: bool, resolve: string -> string)
    ensures var r, k := NextPromotion(v, student, path, nfe, accepted, resolve), |v.promotions|;
            && (r.Ok? <==> && k < |v.stages| && accepted && student != "" && student != v.teacherModelId
                           && nfe == v.stages[k].studentNfe && resolve(path) != "")
            && (r.Ok? ==>
                  && r.value.stageIndex == k && r.value.teacherModelId == v.teacherModelId
                  && r.value.teacherCheckpoint == v.teacherCheckpoint && r.value.teacherNfe == v.stages[k].teacherNfe
                  && r.value.studentModelId == student && r.value.studentCheckpoint == resolve(path)
                  && r.value.studentNfe == nfe)
            && (r.Err? ==>
                  r.error == if k >= |v.stages| then AlreadyComplete
                             else if !accepted then NotAccepted
                             else if student == "" || student == v.teacherModelId then StudentNotDistinct
                             else if nfe != v.stages[k].studentNfe then WrongStudentNfe
                             else EmptyCheckpoint)
  {
  }

  lemma {:induction false} ChecksPromotions(promotions: seq<Promotion>, stages: seq<Stage>, from: nat)
    requires |promotions| <= |stages|
    ensures CheckPromotions(promotions, stages, from) == None <==>
              forall i :: from <= i < |promotions| ==>
                && promotions[i].stageIndex == i
                && promotions[i].teacherNfe == stages[i].teacherNfe && promotions[i].studentNfe == stages[i].studentNfe
    decreases |promotions| - from
  {
    if from < |promotions| { ChecksPromotions(promotions, stages, from + 1); }
  }

  /** A manager can be made exactly for a plan, a named teacher and promotions that follow the plan in order. */
  lemma MakesIff(source: int, target: int, teacher: string, checkpoint: Option<string>, promotions: seq<Promotion>)
    ensures var stages, r := PlanStages(source, target), Make(source, target, teacher, checkpoint, promotions);
            && (r.Ok? <==>
                  && stages.Ok? && teacher != "" && |promotions| <= |stages.value|
                  && forall i :: 0 <= i < |promotions| ==>
                       && promotions[i].stageIndex == i
                       && promotions[i].teacherNfe == stages.value[i].teacherNfe
                       && promotions[i].studentNfe == stages.value[i].studentNfe)
            && (r.Ok? ==> r.value == View(source, target, teacher, checkpoint, promotions, stages.value))
  {
    hide PlanStages;
    var stages := PlanStages(source, target);
    if stages.Ok? && |promotions| <= |stages.value| { ChecksPromotions(promotions, stages.value, 0); }
  }

  function Promoted(v: View, p: Promotion): View {
    v.(promotions := v.promotions + [p], teacherModelId := p.studentModelId,
       teacherCheckpoint := Some(p.studentCheckpoint))
  }

  function Promote(v: View, student: string, path: string, nfe: int, accepted: bool, resolve: string -> string)
    : Result<View, Failure>
  {
    var p :- NextPromotion(v, student, path, nfe, accepted, resolve);
    Ok(Promoted(v, p))
  }

  /** A stored state; an optional key may be absent, which is not the same as null, and others may be there. */
  datatype State = State(
    sourceNfe: int, targetNfe: int, teacherModelId: string, teacherCheckpoint: Option<Option<string>>,
    initialTeacherModelId: Option<string>, initialTeacherCheckpoint: Option<Option<string>>,
    promotions: Option<seq<Promotion>>, others: set<string>) {

    function Checkpoint(): Option<string> { teacherCheckpoint.GetOr(None) }

    function FirstTeacher(): string { initialTeacherModelId.GetOr(teacherModelId) }

    function FirstCheckpoint(): Option<string> { initialTeacherCheckpoint.GetOr(None) }

    function Promotions(): seq<Promotion> { promotions.GetOr([]) }

    predicate HasItsKeys() {
      others == {} && teacherCheckpoint.Some? && initialTeacherModelId.Some? && initialTeacherCheckpoint.Some?
        && promotions.Some?
    }
  }

  function Serialize(v: View): State {
    State(v.sourceNfe, v.targetNfe, v.teacherModelId, Some(v.teacherCheckpoint),
          Some(if v.promotions != [] then v.promotions[0].teacherModelId else v.teacherModelId),
          Some(if v.promotions != [] then v.promotions[0].teacherCheckpoint else v.teacherCheckpoint),
          Some(v.promotions), {})
  }

  /** Promote once more for each stored promotion; only teacher, student, path and student NFE of each are looked at. */
  function Replay(v: View, stored: seq<Promotion>, resolve: string -> string): Result<View, Failure>
    decreases |stored|
  {
    if stored == [] then Ok(v)
    else if Complete(v) then Err(TooManyPromotions)
    else if stored[0].teacherModelId != v.teacherModelId then Err(TeacherMismatch)
    else
      var next :- Promote(v, stored[0].studentModelId, stored[0].studentCheckpoint, stored[0].studentNfe, true,
                          resolve);
      Replay(next, stored[1..], resolve)
  }

  function Restore(s: State, resolve: string -> string): Result<View, Failure> {
    var start :- Make(s.sourceNfe, s.targetNfe, s.FirstTeacher(), s.FirstCheckpoint(), []);
    var v :- Replay(start, s.Promotions(), resolve);
    if v.teacherModelId != s.teacherModelId then Err(SerializedTeacherMismatch)
    else if v.teacherCheckpoint != s.Checkpoint() then Err(SerializedCheckpointMismatch)
    else Ok(v)
  }

  // ----- The manager as an object

  class ProgressiveStageManager {
    var sourceNfe: int
    var targetNfe: int
    var teacherModelId: string
    var teacherCheckpoint: Option<string>
    var promotions: seq<Promotion>
    var stages: seq<Stage>

    function Value(): View
      reads this
    {
      View(sourceNfe, targetNfe, teacherModelId, teacherCheckpoint, promotions, stages)
    }

    constructor (v: View)
      ensures Value() == v
    {
      sourceNfe := v.sourceNfe;
      targetNfe := v.targetNfe;
      teacherModelId := v.teacherModelId;
      teacherCheckpoint := v.teacherCheckpoint;
      promotions := v.promotions;
      stages := v.stages;
    }

    /** Construction plans the stages and checks the promotions it is given. */
    static method Create(source: int, target: int, teacher: string, checkpoint: Option<string>, given: seq<Promotion>)
      returns (r: Result<ProgressiveStageManager, Failure>)
      ensures r.Ok? ==> fresh(r.value)
      ensures Make(source, target, teacher, checkpoint, given)
              == match r case Ok(m) => Ok(m.Value()) case Err(e) => Err(e)
    {
      var stages :- PlanBinaryStages(source, target);
      if teacher == "" {
        return Err(EmptyTeacher);
      }
      if |given| > |stages| {
        return Err(TooManyPromotions);
      }
      for i := 0 to |given|
        invariant CheckPromotions(given, stages, 0) == CheckPromotions(given, stages, i)
      {
        if given[i].stageIndex != i {
          return Err(NotOrdered);
        }
        if given[i].teacherNfe != stages[i].teacherNfe || given[i].studentNfe != stages[i].studentNfe {
          return Err(NfeNotInPlan);
        }
      }
      var m := new ProgressiveStageManager(View(source, target, teacher, checkpoint, given, stages));
      r := Ok(m);
    }

    method PromoteStudent(student: string, path: string, nfe: int, accepted: bool, resolve: string -> string)
      returns (r: Result<Promotion, Failure>)
      modifies this
      ensures r == NextPromotion(old(Value()), student, path, nfe, accepted, resolve)
      ensures Value() == if r.Ok? then Promoted(old(Value()), r.value) else old(Value())
    {
      if |promotions| >= |stages| {
        return Err(AlreadyComplete);
      }
      if !accepted {
        return Err(NotAccepted);
      }
      if student == "" || student == teacherModelId {
        return Err(StudentNotDistinct);
      }
      var stage := stages[|promotions|];
      if nfe != stage.studentNfe {
        return Err(WrongStudentNfe);
      }
      var checkpoint := resolve(path);
      if checkpoint == "" {
        return Err(EmptyCheckpoint);
      }
      var promotion := Promotion(|promotions|, teacherModelId, teacherCheckpoint, stage.teacherNfe,
                                 student, checkpoint, stage.studentNfe);
      promotions := promotions + [promotion];
      teacherModelId := student;
      teacherCheckpoint := Some(checkpoint);
      r := Ok(promotion);
    }

    /** Rebuild a manager by promoting again, in order. */
    static method FromState(s: State, resolve: string -> string) returns (r: Result<ProgressiveStageManager, Failure>)
      ensures r.Ok? ==> fresh(r.value)
      ensures Restore(s, resolve) == match r case Ok(m) => Ok(m.Value()) case Err(e) => Err(e)
    {
      var m :- Create(s.sourceNfe, s.targetNfe, s.FirstTeacher(), s.FirstCheckpoint(), []);
      ghost var start := m.Value();
      assert s.Promotions()[0..] == s.Promotions();
      for i := 0 to |s.Promotions()|
        invariant fresh(m)
        invariant Replay(start, s.Promotions(), resolve) == Replay(m.Value(), s.Promotions()[i..], resolve)
      {
        var promotion := s.Promotions()[i];
        assert s.Promotions()[i..][0] == promotion && s.Promotions()[i..][1..] == s.Promotions()[i + 1..];
        if |m.promotions| == |m.stages| {
          return Err(TooManyPromotions);
        }
        if promotion.teacherModelId != m.teacherModelId {
          return Err(TeacherMismatch);
        }
        var taken := m.PromoteStudent(promotion.studentModelId, promotion.studentCheckpoint, promotion.studentNfe, true,
                                      resolve);
        if taken.Err? {
          return Err(taken.error);
        }
      }
      assert s.Promotions()[|s.Promotions()|..] == [];
      if m.teacherModelId != s.teacherModelId {
        return Err(SerializedTeacherMismatch);
      }
      if m.teacherCheckpoint != s.Checkpoint() {
        return Err(SerializedCheckpointMismatch);
      }
      r := Ok(m);
    }
  }

  // ----- The chain

  /** Who teaches stage i. */
  function TeacherOf(v: View, first: string, i: nat): string
    requires i <= |v.promotions|
  {
    if i == 0 then first else v.promotions[i - 1].studentModelId
  }

  function CheckpointOf(v: View, first: Option<string>, i: nat): Option<string>
    requires i <= |v.promotions|
  {
    if i == 0 then first else Some(v.promotions[i - 1].studentCheckpoint)
  }

  ghost predicate LinkAt(v: View, first: string, firstCheckpoint: Option<string>, i: nat)
    requires i < |v.promotions| <= |v.stages|
  {
    var p := v.promotions[i];
    && p.stageIndex == i && p.teacherNfe == v.stages[i].teacherNfe && p.studentNfe == v.stages[i].studentNfe
    && p.teacherModelId == TeacherOf(v, first, i) && p.teacherCheckpoint == CheckpointOf(v, firstCheckpoint, i)
    && p.studentModelId != "" && p.studentModelId != p.teacherModelId && p.studentCheckpoint != ""
  }

  /** Each stage's teacher is the stage before's student, on the planned evaluations; the last student teaches now. */
  ghost predicate Chained(v: View, first: string, firstCheckpoint: Option<string>) {
    && PlanStages(v.sourceNfe, v.targetNfe) == Ok(v.stages) && |v.promotions| <= |v.stages| && first != ""
    && (forall i :: 0 <= i < |v.promotions| ==> LinkAt(v, first, firstCheckpoint, i))
    && v.teacherModelId == TeacherOf(v, first, |v.promotions|)
    && v.teacherCheckpoint == CheckpointOf(v, firstCheckpoint, |v.promotions|)
  }

  lemma PromoteKeepsChain(v: View, first: string, firstCheckpoint: Option<string>,
                          student: string, path: string, nfe: int, accepted: bool, resolve: string -> string)
    requires Chained(v, first, firstCheckpoint) && Promote(v, student, path, nfe, accepted, resolve).Ok?
    ensures Chained(Promote(v, student, path, nfe, accepted, resolve).value, first, firstCheckpoint)
  {
    var v' := Promote(v, student, path, nfe, accepted, resolve).value;
    forall i | 0 <= i < |v'.promotions| ensures LinkAt(v', first, firstCheckpoint, i) {
      if i < |v.promotions| {
        assert LinkAt(v, first, firstCheckpoint, i);
      }
    }
  }

  /** The evaluations the current teacher needs. */
  function ActiveNfe(v: View): int {
    if v.promotions == [] then v.sourceNfe else v.promotions[|v.promotions| - 1].studentNfe
  }

  /** The evaluations halve with every promotion, and the plan is complete exactly when they reach the target. */
  lemma ChainHalves(v: View, first: string, firstCheckpoint: Option<string>)
    requires Chained(v, first, firstCheckpoint)
    ensures forall i :: 0 <= i < |v.promotions| ==> v.promotions[i].teacherNfe == 2 * v.promotions[i].studentNfe
    ensures forall i :: 0 < i < |v.promotions| ==> v.promotions[i].teacherNfe == v.promotions[i - 1].studentNfe
    ensures v.promotions != [] ==> v.promotions[0].teacherNfe == v.sourceNfe
    ensures v.sourceNfe == ActiveNfe(v) * Pow2(|v.promotions|)
    ensures Complete(v) <==> ActiveNfe(v) == v.targetNfe
  {
    PlanIff(v.sourceNfe, v.targetNfe);
    forall i | 0 <= i < |v.promotions|
      ensures v.promotions[i].teacherNfe == v.stages[i].teacherNfe
      ensures v.promotions[i].studentNfe == v.stages[i].studentNfe
    {
      assert LinkAt(v, first, firstCheckpoint, i);
    }
    hide Chained, PlanStages, Pow2;
    forall i | 0 <= i < |v.stages|
      ensures v.stages[i].teacherNfe == 2 * v.stages[i].studentNfe
      ensures i > 0 ==> v.stages[i].teacherNfe == v.stages[i - 1].studentNfe
      ensures i == 0 ==> v.stages[i].teacherNfe == v.sourceNfe
    {
      DoubleProduct(v.targetNfe, |v.stages| - i - 1);
    }
    var n, k := |v.stages|, |v.promotions|;
    assert ActiveNfe(v) == v.targetNfe * Pow2(n - k);
    ActiveReaches(v.targetNfe, n - k, k);
  }

  /** After k of n halvings the product says how far the target is. */
  lemma ActiveReaches(target: int, left: nat, done: nat)
    requires target > 0
    ensures target * Pow2(left + done) == (target * Pow2(left)) * Pow2(done)
    ensures target * Pow2(left) == target <==> left == 0
  {
    PowerSplit(left, done);
    MulAssociates(target, Pow2(left), Pow2(done));
    if left == 0 {
      assert target * Pow2(0) == target;
    } else {
      AboveTarget(target, left);
    }
  }

  lemma MulAssociates(a: int, b: int, c: int)
    ensures a * (b * c) == (a * b) * c
  {
  }

  lemma {:induction false} PowerSplit(a: nat, b: nat)
    ensures Pow2(a + b) == Pow2(a) * Pow2(b)
  {
    if b > 0 {
      PowerSplit(a, b - 1);
      assert Pow2(a + b) == 2 * Pow2(a + (b - 1));
    }
  }

  lemma AboveTarget(target: int, k: nat)
    requires target > 0 && k > 0
    ensures target * Pow2(k) > target
  {
    AtLeastTarget(target, k - 1);
    DoubleProduct(target, k - 1);
  }

  lemma {:induction false} ReplayKeepsChain(v: View, first: string, firstCheckpoint: Option<string>,
                                            stored: seq<Promotion>, resolve: string -> string)
    requires Chained(v, first, firstCheckpoint) && Replay(v, stored, resolve).Ok?
    ensures Chained(Replay(v, stored, resolve).value, first, firstCheckpoint)
    decreases |stored|
  {
    if stored != [] {
      var p := stored[0];
      PromoteKeepsChain(v, first, firstCheckpoint, p.studentModelId, p.studentCheckpoint, p.studentNfe, true, resolve);
      ReplayKeepsChain(Promote(v, p.studentModelId, p.studentCheckpoint, p.studentNfe, true, resolve).value,
                       first, firstCheckpoint, stored[1..], resolve);
    }
  }

  /** Any accepted state describes a chain from its initial teacher. */
  lemma RestoredIsChain(s: State, resolve: string -> string)
    requires Restore(s, resolve).Ok?
    ensures Chained(Restore(s, resolve).value, s.FirstTeacher(), s.FirstCheckpoint())
  {
    var first := s.FirstTeacher();
    var start := Make(s.sourceNfe, s.targetNfe, first, s.FirstCheckpoint(), []).value;
    assert Chained(start, first, s.FirstCheckpoint());
    ReplayKeepsChain(start, first, s.FirstCheckpoint(), s.Promotions(), resolve);
  }

  // ----- Serialization by replay

  /** Every student path is what resolving it gives. */
  ghost predicate Resolved(promotions: seq<Promotion>, resolve: string -> string) {
    forall i :: 0 <= i < |promotions| ==> resolve(promotions[i].studentCheckpoint) == promotions[i].studentCheckpoint
  }

  /** The manager as it was after its first k promotions. */
  function Before(v: View, first: string, firstCheckpoint: Option<string>, k: nat): View
    requires k <= |v.promotions|
  {
    View(v.sourceNfe, v.targetNfe, TeacherOf(v, first, k), CheckpointOf(v, firstCheckpoint, k), v.promotions[..k],
         v.stages)
  }

  /** Promoting with a stored promotion's student, path and evaluations gives back that very promotion. */
  lemma {:induction false} ReplayRest(v: View, first: string, firstCheckpoint: Option<string>, k: nat,
                                      resolve: string -> string)
    requires Chained(v, first, firstCheckpoint) && Resolved(v.promotions, resolve) && k <= |v.promotions|
    ensures Replay(Before(v, first, firstCheckpoint, k), v.promotions[k..], resolve) == Ok(v)
    decreases |v.promotions| - k
  {
    var rest := v.promotions[k..];
    if k == |v.promotions| {
      assert v.promotions[..k] == v.promotions;
    } else {
      var now, p := Before(v, first, firstCheckpoint, k), v.promotions[k];
      assert LinkAt(v, first, firstCheckpoint, k);
      assert rest[0] == p && rest[1..] == v.promotions[k + 1..];
      assert v.promotions[..k + 1] == v.promotions[..k] + [p];
      assert Promote(now, p.studentModelId, p.studentCheckpoint, p.studentNfe, true, resolve)
          == Ok(Before(v, first, firstCheckpoint, k + 1));
      ReplayRest(v, first, firstCheckpoint, k + 1, resolve);
    }
  }

  /** A stored manager comes back exactly. */
  lemma StoreThenRestore(v: View, first: string, firstCheckpoint: Option<string>, resolve: string -> string)
    requires Chained(v, first, firstCheckpoint) && Resolved(v.promotions, resolve)
    ensures Restore(Serialize(v), resolve) == Ok(v)
  {
    if v.promotions != [] {
      assert LinkAt(v, first, firstCheckpoint, 0);
    }
    ReplayRest(v, first, firstCheckpoint, 0, resolve);
    assert v.promotions[..0] == [] && v.promotions[0..] == v.promotions;
  }

  /** With idempotent path resolution, promotion only ever stores resolved paths. */
  lemma PromoteKeepsResolved(v: View, student: string, path: string, nfe: int, accepted: bool,
                             resolve: string -> string)
    requires forall x :: resolve(resolve(x)) == resolve(x)
    requires Resolved(v.promotions, resolve) && Promote(v, student, path, nfe, accepted, resolve).Ok?
    ensures Resolved(Promote(v, student, path, nfe, accepted, resolve).value.promotions, resolve)
  {
  }

  predicate ConsistentAt(s: State, stages: seq<Stage>, i: nat, resolve: string -> string)
    requires i < |s.Promotions()| <= |stages|
  {
    var p := s.Promotions()[i];
    && p.stageIndex == i && p.teacherNfe == stages[i].teacherNfe
    && p.teacherCheckpoint == (if i == 0 then s.FirstCheckpoint() else Some(s.Promotions()[i - 1].studentCheckpoint))
    && p.studentCheckpoint == resolve(p.studentCheckpoint)
  }

  /** The fields of the stored promotions that replaying never looks at already say what it recomputes. */
  ghost predicate SelfConsistent(s: State, resolve: string -> string) {
    && PlanStages(s.sourceNfe, s.targetNfe).Ok?
    && |s.Promotions()| <= |PlanStages(s.sourceNfe, s.targetNfe).value|
    && forall i :: 0 <= i < |s.Promotions()| ==> ConsistentAt(s, PlanStages(s.sourceNfe, s.targetNfe).value, i, resolve)
  }

  lemma {:induction false} ReplayAgrees(v: View, stored: seq<Promotion>, resolve: string -> string)
    requires Replay(v, stored, resolve).Ok?
    ensures var r := Replay(v, stored, resolve).value;
            && |r.promotions| == |v.promotions| + |stored| && r.promotions[..|v.promotions|] == v.promotions
            && r.sourceNfe == v.sourceNfe && r.targetNfe == v.targetNfe && r.stages == v.stages
            && (forall i :: 0 <= i < |stored| ==>
                  var p := r.promotions[|v.promotions| + i];
                  && p.teacherModelId == stored[i].teacherModelId && p.studentModelId == stored[i].studentModelId
                  && p.studentNfe == stored[i].studentNfe
                       && p.studentCheckpoint == resolve(stored[i].studentCheckpoint))
    decreases |stored|
  {
    if stored == [] {
      assert v.promotions[..|v.promotions|] == v.promotions;
    } else {
      var p, k := stored[0], |v.promotions|;
      var next := Promote(v, p.studentModelId, p.studentCheckpoint, p.studentNfe, true, resolve).value;
      ReplayAgrees(next, stored[1..], resolve);
      var r := Replay(next, stored[1..], resolve).value;
      assert r.promotions[..k + 1] == next.promotions;
      assert r.promotions[..k] == r.promotions[..k + 1][..k] == v.promotions;
      assert r.promotions[k] == r.promotions[..k + 1][k] == next.promotions[k];
      forall i | 0 <= i < |stored|
        ensures var q := r.promotions[k + i];
                && q.teacherModelId == stored[i].teacherModelId && q.studentModelId == stored[i].studentModelId
                && q.studentNfe == stored[i].studentNfe && q.studentCheckpoint == resolve(stored[i].studentCheckpoint)
      {
        if i > 0 {
          assert stored[1..][i - 1] == stored[i];
          assert r.promotions[|next.promotions| + (i - 1)] == r.promotions[k + i];
        }
      }
    }
  }

  /** The fields that replaying does look at. */
  ghost predicate ReadAgree(s: State, v: View, resolve: string -> string) {
    && v.sourceNfe == s.sourceNfe && v.targetNfe == s.targetNfe
    && v.teacherModelId == s.teacherModelId && v.teacherCheckpoint == s.Checkpoint()
    && |v.promotions| == |s.Promotions()| <= |v.stages|
    && forall i :: 0 <= i < |s.Promotions()| ==>
         && v.promotions[i].teacherModelId == s.Promotions()[i].teacherModelId
         && v.promotions[i].studentModelId == s.Promotions()[i].studentModelId
         && v.promotions[i].studentNfe == s.Promotions()[i].studentNfe
         && v.promotions[i].studentCheckpoint == resolve(s.Promotions()[i].studentCheckpoint)
  }

  lemma RestoredReadsAgree(s: State, resolve: string -> string)
    requires Restore(s, resolve).Ok?
    ensures ReadAgree(s, Restore(s, resolve).value, resolve)
  {
    hide PlanStages;
    var v := Restore(s, resolve).value;
    var start := Make(s.sourceNfe, s.targetNfe, s.FirstTeacher(), s.FirstCheckpoint(), []).value;
    RestoredIsChain(s, resolve);
    ReplayAgrees(start, s.Promotions(), resolve);
    assert |start.promotions| == 0;
    forall i | 0 <= i < |s.Promotions()|
      ensures v.promotions[i].teacherModelId == s.Promotions()[i].teacherModelId
              && v.promotions[i].studentModelId == s.Promotions()[i].studentModelId
              && v.promotions[i].studentNfe == s.Promotions()[i].studentNfe
              && v.promotions[i].studentCheckpoint == resolve(s.Promotions()[i].studentCheckpoint)
    {
      assert v.promotions[|start.promotions| + i] == v.promotions[i];
    }
  }

  lemma ConsistentIsSame(s: State, v: View, first: string, resolve: string -> string)
    requires Chained(v, first, s.FirstCheckpoint()) && ReadAgree(s, v, resolve)
    requires s.HasItsKeys() && s.FirstTeacher() == first && SelfConsistent(s, resolve)
    ensures Serialize(v) == s
  {
    forall i | 0 <= i < |v.promotions| ensures v.promotions[i] == s.Promotions()[i] {
      assert LinkAt(v, first, s.FirstCheckpoint(), i);
      assert ConsistentAt(s, v.stages, i, resolve);
      if i > 0 {
        assert ConsistentAt(s, v.stages, i - 1, resolve);
      }
    }
    assert v.promotions == s.Promotions();
    if v.promotions != [] {
      assert LinkAt(v, first, s.FirstCheckpoint(), 0);
    }
  }

  lemma SameIsConsistent(s: State, v: View, first: string, resolve: string -> string)
    requires Chained(v, first, s.FirstCheckpoint()) && ReadAgree(s, v, resolve) && Serialize(v) == s
    ensures s.HasItsKeys() && SelfConsistent(s, resolve)
  {
    assert v.promotions == s.Promotions();
    forall i | 0 <= i < |s.Promotions()| ensures ConsistentAt(s, v.stages, i, resolve) {
      assert LinkAt(v, first, s.FirstCheckpoint(), i);
    }
  }

  /**
   An accepted state is stored again as it was exactly when it has every key, no other one, and the unread fields of
   its promotions (stage index, teacher evaluations, teacher checkpoint, unresolved paths) already agree.
   */
  lemma RestoreThenStoreIff(s: State, resolve: string -> string)
    requires Restore(s, resolve).Ok?
    ensures Serialize(Restore(s, resolve).value) == s <==> s.HasItsKeys() && SelfConsistent(s, resolve)
  {
    hide Restore, Chained, ReadAgree, SelfConsistent, Serialize;
    var v := Restore(s, resolve).value;
    var first := s.FirstTeacher();
    RestoredIsChain(s, resolve);
    RestoredReadsAgree(s, resolve);
    if s.HasItsKeys() && SelfConsistent(s, resolve) {
      ConsistentIsSame(s, v, first, resolve);
    }
    if Serialize(v) == s {
      SameIsConsistent(s, v, first, resolve);
    }
  }

  /** A state whose stage index and teacher evaluations are wrong is accepted, and comes back corrected. */
  lemma UnreadFieldsAreIgnored(resolve: string -> string, path: string)
    requires resolve(path) == path && path != ""
    ensures exists s: State ::
              && |s.Promotions()| == 1 && s.Promotions()[0].stageIndex == 7 && s.Promotions()[0].teacherNfe == 99
              && Restore(s, resolve).Ok?
              && Restore(s, resolve).value.promotions == [s.Promotions()[0].(stageIndex := 0, teacherNfe := 2)]
  {
    var p := Promotion(7, "t", Some(path), 99, "s", path, 1);
    var s := State(2, 1, "s", Some(Some(path)), Some("t"), Some(Some(path)), Some([p]), {});
    assert PlanFrom(1, 1) == Ok([]);
    assert [Stage(2, 1)] + [] == [Stage(2, 1)];
    assert PlanFrom(2, 1) == Ok([Stage(2, 1)] + []);
    assert PlanStages(2, 1) == Ok([Stage(2, 1)]);
    var start := View(2, 1, "t", Some(path), [], [Stage(2, 1)]);
    assert Make(2, 1, "t", Some(path), []) == Ok(start);
    var next := Promote(start, "s", path, 1, true, resolve).value;
    assert [p][1..] == [];
    assert Replay(next, [], resolve) == Ok(next);
    assert Replay(start, [p], resolve) == Ok(next);
    assert Restore(s, resolve) == Ok(next);
    assert [] + [p.(stageIndex := 0, teacherNfe := 2)] == [p.(stageIndex := 0, teacherNfe := 2)];
  }
}
