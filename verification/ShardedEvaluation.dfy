/**
 Strict evaluation of a checkpoint: one process over all selected cases, or one process per case whose
 results are merged. Generating and scoring one video is an arbitrary function of the case and the seed.
 */
module ShardedEvaluation {
  import opened Wrappers
  import opened Totals
  import opened Sorting
  import opened StrictReport

  datatype ManifestCase = ManifestCase(caseId: string, caption: string, seeds: seq<nat>)

  // ----- One process

  type Runner = (ManifestCase, nat) -> Result<Measurement, string>

  function Take<T>(s: seq<T>, n: nat): seq<T> {
    if n <= |s| then s[..n] else s
  }

  function SeedsOf(c: ManifestCase, seedCount: nat): seq<(ManifestCase, nat)> {
    seq(|Take(c.seeds, seedCount)|, i requires 0 <= i < |Take(c.seeds, seedCount)| => (c, Take(c.seeds, seedCount)[i]))
  }

  /** The videos of the selected cases, in generation order. */
  function Selection(cases: seq<ManifestCase>, seedCount: nat): seq<(ManifestCase, nat)> {
    if cases == [] then [] else SeedsOf(cases[0], seedCount) + Selection(cases[1..], seedCount)
  }

  /** Measure the videos in order; the first failure ends the evaluation. */
  function RunAll(videos: seq<(ManifestCase, nat)>, run: Runner): (r: Result<seq<CaseResult>, string>)
    ensures r.Ok? ==> |r.value| == |videos|
  {
    if videos == [] then Ok([])
    else
      var (c, seed) := videos[0];
      var m :- run(c, seed);
      var rest :- RunAll(videos[1..], run);
      Ok([CaseResult(c.caseId, seed, m)] + rest)
  }

  function Evaluate(videos: seq<(ManifestCase, nat)>, run: Runner): Result<StrictResult, string> {
    var cases :- RunAll(videos, run);
    if cases == [] then Err("evaluation manifest selected no cases")
    else Ok(Report(cases, Total(cases, HardwareOf, HardwareSum()), Some(MaxBytes(cases))))
  }

  function Single(cases: seq<ManifestCase>, maxCases: nat, seedCount: nat, run: Runner): Result<StrictResult, string> {
    Evaluate(Selection(Take(cases, maxCases), seedCount), run)
  }

  lemma {:induction false} RunAllConcat(a: seq<(ManifestCase, nat)>, b: seq<(ManifestCase, nat)>, run: Runner)
    ensures RunAll(a + b, run) == match RunAll(a, run)
                                  case Err(e) => Err(e)
                                  case Ok(xs) => match RunAll(b, run)
                                                 case Err(e) => Err(e)
                                                 case Ok(ys) => Ok(xs + ys)
  {
    if a == [] {
      assert a + b == b;
      if RunAll(b, run).Ok? { assert [] + RunAll(b, run).value == RunAll(b, run).value; }
    } else {
      assert (a + b)[1..] == a[1..] + b;
      RunAllConcat(a[1..], b, run);
      if RunAll(a[1..], run).Ok? && RunAll(b, run).Ok? && run(a[0].0, a[0].1).Ok? {
        var head := [CaseResult(a[0].0.caseId, a[0].1, run(a[0].0, a[0].1).value)];
        assert (head + RunAll(a[1..], run).value) + RunAll(b, run).value
            == head + (RunAll(a[1..], run).value + RunAll(b, run).value);
      }
    }
  }

  lemma RunOne(c: ManifestCase, seed: nat, run: Runner)
    ensures RunAll([(c, seed)], run) == match run(c, seed)
                                        case Err(e) => Err(e)
                                        case Ok(m) => Ok([CaseResult(c.caseId, seed, m)])
  {
    assert RunAll([(c, seed)][1..], run) == Ok([]);
    if run(c, seed).Ok? {
      assert [CaseResult(c.caseId, seed, run(c, seed).value)] + [] == [CaseResult(c.caseId, seed, run(c, seed).value)];
    }
  }

  lemma {:induction false} SelectionPrefix(cases: seq<ManifestCase>, k: nat, seedCount: nat)
    requires k <= |cases|
    ensures Selection(cases, seedCount) == Selection(cases[..k], seedCount) + Selection(cases[k..], seedCount)
  {
    if k == 0 {
      assert cases[..0] == [] && cases[0..] == cases;
    } else {
      var tail := cases[1..];
      assert cases[..k][1..] == tail[..k - 1] && cases[k..] == tail[k - 1..];
      SelectionPrefix(tail, k - 1, seedCount);
    }
  }

  lemma SelectionStep(cases: seq<ManifestCase>, k: nat, seedCount: nat)
    requires k < |cases|
    ensures Selection(cases[..k + 1], seedCount) == Selection(cases[..k], seedCount) + SeedsOf(cases[k], seedCount)
  {
    SelectionPrefix(cases[..k + 1], k, seedCount);
    assert cases[..k + 1][..k] == cases[..k] && cases[..k + 1][k..] == [cases[k]];
    SelectionOfOne(cases[k], seedCount);
  }

  lemma SelectionOfOne(c: ManifestCase, seedCount: nat)
    ensures Selection([c], seedCount) == SeedsOf(c, seedCount)
  {
    assert [c][1..] == [];
    assert SeedsOf(c, seedCount) + [] == SeedsOf(c, seedCount);
  }

  lemma FailurePersists(a: seq<(ManifestCase, nat)>, b: seq<(ManifestCase, nat)>, run: Runner)
    requires RunAll(a, run).Err?
    ensures RunAll(a + b, run) == RunAll(a, run)
  {
    RunAllConcat(a, b, run);
  }

  // ----- What is measured, in which order

  /** The results are the measurements of these videos, in order. */
  ghost predicate Measured(results: seq<CaseResult>, videos: seq<(ManifestCase, nat)>, run: Runner) {
    |results| == |videos| && forall i :: 0 <= i < |videos| ==> MeasuredAs(results[i], videos[i].0, videos[i].1, run)
  }

  ghost predicate MeasuredAs(r: CaseResult, c: ManifestCase, seed: nat, run: Runner) {
    r.caseId == c.caseId && r.seed == seed && run(c, seed) == Ok(r.measured)
  }

  /** The results are the measurements of these videos, in some order. */
  ghost predicate SomeOrderMeasured(results: seq<CaseResult>, videos: seq<(ManifestCase, nat)>, run: Runner) {
    exists inOrder :: multiset(inOrder) == multiset(results) && Measured(inOrder, videos, run)
  }

  /** Video k is the first that cannot be measured, and the error is its error. */
  ghost predicate FailsFirst(videos: seq<(ManifestCase, nat)>, k: nat, error: string, run: Runner) {
    && k < |videos| && run(videos[k].0, videos[k].1) == Err(error)
    && forall i :: 0 <= i < k ==> run(videos[i].0, videos[i].1).Ok?
  }

  lemma {:induction false} RunAllMeasures(videos: seq<(ManifestCase, nat)>, run: Runner)
    ensures RunAll(videos, run).Ok? ==> Measured(RunAll(videos, run).value, videos, run)
    ensures RunAll(videos, run).Err? ==> exists k: nat :: FailsFirst(videos, k, RunAll(videos, run).error, run)
  {
    if videos != [] {
      RunAllMeasures(videos[1..], run);
      if run(videos[0].0, videos[0].1).Err? {
        assert FailsFirst(videos, 0, RunAll(videos, run).error, run);
      } else if RunAll(videos[1..], run).Err? {
        var k: nat :| FailsFirst(videos[1..], k, RunAll(videos[1..], run).error, run);
        assert FailsFirst(videos, k + 1, RunAll(videos, run).error, run);
      }
    }
  }

  /** How many videos the first n cases select. */
  function VideosBefore(cases: seq<ManifestCase>, seedCount: nat, n: nat): nat
    requires n <= |cases|
  {
    if n == 0 then 0
    else VideosBefore(cases, seedCount, n - 1)
         + if |cases[n - 1].seeds| < seedCount then |cases[n - 1].seeds| else seedCount
  }

  /** The videos are the first seeds of the first case, then those of the second, and so on. */
  lemma {:induction false} SelectionAt(cases: seq<ManifestCase>, seedCount: nat, i: nat, j: nat)
    requires i < |cases| && j < |cases[i].seeds| && j < seedCount
    ensures |Selection(cases, seedCount)| == VideosBefore(cases, seedCount, |cases|)
    ensures VideosBefore(cases, seedCount, i) + j < |Selection(cases, seedCount)|
    ensures Selection(cases, seedCount)[VideosBefore(cases, seedCount, i) + j] == (cases[i], cases[i].seeds[j])
  {
    hide Selection;
    SelectionPrefix(cases, i, seedCount);
    SelectionCount(cases[..i], seedCount);
    SelectionCount(cases, seedCount);
    SamePrefix(cases, cases[..i], seedCount, i);
    SelectionHead(cases[i..], seedCount);
  }

  lemma {:induction false} SelectionCount(cases: seq<ManifestCase>, seedCount: nat)
    ensures |Selection(cases, seedCount)| == VideosBefore(cases, seedCount, |cases|)
  {
    if cases != [] {
      var n := |cases| - 1;
      SelectionCount(cases[..n], seedCount);
      SamePrefix(cases, cases[..n], seedCount, n);
      SelectionStep(cases, n, seedCount);
      assert cases[..n + 1] == cases;
    }
  }

  lemma {:induction false} SamePrefix(a: seq<ManifestCase>, b: seq<ManifestCase>, seedCount: nat, n: nat)
    requires n <= |a| && n <= |b| && a[..n] == b[..n]
    ensures VideosBefore(a, seedCount, n) == VideosBefore(b, seedCount, n)
  {
    if n > 0 {
      assert a[..n - 1] == a[..n][..n - 1] && b[..n - 1] == b[..n][..n - 1] && a[n - 1] == a[..n][n - 1];
      SamePrefix(a, b, seedCount, n - 1);
    }
  }

  lemma SelectionHead(cases: seq<ManifestCase>, seedCount: nat)
    requires cases != []
    ensures Selection(cases, seedCount) == SeedsOf(cases[0], seedCount) + Selection(cases[1..], seedCount)
  {
  }

  /** What one process reports: all selected videos, measured in order; or the first error. */
  lemma SingleReports(cases: seq<ManifestCase>, maxCases: nat, seedCount: nat, run: Runner)
    ensures var result := Single(cases, maxCases, seedCount, run);
            var videos := Selection(Take(cases, maxCases), seedCount);
            && (result.Ok? ==>
                  && Measured(result.value.cases, videos, run)
                  && Describes(result.value, result.value.cases, PartsOf(result.value.cases))
                  && result.value.peakBytes == Some(MaxBytes(result.value.cases)))
            && (result.Err? && videos != [] ==> exists k: nat :: FailsFirst(videos, k, result.error, run))
            && (result.Ok? ==> videos != [])
  {
    hide Describes, Report, Total, HardwareSum;
    var videos := Selection(Take(cases, maxCases), seedCount);
    RunAllMeasures(videos, run);
    if RunAll(videos, run).Ok? && videos != [] {
      var results := RunAll(videos, run).value;
      TotalAddsUp(results, HardwareOf, PartsOf(results));
      ReportDescribes(results, Total(results, HardwareOf, HardwareSum()), PartsOf(results), Some(MaxBytes(results)));
      CasesReported(results, Total(results, HardwareOf, HardwareSum()), PartsOf(results), Some(MaxBytes(results)));
    }
  }

  lemma CasesReported(cases: seq<CaseResult>, totals: Hardware, parts: seq<Hardware>, peak: Option<nat>)
    requires cases != [] && Describes(Report(cases, totals, peak), cases, parts)
    ensures Report(cases, totals, peak).cases == cases
  {
  }

  /** The inner loop: the seeds of one prompt. */
  method EvaluateCase(c: ManifestCase, seedCount: nat, run: Runner) returns (result: Result<seq<CaseResult>, string>)
    ensures result == RunAll(SeedsOf(c, seedCount), run)
  {
    var seeds := Take(c.seeds, seedCount);
    ghost var videos := SeedsOf(c, seedCount);
    var results: seq<CaseResult> := [];
    for j := 0 to |seeds|
      invariant RunAll(videos[..j], run) == Ok(results)
    {
      assert videos[..j + 1] == videos[..j] + [(c, seeds[j])];
      RunAllConcat(videos[..j], [(c, seeds[j])], run);
      RunOne(c, seeds[j], run);
      var measured := run(c, seeds[j]);
      if measured.Err? {
        FailurePersists(videos[..j + 1], videos[j + 1..], run);
        assert videos == videos[..j + 1] + videos[j + 1..];
        return Err(measured.error);
      }
      results := results + [CaseResult(c.caseId, seeds[j], measured.value)];
    }
    assert videos[..|seeds|] == videos;
    result := Ok(results);
  }

  /** The outer loop: the selected prompts. */
  method EvaluateCases(selected: seq<ManifestCase>, seedCount: nat, run: Runner)
    returns (result: Result<seq<CaseResult>, string>)
    ensures result == RunAll(Selection(selected, seedCount), run)
  {
    assert selected[..0] == [] && Selection([], seedCount) == [];
    hide Selection, SeedsOf;
    var results: seq<CaseResult> := [];
    for i := 0 to |selected|
      invariant RunAll(Selection(selected[..i], seedCount), run) == Ok(results)
    {
      SelectionStep(selected, i, seedCount);
      RunAllConcat(Selection(selected[..i], seedCount), SeedsOf(selected[i], seedCount), run);
      var more := EvaluateCase(selected[i], seedCount, run);
      if more.Err? {
        SelectionPrefix(selected, i + 1, seedCount);
        FailurePersists(Selection(selected[..i + 1], seedCount), Selection(selected[i + 1..], seedCount), run);
        return Err(more.error);
      }
      results := results + more.value;
    }
    assert selected[..|selected|] == selected;
    result := Ok(results);
  }

  /** Generate and score every selected prompt and seed in one process. */
  method EvaluateSingle(cases: seq<ManifestCase>, maxCases: nat, seedCount: nat, run: Runner)
    returns (result: Result<StrictResult, string>)
    ensures result == Single(cases, maxCases, seedCount, run)
    ensures result.Ok? ==> Measured(result.value.cases, Selection(Take(cases, maxCases), seedCount), run)
    ensures result.Ok? ==> Describes(result.value, result.value.cases, PartsOf(result.value.cases))
  {
    SingleReports(cases, maxCases, seedCount, run);
    hide Describes, Report, Measured, Total, HardwareSum, Selection, MaxBytes;
    var results := EvaluateCases(Take(cases, maxCases), seedCount, run);
    if results.Err? {
      return Err(results.error);
    }
    if results.value == [] {
      return Err("evaluation manifest selected no cases");
    }
    result := Ok(Report(results.value, Total(results.value, HardwareOf, HardwareSum()), Some(MaxBytes(results.value))));
  }

  // ----- Sorting the merged cases

  predicate StringLeq(a: string, b: string) {
    a == [] || (b != [] && (a[0] < b[0] || (a[0] == b[0] && StringLeq(a[1..], b[1..]))))
  }

  predicate KeyLeq(x: CaseResult, y: CaseResult) {
    if x.caseId == y.caseId then x.seed <= y.seed else StringLeq(x.caseId, y.caseId)
  }

  predicate SameKey(x: CaseResult, y: CaseResult) {
    x.caseId == y.caseId && x.seed == y.seed
  }

  lemma {:induction false} StringOrder(a: string, b: string)
    ensures StringLeq(a, b) || StringLeq(b, a)
    ensures StringLeq(a, b) && StringLeq(b, a) ==> a == b
  {
    if a != [] && b != [] && a[0] == b[0] {
      StringOrder(a[1..], b[1..]);
      assert a == [a[0]] + a[1..] && b == [b[0]] + b[1..];
    }
  }

  lemma {:induction false} StringTransitive(a: string, b: string, c: string)
    requires StringLeq(a, b) && StringLeq(b, c)
    ensures StringLeq(a, c)
  {
    if a != [] && a[0] == b[0] == c[0] {
      StringTransitive(a[1..], b[1..], c[1..]);
    }
  }

  lemma KeyOrder(x: CaseResult, y: CaseResult)
    ensures KeyLeq(x, y) || KeyLeq(y, x)
    ensures KeyLeq(x, y) && KeyLeq(y, x) ==> SameKey(x, y)
  {
    StringOrder(x.caseId, y.caseId);
  }

  lemma KeyTransitive(x: CaseResult, y: CaseResult, z: CaseResult)
    requires KeyLeq(x, y) && KeyLeq(y, z)
    ensures KeyLeq(x, z)
  {
    StringOrder(x.caseId, y.caseId);
    if StringLeq(x.caseId, y.caseId) && StringLeq(y.caseId, z.caseId) {
      StringTransitive(x.caseId, y.caseId, z.caseId);
    }
    if x.caseId == z.caseId && x.caseId != y.caseId {
      StringOrder(x.caseId, y.caseId);
    }
  }

  lemma KeysOrder()
    ensures Ordering(KeyLeq) && Within(SameKey, KeyLeq)
  {
    forall x, y ensures KeyLeq(x, y) || KeyLeq(y, x) {
      KeyOrder(x, y);
    }
    forall x, y, z | KeyLeq(x, y) && KeyLeq(y, z) ensures KeyLeq(x, z) {
      KeyTransitive(x, y, z);
    }
  }

  function SortCases(s: seq<CaseResult>): (r: seq<CaseResult>)
    ensures multiset(r) == multiset(s) && |r| == |s|
  {
    Sort(s, KeyLeq)
  }

  /** Position k is the first where the strings differ, and there `a` has the smaller character. */
  ghost predicate SmallerAt(a: string, b: string, k: nat) {
    k < |a| && k < |b| && a[..k] == b[..k] && a[k] < b[k]
  }

  /** Lexicographic order of the case ids, then the order of the seeds. */
  ghost predicate ComesFirst(x: CaseResult, y: CaseResult) {
    if x.caseId == y.caseId then x.seed <= y.seed
    else x.caseId <= y.caseId || exists k: nat :: SmallerAt(x.caseId, y.caseId, k)
  }

  lemma {:induction false} StringLeqMeans(a: string, b: string)
    ensures StringLeq(a, b) ==> a <= b || exists k: nat :: SmallerAt(a, b, k)
  {
    if a != [] && StringLeq(a, b) {
      if a[0] < b[0] {
        assert SmallerAt(a, b, 0);
      } else {
        StringLeqMeans(a[1..], b[1..]);
        if !(a[1..] <= b[1..]) {
          var k: nat :| SmallerAt(a[1..], b[1..], k);
          assert a[..k + 1] == [a[0]] + a[1..][..k] && b[..k + 1] == [b[0]] + b[1..][..k];
          assert SmallerAt(a, b, k + 1);
        }
      }
    }
  }

  ghost predicate InKeyOrder(s: seq<CaseResult>) {
    forall i, j :: 0 <= i < j < |s| ==> ComesFirst(s[i], s[j])
  }

  /** Merged cases are ordered by case, then seed, and entries with equal keys keep their order. */
  lemma MergedOrder(s: seq<CaseResult>)
    ensures Sorted(SortCases(s), KeyLeq) && InKeyOrder(SortCases(s))
    ensures forall k :: Like(SortCases(s), SameKey, k) == Like(s, SameKey, k)
  {
    KeysOrder();
    SortSorts(s, KeyLeq);
    var r := SortCases(s);
    forall i, j | 0 <= i < j < |r| ensures ComesFirst(r[i], r[j]) {
      assert KeyLeq(r[i], r[j]);
      StringLeqMeans(r[i].caseId, r[j].caseId);
    }
    forall k ensures Like(SortCases(s), SameKey, k) == Like(s, SameKey, k) {
      SortIsStable(s, KeyLeq, SameKey, k);
    }
  }

  ghost predicate DistinctKeys(s: seq<CaseResult>) {
    forall i, j :: 0 <= i < j < |s| ==> !SameKey(s[i], s[j])
  }

  lemma SortedHeads(a: seq<CaseResult>, b: seq<CaseResult>)
    requires Sorted(a, KeyLeq) && Sorted(b, KeyLeq) && multiset(a) == multiset(b) && a != [] && b != []
    requires DistinctKeys(a)
    ensures a[0] == b[0]
  {
    hide KeyLeq, SameKey;
    assert a[0] in multiset(b) && b[0] in multiset(a);
    var i :| 0 <= i < |b| && b[i] == a[0];
    var j :| 0 <= j < |a| && a[j] == b[0];
    KeyOrder(a[0], a[0]);
    KeyOrder(b[0], b[0]);
    assert KeyLeq(a[0], a[j]) && KeyLeq(b[0], b[i]);
    KeyOrder(a[0], b[0]);
    assert SameKey(a[0], a[j]);
  }

  lemma MultisetOfTail<T>(s: seq<T>)
    requires s != []
    ensures multiset(s[1..]) == multiset(s) - multiset{s[0]}
  {
    assert s == [s[0]] + s[1..];
  }

  /** Distinct keys leave only one sorted order. */
  lemma {:induction false} SortedIsUnique(a: seq<CaseResult>, b: seq<CaseResult>)
    requires Sorted(a, KeyLeq) && Sorted(b, KeyLeq) && multiset(a) == multiset(b) && DistinctKeys(a)
    ensures a == b
  {
    hide KeyLeq, SameKey;
    assert |a| == |multiset(a)| == |multiset(b)| == |b|;
    if a != [] {
      SortedHeads(a, b);
      MultisetOfTail(a);
      MultisetOfTail(b);
      assert Sorted(a[1..], KeyLeq) && Sorted(b[1..], KeyLeq) && DistinctKeys(a[1..]);
      SortedIsUnique(a[1..], b[1..]);
      assert a == [a[0]] + a[1..] && b == [b[0]] + b[1..];
    }
  }

  // ----- Merging

  function CasesOf(e: StrictResult): seq<CaseResult> { e.cases }

  function TotalsOf(e: StrictResult): Hardware { e.totals }

  function AllCases(shards: seq<StrictResult>): seq<CaseResult> {
    Gather(shards, CasesOf)
  }

  function Merge(shards: seq<StrictResult>): Result<StrictResult, string> {
    var cases := SortCases(AllCases(shards));
    if cases == [] then Err("parallel evaluation produced no cases")
    else Ok(Report(cases, Total(shards, TotalsOf, HardwareSum()), None))
  }

  lemma AllCasesStep(shards: seq<StrictResult>, k: nat)
    requires k < |shards|
    ensures AllCases(shards[..k + 1]) == AllCases(shards[..k]) + shards[k].cases
  {
    assert shards[..k + 1] == shards[..k] + [shards[k]];
    GatherConcat(shards[..k], [shards[k]], CasesOf);
    assert [shards[k]][1..] == [];
    assert shards[k].cases + [] == shards[k].cases;
  }

  function TotalsOfAll(shards: seq<StrictResult>): (parts: seq<Hardware>)
    ensures |parts| == |shards| && forall i :: 0 <= i < |shards| ==> parts[i] == shards[i].totals
  {
    seq(|shards|, i requires 0 <= i < |shards| => shards[i].totals)
  }

  /** A merge reports all cases in order of their keys, with the totals of the shards added up. */
  lemma MergeReports(shards: seq<StrictResult>)
    ensures Merge(shards).Ok? ==>
              var r := Merge(shards).value;
              && multiset(r.cases) == multiset(AllCases(shards)) && InKeyOrder(r.cases)
              && Describes(r, r.cases, TotalsOfAll(shards)) && r.peakBytes == None
    ensures Merge(shards).Err? <==> AllCases(shards) == []
  {
    hide Describes, Report, Total, HardwareSum, AllCases;
    var cases := SortCases(AllCases(shards));
    MergedOrder(AllCases(shards));
    TotalAddsUp(shards, TotalsOf, TotalsOfAll(shards));
    if cases != [] {
      ReportDescribes(cases, Total(shards, TotalsOf, HardwareSum()), TotalsOfAll(shards), None);
      CasesReported(cases, Total(shards, TotalsOf, HardwareSum()), TotalsOfAll(shards), None);
    }
  }

  method MergeShards(shards: seq<StrictResult>) returns (result: Result<StrictResult, string>)
    ensures result == Merge(shards)
    ensures result.Ok? ==> Describes(result.value, result.value.cases, TotalsOfAll(shards))
  {
    MergeReports(shards);
    hide Describes, Report;
    var cases: seq<CaseResult> := [];
    for i := 0 to |shards|
      invariant cases == AllCases(shards[..i])
    {
      AllCasesStep(shards, i);
      cases := cases + shards[i].cases;
    }
    assert shards[..|shards|] == shards;
    if cases == [] {
      return Err("parallel evaluation produced no cases");
    }
    cases := SortCases(cases);
    result := Ok(Report(cases, Total(shards, TotalsOf, HardwareSum()), None));
  }

  // ----- One process per case

  function Shard(c: ManifestCase, seedCount: nat, run: Runner): Result<StrictResult, string> {
    Single([c], 1, seedCount, run)
  }

  /** The successful shards in order, or the failure of the whole when any shard failed. */
  function RunShards(cases: seq<ManifestCase>, seedCount: nat, run: Runner): Result<seq<StrictResult>, string> {
    if cases == [] then Ok([])
    else
      match (Shard(cases[0], seedCount, run), RunShards(cases[1..], seedCount, run))
      case (Ok(e), Ok(rest)) => Ok([e] + rest)
      case _ => Err("parallel_evaluation_failed")
  }

  function Sharded(cases: seq<ManifestCase>, maxCases: nat, seedCount: nat, devices: nat, run: Runner)
    : Result<StrictResult, string>
  {
    var selected := Take(cases, maxCases);
    if devices <= 1 || |selected| <= 1 then Single(cases, maxCases, seedCount, run)
    else
      var shards :- RunShards(selected, seedCount, run);
      Merge(shards)
  }

  lemma {:induction false} RunShardsStep(cases: seq<ManifestCase>, k: nat, seedCount: nat, run: Runner)
    requires k < |cases|
    ensures RunShards(cases[..k + 1], seedCount, run)
            == match (RunShards(cases[..k], seedCount, run), Shard(cases[k], seedCount, run))
               case (Ok(front), Ok(e)) => Ok(front + [e])
               case _ => Err("parallel_evaluation_failed")
  {
    hide Shard;
    var tail := cases[1..];
    if k == 0 {
      assert cases[..0] == [];
      assert cases[..1][1..] == [] && cases[..1][0] == cases[0];
      assert RunShards([], seedCount, run) == Ok([]);
      if Shard(cases[0], seedCount, run).Ok? {
        var e := Shard(cases[0], seedCount, run).value;
        assert [] + [e] == [e] + [];
      }
    } else {
      assert cases[..k + 1][1..] == tail[..k] && cases[..k][1..] == tail[..k - 1] && tail[k - 1] == cases[k];
      RunShardsStep(tail, k - 1, seedCount, run);
      var first := Shard(cases[0], seedCount, run);
      var front, last := RunShards(tail[..k - 1], seedCount, run), Shard(cases[k], seedCount, run);
      if first.Ok? && front.Ok? && last.Ok? {
        assert [first.value] + (front.value + [last.value]) == ([first.value] + front.value) + [last.value];
      }
    }
  }

  /** What sharded evaluation reports adds up over its cases, however they were distributed. */
  lemma ShardedReports(cases: seq<ManifestCase>, maxCases: nat, seedCount: nat, devices: nat, run: Runner)
    ensures var result := Sharded(cases, maxCases, seedCount, devices, run);
            result.Ok? ==>
              && Describes(result.value, result.value.cases, PartsOf(result.value.cases))
              && SomeOrderMeasured(result.value.cases, Selection(Take(cases, maxCases), seedCount), run)
              && (if devices <= 1 || |Take(cases, maxCases)| <= 1
                  then result.value.peakBytes == Some(MaxBytes(result.value.cases))
                  else InKeyOrder(result.value.cases) && result.value.peakBytes == None)
  {
    hide Describes, Report, Total, HardwareSum, Merge, RunShards, RunAll, Single, Selection, Measured, InKeyOrder;
    var selected := Take(cases, maxCases);
    SingleReports(cases, maxCases, seedCount, run);
    if devices > 1 && |selected| > 1 && RunShards(selected, seedCount, run).Ok? {
      ShardsReport(selected, seedCount, run);
      RunAllMeasures(Selection(selected, seedCount), run);
      MergeReports(RunShards(selected, seedCount, run).value);
      if Merge(RunShards(selected, seedCount, run).value).Ok? {
        MergedOverCases(RunShards(selected, seedCount, run).value);
      }
    }
  }

  lemma MergedOverCases(shards: seq<StrictResult>)
    requires TotalsMatch(shards) && Merge(shards).Ok?
    ensures Describes(Merge(shards).value, Merge(shards).value.cases, PartsOf(Merge(shards).value.cases))
  {
    hide Describes, Report, Total, HardwareSum, AllCases;
    var cases := SortCases(AllCases(shards));
    TotalOfAllCases(shards);
    TotalOfPermutation(AllCases(shards), cases, HardwareOf, HardwareSum());
    TotalAddsUp(cases, HardwareOf, PartsOf(cases));
    ReportDescribes(cases, Total(shards, TotalsOf, HardwareSum()), PartsOf(cases), None);
    CasesReported(cases, Total(shards, TotalsOf, HardwareSum()), PartsOf(cases), None);
  }

  /** Every shard is run; failures are collected and only looked at in the end. */
  method EvaluateParallel(cases: seq<ManifestCase>, maxCases: nat, seedCount: nat, devices: nat, run: Runner)
    returns (result: Result<StrictResult, string>)
    ensures result == Sharded(cases, maxCases, seedCount, devices, run)
    ensures result.Ok? ==> Describes(result.value, result.value.cases, PartsOf(result.value.cases))
  {
    ShardedReports(cases, maxCases, seedCount, devices, run);
    hide Describes, Report, Merge, Single;
    var selected := Take(cases, maxCases);
    if devices <= 1 || |selected| <= 1 {
      result := EvaluateSingle(cases, maxCases, seedCount, run);
      return;
    }
    var results: seq<StrictResult>, failures := [], 0;
    for i := 0 to |selected|
      invariant RunShards(selected[..i], seedCount, run)
                == if failures == 0 then Ok(results) else Err("parallel_evaluation_failed")
    {
      RunShardsStep(selected, i, seedCount, run);
      var shard := EvaluateSingle([selected[i]], 1, seedCount, run);
      if shard.Ok? {
        results := results + [shard.value];
      } else {
        failures := failures + 1;
      }
    }
    assert selected[..|selected|] == selected;
    if failures > 0 {
      return Err("parallel_evaluation_failed");
    }
    result := MergeShards(results);
  }

  // ----- Agreement

  /** Equal but for the order of the case and failure lists, the version tag and the byte-sized peak. */
  ghost predicate SameEvaluation(a: StrictResult, b: StrictResult) {
    && a.caseCount == b.caseCount && a.means == b.means
    && a.valid == b.valid && a.promotable == b.promotable && a.failureCode == b.failureCode
    && a.gateEnabled == b.gateEnabled && a.continuation == b.continuation
    && a.failureCount == b.failureCount && multiset(a.failures) == multiset(b.failures)
    && a.totals == b.totals
    && a.generationMean == b.generationMean && a.inferenceMean == b.inferenceMean && a.wholeMean == b.wholeMean
    && multiset(a.cases) == multiset(b.cases)
  }

  lemma ReportOfPermutation(a: seq<CaseResult>, b: seq<CaseResult>, totals: Hardware, p: Option<nat>, q: Option<nat>)
    requires a != [] && b != [] && multiset(a) == multiset(b)
    ensures SameEvaluation(Report(a, totals, p), Report(b, totals, q))
  {
    assert |a| == |multiset(a)| == |multiset(b)| == |b|;
    TotalOfPermutation(a, b, ScoresOf, ScoreSum());
    TotalOfPermutation(a, b, GatePasses, All());
    TotalOfPermutation(a, b, GateEnabled, Any());
    TotalOfPermutation(a, b, Continues, All());
    TotalOfPermutation(a, b, FailureBag, Union());
    assert |FailuresOf(a)| == |multiset(FailuresOf(a))| == |multiset(FailuresOf(b))| == |FailuresOf(b)|;
  }

  /** A shard succeeds when its case selects a seed and all its videos succeed; it then reports exactly those. */
  lemma ShardReports(c: ManifestCase, seedCount: nat, run: Runner)
    ensures var cases := RunAll(SeedsOf(c, seedCount), run);
            && (Shard(c, seedCount, run).Ok? <==> cases.Ok? && SeedsOf(c, seedCount) != [])
            && (Shard(c, seedCount, run).Ok? ==>
                  && Shard(c, seedCount, run).value.cases == cases.value
                  && Shard(c, seedCount, run).value.totals == Total(cases.value, HardwareOf, HardwareSum()))
  {
    SelectionOfOne(c, seedCount);
    assert Take([c], 1) == [c];
  }

  predicate SelectsSeed(c: ManifestCase, seedCount: nat) {
    SeedsOf(c, seedCount) != []
  }

  lemma AllCasesHead(e: StrictResult, rest: seq<StrictResult>)
    ensures AllCases([e] + rest) == e.cases + AllCases(rest)
  {
    assert ([e] + rest)[1..] == rest;
  }

  ghost predicate TotalsMatch(shards: seq<StrictResult>) {
    forall e :: e in shards ==> TotalsOf(e) == Total(CasesOf(e), HardwareOf, HardwareSum())
  }

  predicate AllSelect(cases: seq<ManifestCase>, seedCount: nat) {
    forall c :: c in cases ==> SelectsSeed(c, seedCount)
  }

  lemma AllSelectHead(cases: seq<ManifestCase>, seedCount: nat)
    requires cases != []
    ensures AllSelect(cases, seedCount) <==> SelectsSeed(cases[0], seedCount) && AllSelect(cases[1..], seedCount)
  {
    assert cases == [cases[0]] + cases[1..];
  }

  lemma {:induction false} ShardsReport(cases: seq<ManifestCase>, seedCount: nat, run: Runner)
    ensures var all, shards := RunAll(Selection(cases, seedCount), run), RunShards(cases, seedCount, run);
            && (shards.Ok? <==> all.Ok? && AllSelect(cases, seedCount))
            && (shards.Ok? ==> AllCases(shards.value) == all.value && TotalsMatch(shards.value))
  {
    if cases == [] {
      assert AllCases([]) == [];
    } else {
      hide Shard, HardwareSum, HardwareOf, Selection, RunAll, AllCases, SelectsSeed, AllSelect, Total;
      SelectionHead(cases, seedCount);
      RunAllConcat(SeedsOf(cases[0], seedCount), Selection(cases[1..], seedCount), run);
      ShardReports(cases[0], seedCount, run);
      ShardsReport(cases[1..], seedCount, run);
      AllSelectHead(cases, seedCount);
      SelectsSeedIs(cases[0], seedCount);
      var first, rest := Shard(cases[0], seedCount, run), RunShards(cases[1..], seedCount, run);
      if first.Ok? && rest.Ok? {
        AllCasesHead(first.value, rest.value);
      }
    }
  }

  lemma SelectsSeedIs(c: ManifestCase, seedCount: nat)
    ensures SelectsSeed(c, seedCount) <==> SeedsOf(c, seedCount) != []
  {
  }

  lemma MergedShardsAgree(selected: seq<ManifestCase>, seedCount: nat, run: Runner)
    requires selected != [] && RunShards(selected, seedCount, run).Ok?
    ensures var merged := Merge(RunShards(selected, seedCount, run).value);
            var single := Evaluate(Selection(selected, seedCount), run);
            merged.Ok? && single.Ok? && SameEvaluation(single.value, merged.value)
  {
    hide HardwareSum, HardwareOf, Report, SameEvaluation, Selection, RunAll, RunShards, AllCases, SortCases;
    ShardsReport(selected, seedCount, run);
    var cases, shards := RunAll(Selection(selected, seedCount), run).value, RunShards(selected, seedCount, run).value;
    assert cases != [] by {
      SelectionHead(selected, seedCount);
      assert SelectsSeed(selected[0], seedCount);
    }
    var merged := SortCases(AllCases(shards));
    TotalOfAllCases(shards);
    ReportOfPermutation(cases, merged, Total(cases, HardwareOf, HardwareSum()), Some(MaxBytes(cases)), None);
  }

  lemma TotalOfAllCases(shards: seq<StrictResult>)
    requires TotalsMatch(shards)
    ensures Total(shards, TotalsOf, HardwareSum()) == Total(AllCases(shards), HardwareOf, HardwareSum())
  {
    hide HardwareSum, HardwareOf;
    TotalOfGroups(shards, CasesOf, HardwareOf, TotalsOf, HardwareSum());
  }

  /**
   Sharding changes nothing but list order, the version tag and the byte-sized peak, as long as every
   selected case selects a seed; a case without seeds fails its own process, while one process skips it.
   */
  lemma ShardedAgreesIff(cases: seq<ManifestCase>, maxCases: nat, seedCount: nat, devices: nat, run: Runner)
    ensures var single := Single(cases, maxCases, seedCount, run);
            var sharded := Sharded(cases, maxCases, seedCount, devices, run);
            && (sharded.Ok? ==> single.Ok? && SameEvaluation(single.value, sharded.value))
            && (single.Ok? ==>
                  (sharded.Ok? <==> devices <= 1 || |Take(cases, maxCases)| <= 1
                                    || AllSelect(Take(cases, maxCases), seedCount)))
  {
    var selected := Take(cases, maxCases);
    hide SameEvaluation, Take, Selection, Evaluate, RunShards, AllSelect, Merge;
    if devices > 1 && |selected| > 1 {
      ManyShards(selected, seedCount, run);
    } else if Single(cases, maxCases, seedCount, run).Ok? {
      SameAsItself(Single(cases, maxCases, seedCount, run).value);
    }
  }

  lemma SameAsItself(e: StrictResult)
    ensures SameEvaluation(e, e)
  {
  }

  lemma ManyShards(selected: seq<ManifestCase>, seedCount: nat, run: Runner)
    requires selected != []
    ensures var single, shards := Evaluate(Selection(selected, seedCount), run), RunShards(selected, seedCount, run);
            && (shards.Ok? ==>
                  && Merge(shards.value).Ok? && single.Ok?
                  && SameEvaluation(single.value, Merge(shards.value).value))
            && (single.Ok? ==> (shards.Ok? <==> AllSelect(selected, seedCount)))
  {
    hide Report, SameEvaluation, Selection, RunAll, RunShards, AllSelect, Merge, Total;
    ShardsReport(selected, seedCount, run);
    if RunShards(selected, seedCount, run).Ok? {
      MergedShardsAgree(selected, seedCount, run);
    }
  }

  /** Manifests reject cases without seeds and the configuration rejects a seed count of zero: full agreement. */
  lemma ShardedAgrees(cases: seq<ManifestCase>, maxCases: nat, seedCount: nat, devices: nat, run: Runner)
    requires seedCount > 0 && forall c :: c in cases ==> c.seeds != []
    ensures var single := Single(cases, maxCases, seedCount, run);
            var sharded := Sharded(cases, maxCases, seedCount, devices, run);
            && (single.Ok? <==> sharded.Ok?)
            && (single.Ok? ==> SameEvaluation(single.value, sharded.value))
  {
    hide SameEvaluation, Sharded, Single;
    ShardedAgreesIff(cases, maxCases, seedCount, devices, run);
  }

  function BagOfCases(e: StrictResult): multiset<CaseResult> { multiset(e.cases) }

  lemma {:induction false} BagOfAllCases(shards: seq<StrictResult>)
    ensures multiset(AllCases(shards)) == Total(shards, BagOfCases, Union())
  {
    if shards == [] {
      assert AllCases([]) == [];
    } else {
      BagOfAllCases(shards[1..]);
      AllCasesHead(shards[0], shards[1..]);
      assert shards == [shards[0]] + shards[1..];
    }
  }

  /** Merging the shards in another order gives the same evaluation, to the letter when case keys are distinct. */
  lemma MergeIgnoresShardOrder(shards: seq<StrictResult>, other: seq<StrictResult>)
    requires multiset(shards) == multiset(other)
    ensures Merge(shards).Ok? <==> Merge(other).Ok?
    ensures Merge(shards).Ok? ==> SameEvaluation(Merge(shards).value, Merge(other).value)
    ensures DistinctKeys(AllCases(shards)) ==> Merge(shards) == Merge(other)
  {
    hide HardwareSum, HardwareOf, Report, SameEvaluation, SameKey, KeyLeq;
    BagOfAllCases(shards);
    BagOfAllCases(other);
    TotalOfPermutation(shards, other, BagOfCases, Union());
    TotalOfPermutation(shards, other, TotalsOf, HardwareSum());
    var a, b := SortCases(AllCases(shards)), SortCases(AllCases(other));
    assert |a| == |multiset(a)| == |multiset(b)| == |b|;
    if a != [] {
      ReportOfPermutation(a, b, Total(shards, TotalsOf, HardwareSum()), None, None);
    }
    if DistinctKeys(AllCases(shards)) {
      MergedOrder(AllCases(shards));
      MergedOrder(AllCases(other));
      DistinctKeysOfPermutation(AllCases(shards), a);
      SortedIsUnique(a, b);
    }
  }

  lemma DistinctKeysOfPermutation(a: seq<CaseResult>, b: seq<CaseResult>)
    requires DistinctKeys(a) && multiset(a) == multiset(b)
    ensures DistinctKeys(b)
  {
    forall i, j | 0 <= i < j < |b| ensures !SameKey(b[i], b[j]) {
      if b[i] == b[j] {
        var head, tail := b[..j], b[j..];
        assert b == head + tail;
        assert head[i] == b[i] && tail[0] == b[j];
        assert multiset(b)[b[i]] >= 2;
        OccursTwice(a, b[i]);
      } else {
        assert b[i] in multiset(a) && b[j] in multiset(a);
        var k :| 0 <= k < |a| && a[k] == b[i];
        var l :| 0 <= l < |a| && a[l] == b[j];
        assert SameKey(a[k], a[l]) == SameKey(a[l], a[k]);
      }
    }
  }

  lemma OccursTwice(a: seq<CaseResult>, x: CaseResult)
    requires multiset(a)[x] >= 2
    ensures !DistinctKeys(a)
  {
    assert x in multiset(a);
    var i :| 0 <= i < |a| && a[i] == x;
    var head, tail := a[..i], a[i + 1..];
    assert a == head + [x] + tail;
    assert multiset(head + tail)[x] >= 1;
    assert x in head + tail;
    var j :| 0 <= j < |head + tail| && (head + tail)[j] == x;
    if j < i {
      assert SameKey(a[j], a[i]);
    } else {
      assert (head + tail)[j] == a[j + 1];
      assert SameKey(a[i], a[j + 1]);
    }
  }

  /** Without distinct keys the version tag may follow the order, unless the cases report a single version. */
  lemma {:induction false} VersionOfAgreeing(cases: seq<CaseResult>, v: string)
    requires forall c :: c in cases && c.measured.gate.version.GetOr("") != "" ==> c.measured.gate.version == Some(v)
    ensures VersionOf(cases)
            == if exists c :: c in cases && c.measured.gate.version.GetOr("") != "" then v else "disabled"
  {
    if cases != [] {
      assert cases == [cases[0]] + cases[1..];
      VersionOfAgreeing(cases[1..], v);
      assert cases[0] in cases;
      if c :| c in cases && c.measured.gate.version.GetOr("") != "" && c != cases[0] {
        assert c in cases[1..];
      }
    }
  }
}
