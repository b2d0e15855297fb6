/** The result record of a strict evaluation, and what it says about the measured cases. */
module StrictReport {
  import opened Wrappers
  import opened Totals

  datatype Gate = Gate(enabled: bool, passed: bool, failures: seq<string>, version: Option<string>)
  datatype Scores = Scores(score: real, semantic: real, temporal: real, motion: real)

  /** Wall times, inference steps and peak memory; `peakGb` is a maximum, the others are sums. */
  datatype Hardware = Hardware(generation: real, inference: real, io: real, quality: real, whole: real,
                               steps: nat, peakGb: NonNegative)

  datatype Measurement = Measurement(scores: Scores, gate: Gate, inference: real, io: real, quality: real, whole: real,
                                     steps: nat, peakBytes: nat, continuation: bool)
  datatype CaseResult = CaseResult(caseId: string, seed: nat, measured: Measurement)
  datatype Failure = Failure(caseId: string, seed: nat, failures: seq<string>)

  datatype StrictResult = StrictResult(
    caseCount: nat, means: Scores, valid: bool, promotable: bool, failureCode: Option<string>,
    gateEnabled: bool, failureCount: nat, failures: seq<Failure>, version: string, continuation: bool,
    totals: Hardware, generationMean: real, inferenceMean: real, wholeMean: real,
    peakBytes: Option<nat>, cases: seq<CaseResult>)

  const GIB: real := 1073741824.0

  // ----- What each aggregate looks at

  function ScoresOf(c: CaseResult): Scores { c.measured.scores }

  /** Generation and inference wall time are the same measurement. */
  function HardwareOf(c: CaseResult): Hardware {
    var m := c.measured;
    Hardware(m.inference, m.inference, m.io, m.quality, m.whole, m.steps, m.peakBytes as real / GIB)
  }

  predicate GatePasses(c: CaseResult) { !c.measured.gate.enabled || c.measured.gate.passed }

  predicate GateEnabled(c: CaseResult) { c.measured.gate.enabled }

  predicate Continues(c: CaseResult) { c.measured.continuation }

  function FailureOf(c: CaseResult): Failure { Failure(c.caseId, c.seed, c.measured.gate.failures) }

  function FailureBag(c: CaseResult): multiset<Failure> {
    if GatePasses(c) then multiset{} else multiset{FailureOf(c)}
  }

  function ScoreSum(): (m: Monoid<Scores>)
    ensures m.Lawful()
  {
    Monoid((x: Scores, y: Scores) =>
        Scores(x.score + y.score, x.semantic + y.semantic, x.temporal + y.temporal, x.motion + y.motion),
      Scores(0.0, 0.0, 0.0, 0.0))
  }

  function HardwareSum(): (m: Monoid<Hardware>)
    ensures m.Lawful()
  {
    Monoid((x: Hardware, y: Hardware) =>
        Hardware(x.generation + y.generation, x.inference + y.inference, x.io + y.io, x.quality + y.quality,
                 x.whole + y.whole, x.steps + y.steps, Max(x.peakGb, y.peakGb)),
      Hardware(0.0, 0.0, 0.0, 0.0, 0.0, 0, 0.0))
  }

  function Mean(s: Scores, n: nat): Scores
    requires n > 0
  {
    var d := n as real;
    Scores(s.score / d, s.semantic / d, s.temporal / d, s.motion / d)
  }

  function FailuresOf(cases: seq<CaseResult>): (r: seq<Failure>)
    ensures multiset(r) == Total(cases, FailureBag, Union())
  {
    if cases == [] then []
    else
      var rest := FailuresOf(cases[1..]);
      if GatePasses(cases[0]) then
        assert multiset{} + multiset(rest) == multiset(rest);
        rest
      else
        [FailureOf(cases[0])] + rest
  }

  /** The first gate version reported, in case order. */
  function VersionOf(cases: seq<CaseResult>): string {
    if cases == [] then "disabled"
    else if cases[0].measured.gate.version.Some? && cases[0].measured.gate.version.value != "" then
      cases[0].measured.gate.version.value
    else VersionOf(cases[1..])
  }

  function MaxBytes(cases: seq<CaseResult>): nat {
    if cases == [] then 0
    else
      var rest := MaxBytes(cases[1..]);
      if cases[0].measured.peakBytes < rest then rest else cases[0].measured.peakBytes
  }

  /** The result record of either path: quality from the cases, hardware from `totals`. */
  function Report(cases: seq<CaseResult>, totals: Hardware, peakBytes: Option<nat>): StrictResult
    requires cases != []
  {
    var n := |cases|;
    var passed := Total(cases, GatePasses, All());
    StrictResult(n, Mean(Total(cases, ScoresOf, ScoreSum()), n), passed, passed,
               if passed then None else Some("visual_collapse"),
               Total(cases, GateEnabled, Any()), |FailuresOf(cases)|, FailuresOf(cases), VersionOf(cases),
               Total(cases, Continues, All()), totals,
               totals.generation / n as real, totals.inference / n as real, totals.whole / n as real, peakBytes, cases)
  }

  lemma {:induction false} NoFailures(cases: seq<CaseResult>)
    ensures FailuresOf(cases) == [] <==> forall c :: c in cases ==> GatePasses(c)
  {
    if cases != [] {
      hide GatePasses, Total, FailureBag;
      NoFailures(cases[1..]);
      assert forall c :: c in cases <==> c == cases[0] || c in cases[1..];
    }
  }

  /** What the verdict of a report says about its cases. */
  lemma VerdictMeans(cases: seq<CaseResult>, totals: Hardware, peak: Option<nat>)
    requires cases != []
    ensures var r := Report(cases, totals, peak);
            && (r.valid <==> forall c :: c in cases ==> GatePasses(c))
            && (r.valid <==> r.failureCount == 0) && (r.valid <==> r.failureCode == None)
            && (r.gateEnabled <==> exists c :: c in cases && GateEnabled(c))
            && (r.continuation <==> forall c :: c in cases ==> Continues(c))
  {
    hide GatePasses, GateEnabled, Continues, Total;
    TotalAll(cases, GatePasses);
    TotalAny(cases, GateEnabled);
    TotalAll(cases, Continues);
    NoFailures(cases);
  }

  /** The peak is the largest peak of any case. */
  lemma {:induction false} PeakIsLargest(cases: seq<CaseResult>)
    ensures Total(cases, HardwareOf, HardwareSum()).peakGb == MaxBytes(cases) as real / GIB
    ensures forall c :: c in cases ==> c.measured.peakBytes <= MaxBytes(cases)
    ensures cases != [] ==> exists c :: c in cases && c.measured.peakBytes == MaxBytes(cases)
  {
    if cases != [] {
      PeakIsLargest(cases[1..]);
      assert cases == [cases[0]] + cases[1..];
      var c := if cases[0].measured.peakBytes < MaxBytes(cases[1..])
               then var c :| c in cases[1..] && c.measured.peakBytes == MaxBytes(cases[1..]); c
               else cases[0];
      assert c in cases && c.measured.peakBytes == MaxBytes(cases);
    }
  }

  // ----- What a report says, field by field

  /** What one case contributes to the hardware totals. */
  function PartOf(c: CaseResult): Hardware {
    Hardware(c.measured.inference, c.measured.inference, c.measured.io, c.measured.quality, c.measured.whole,
             c.measured.steps, c.measured.peakBytes as real / 1073741824.0)
  }

  ghost predicate IsPeak(peak: real, parts: seq<Hardware>) {
    && (forall i :: 0 <= i < |parts| ==> parts[i].peakGb <= peak)
    && (if parts == [] then peak == 0.0 else exists i :: 0 <= i < |parts| && parts[i].peakGb == peak)
  }

  /** Sums of times and steps, and the largest peak. */
  ghost predicate AddsUp(t: Hardware, parts: seq<Hardware>) {
    && t.generation == SumOf(seq(|parts|, i requires 0 <= i < |parts| => parts[i].generation))
    && t.inference == SumOf(seq(|parts|, i requires 0 <= i < |parts| => parts[i].inference))
    && t.io == SumOf(seq(|parts|, i requires 0 <= i < |parts| => parts[i].io))
    && t.quality == SumOf(seq(|parts|, i requires 0 <= i < |parts| => parts[i].quality))
    && t.whole == SumOf(seq(|parts|, i requires 0 <= i < |parts| => parts[i].whole))
    && t.steps as real == SumOf(seq(|parts|, i requires 0 <= i < |parts| => parts[i].steps as real))
    && IsPeak(t.peakGb, parts)
  }

  /** The means are the sums over the cases, divided by their number. */
  ghost predicate MeansOf(means: Scores, cases: seq<CaseResult>) {
    var n := |cases|;
    && means.score * n as real == SumOf(seq(n, i requires 0 <= i < n => cases[i].measured.scores.score))
    && means.semantic * n as real == SumOf(seq(n, i requires 0 <= i < n => cases[i].measured.scores.semantic))
    && means.temporal * n as real == SumOf(seq(n, i requires 0 <= i < n => cases[i].measured.scores.temporal))
    && means.motion * n as real == SumOf(seq(n, i requires 0 <= i < n => cases[i].measured.scores.motion))
  }

  predicate Fails(c: CaseResult) {
    c.measured.gate.enabled && !c.measured.gate.passed
  }

  /** The failing cases in order, each with the failures of its gate. */
  ghost predicate FailuresAre(failures: seq<Failure>, cases: seq<CaseResult>)
    decreases |cases|
  {
    if cases == [] then failures == []
    else if !Fails(cases[0]) then FailuresAre(failures, cases[1..])
    else
      && failures != []
      && failures[0].caseId == cases[0].caseId && failures[0].seed == cases[0].seed
      && failures[0].failures == cases[0].measured.gate.failures
      && FailuresAre(failures[1..], cases[1..])
  }

  predicate Tagged(c: CaseResult) {
    c.measured.gate.version.Some? && c.measured.gate.version.value != ""
  }

  ghost predicate FirstTagged(cases: seq<CaseResult>, k: nat) {
    k < |cases| && Tagged(cases[k]) && forall j :: 0 <= j < k ==> !Tagged(cases[j])
  }

  ghost predicate VersionIs(version: string, cases: seq<CaseResult>) {
    && ((forall c :: c in cases ==> !Tagged(c)) ==> version == "disabled")
    && (forall k: nat :: FirstTagged(cases, k) ==> version == cases[k].measured.gate.version.value)
  }

  /** Everything in a report but the byte-sized peak, from its cases and from the parts of its hardware totals. */
  ghost predicate Describes(r: StrictResult, cases: seq<CaseResult>, parts: seq<Hardware>) {
    var n := |cases|;
    && n > 0 && r.cases == cases && r.caseCount == n
    && MeansOf(r.means, cases) && AddsUp(r.totals, parts)
    && r.generationMean * n as real == r.totals.generation && r.inferenceMean * n as real == r.totals.inference
    && r.wholeMean * n as real == r.totals.whole
    && (r.valid <==> forall c :: c in cases ==> !Fails(c)) && (r.promotable <==> r.valid)
    && r.failureCode == (if r.valid then None else Some("visual_collapse"))
    && r.failureCount == |r.failures| && FailuresAre(r.failures, cases)
    && (r.gateEnabled <==> exists c :: c in cases && c.measured.gate.enabled)
    && VersionIs(r.version, cases)
    && (r.continuation <==> forall c :: c in cases ==> c.measured.continuation)
  }

  /** One part for every case. */
  function PartsOf(cases: seq<CaseResult>): (parts: seq<Hardware>)
    ensures |parts| == |cases| && forall i :: 0 <= i < |cases| ==> parts[i] == PartOf(cases[i])
  {
    seq(|cases|, i requires 0 <= i < |cases| => PartOf(cases[i]))
  }

  lemma {:induction false} FailuresOfAre(cases: seq<CaseResult>)
    ensures FailuresAre(FailuresOf(cases), cases)
  {
    if cases != [] {
      FailuresOfAre(cases[1..]);
      if !GatePasses(cases[0]) {
        assert FailuresOf(cases)[1..] == FailuresOf(cases[1..]);
      }
    }
  }

  lemma {:induction false} VersionOfIs(cases: seq<CaseResult>)
    ensures VersionIs(VersionOf(cases), cases)
  {
    if cases != [] {
      VersionOfIs(cases[1..]);
      if !Tagged(cases[0]) {
        assert forall c :: c in cases[1..] ==> c in cases;
        forall k: nat | FirstTagged(cases, k) ensures k > 0 && FirstTagged(cases[1..], k - 1) {
        }
      } else {
        assert cases[0] in cases;
      }
    }
  }

  lemma MeanTimes(x: real, n: nat)
    requires n > 0
    ensures x / n as real * n as real == x
  {
  }

  lemma ScoreAddsUp(cases: seq<CaseResult>, values: seq<real>)
    requires |values| == |cases| && forall i :: 0 <= i < |cases| ==> values[i] == cases[i].measured.scores.score
    ensures Total(cases, ScoresOf, ScoreSum()).score == SumOf(values)
  {
    SumOfField(cases, ScoresOf, ScoreSum(), (s: Scores) => s.score, values);
  }

  lemma SemanticAddsUp(cases: seq<CaseResult>, values: seq<real>)
    requires |values| == |cases| && forall i :: 0 <= i < |cases| ==> values[i] == cases[i].measured.scores.semantic
    ensures Total(cases, ScoresOf, ScoreSum()).semantic == SumOf(values)
  {
    SumOfField(cases, ScoresOf, ScoreSum(), (s: Scores) => s.semantic, values);
  }

  lemma TemporalAddsUp(cases: seq<CaseResult>, values: seq<real>)
    requires |values| == |cases| && forall i :: 0 <= i < |cases| ==> values[i] == cases[i].measured.scores.temporal
    ensures Total(cases, ScoresOf, ScoreSum()).temporal == SumOf(values)
  {
    SumOfField(cases, ScoresOf, ScoreSum(), (s: Scores) => s.temporal, values);
  }

  lemma MotionAddsUp(cases: seq<CaseResult>, values: seq<real>)
    requires |values| == |cases| && forall i :: 0 <= i < |cases| ==> values[i] == cases[i].measured.scores.motion
    ensures Total(cases, ScoresOf, ScoreSum()).motion == SumOf(values)
  {
    SumOfField(cases, ScoresOf, ScoreSum(), (s: Scores) => s.motion, values);
  }

  lemma ScoresAddUp(cases: seq<CaseResult>)
    requires cases != []
    ensures MeansOf(Mean(Total(cases, ScoresOf, ScoreSum()), |cases|), cases)
  {
    hide Total, SumOf, ScoreSum;
    var n, t := |cases|, Total(cases, ScoresOf, ScoreSum());
    ScoreAddsUp(cases, seq(n, i requires 0 <= i < n => cases[i].measured.scores.score));
    SemanticAddsUp(cases, seq(n, i requires 0 <= i < n => cases[i].measured.scores.semantic));
    TemporalAddsUp(cases, seq(n, i requires 0 <= i < n => cases[i].measured.scores.temporal));
    MotionAddsUp(cases, seq(n, i requires 0 <= i < n => cases[i].measured.scores.motion));
    MeanTimes(t.score, n);
    MeanTimes(t.semantic, n);
    MeanTimes(t.temporal, n);
    MeanTimes(t.motion, n);
  }

  lemma {:induction false} PeakAddsUp<T>(xs: seq<T>, measure: T -> Hardware, parts: seq<Hardware>)
    requires |parts| == |xs| && forall i :: 0 <= i < |xs| ==> parts[i] == measure(xs[i])
    ensures IsPeak(Total(xs, measure, HardwareSum()).peakGb, parts)
  {
    if xs != [] {
      PeakAddsUp(xs[1..], measure, parts[1..]);
      assert Total(xs, measure, HardwareSum()).peakGb
          == Max(measure(xs[0]).peakGb, Total(xs[1..], measure, HardwareSum()).peakGb);
      PeakStep(Total(xs[1..], measure, HardwareSum()).peakGb, parts);
    }
  }

  lemma PeakStep(rest: NonNegative, parts: seq<Hardware>)
    requires parts != [] && IsPeak(rest, parts[1..])
    ensures IsPeak(Max(parts[0].peakGb, rest), parts)
  {
    forall i | 0 <= i < |parts| ensures parts[i].peakGb <= Max(parts[0].peakGb, rest) {
      if i > 0 { assert parts[1..][i - 1] == parts[i]; }
    }
    if |parts| > 1 && parts[0].peakGb < rest {
      var i :| 0 <= i < |parts[1..]| && parts[1..][i].peakGb == rest;
      assert parts[i + 1].peakGb == rest;
    } else {
      assert parts[0].peakGb == Max(parts[0].peakGb, rest);
    }
  }

  lemma GenerationAddUp<T>(xs: seq<T>, measure: T -> Hardware, values: seq<real>)
    requires |values| == |xs| && forall i :: 0 <= i < |xs| ==> values[i] == measure(xs[i]).generation
    ensures Total(xs, measure, HardwareSum()).generation == SumOf(values)
  {
    SumOfField(xs, measure, HardwareSum(), (h: Hardware) => h.generation, values);
  }

  lemma InferenceAddUp<T>(xs: seq<T>, measure: T -> Hardware, values: seq<real>)
    requires |values| == |xs| && forall i :: 0 <= i < |xs| ==> values[i] == measure(xs[i]).inference
    ensures Total(xs, measure, HardwareSum()).inference == SumOf(values)
  {
    SumOfField(xs, measure, HardwareSum(), (h: Hardware) => h.inference, values);
  }

  lemma IoAddUp<T>(xs: seq<T>, measure: T -> Hardware, values: seq<real>)
    requires |values| == |xs| && forall i :: 0 <= i < |xs| ==> values[i] == measure(xs[i]).io
    ensures Total(xs, measure, HardwareSum()).io == SumOf(values)
  {
    SumOfField(xs, measure, HardwareSum(), (h: Hardware) => h.io, values);
  }

  lemma QualityAddUp<T>(xs: seq<T>, measure: T -> Hardware, values: seq<real>)
    requires |values| == |xs| && forall i :: 0 <= i < |xs| ==> values[i] == measure(xs[i]).quality
    ensures Total(xs, measure, HardwareSum()).quality == SumOf(values)
  {
    SumOfField(xs, measure, HardwareSum(), (h: Hardware) => h.quality, values);
  }

  lemma WholeAddUp<T>(xs: seq<T>, measure: T -> Hardware, values: seq<real>)
    requires |values| == |xs| && forall i :: 0 <= i < |xs| ==> values[i] == measure(xs[i]).whole
    ensures Total(xs, measure, HardwareSum()).whole == SumOf(values)
  {
    SumOfField(xs, measure, HardwareSum(), (h: Hardware) => h.whole, values);
  }

  lemma StepsAddUp<T>(xs: seq<T>, measure: T -> Hardware, values: seq<real>)
    requires |values| == |xs| && forall i :: 0 <= i < |xs| ==> values[i] == measure(xs[i]).steps as real
    ensures Total(xs, measure, HardwareSum()).steps as real == SumOf(values)
  {
    SumOfField(xs, measure, HardwareSum(), (h: Hardware) => h.steps as real, values);
  }

  lemma TotalAddsUp<T>(xs: seq<T>, measure: T -> Hardware, parts: seq<Hardware>)
    requires |parts| == |xs| && forall i :: 0 <= i < |xs| ==> parts[i] == measure(xs[i])
    ensures AddsUp(Total(xs, measure, HardwareSum()), parts)
  {
    hide Total, SumOf, HardwareSum;
    var n := |parts|;
    PeakAddsUp(xs, measure, parts);
    GenerationAddUp(xs, measure, seq(n, i requires 0 <= i < n => parts[i].generation));
    InferenceAddUp(xs, measure, seq(n, i requires 0 <= i < n => parts[i].inference));
    IoAddUp(xs, measure, seq(n, i requires 0 <= i < n => parts[i].io));
    QualityAddUp(xs, measure, seq(n, i requires 0 <= i < n => parts[i].quality));
    WholeAddUp(xs, measure, seq(n, i requires 0 <= i < n => parts[i].whole));
    StepsAddUp(xs, measure, seq(n, i requires 0 <= i < n => parts[i].steps as real));
  }

  /** A report whose totals add up the given parts says what its cases say. */
  lemma ReportDescribes(cases: seq<CaseResult>, totals: Hardware, parts: seq<Hardware>, peak: Option<nat>)
    requires cases != [] && AddsUp(totals, parts)
    ensures Describes(Report(cases, totals, peak), cases, parts) && Report(cases, totals, peak).peakBytes == peak
  {
    hide MeansOf, AddsUp, FailuresAre, VersionIs, Mean, FailuresOf, VersionOf, Total, ScoresOf, ScoreSum;
    var n := |cases|;
    ScoresAddUp(cases);
    MeanTimes(totals.generation, n);
    MeanTimes(totals.inference, n);
    MeanTimes(totals.whole, n);
    FailuresOfAre(cases);
    VersionOfIs(cases);
    VerdictIs(cases, totals, peak);
  }

  lemma VerdictIs(cases: seq<CaseResult>, totals: Hardware, peak: Option<nat>)
    requires cases != []
    ensures var r := Report(cases, totals, peak);
            && (r.valid <==> forall c :: c in cases ==> !Fails(c)) && (r.promotable <==> r.valid)
            && r.failureCode == (if r.valid then None else Some("visual_collapse"))
            && (r.gateEnabled <==> exists c :: c in cases && c.measured.gate.enabled)
            && (r.continuation <==> forall c :: c in cases ==> c.measured.continuation)
  {
    VerdictMeans(cases, totals, peak);
    hide Total, ScoreSum, ScoresOf, FailuresOf, VersionOf, Mean;
    assert forall c :: GatePasses(c) <==> !Fails(c);
  }
}
