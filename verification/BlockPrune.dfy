/**
 Structured block pruning: choose the least important transformer blocks, renumber the others from zero, and
 rewrite the checkpoint's tensor names accordingly.
 */
module BlockPrune {
  import opened Wrappers
  import opened Arith
  import opened Decimal
  import opened Totals
  import opened Sorting
  import opened Tensors

  // ----- Tensor names

  /**
   The decimal digits of all scripts, each with its value: the name pattern and the number parser accept them all,
   and only the ASCII ones are written.
   */
  type Digits = digit: char -> Option<nat> | DecimalDigits(digit) witness AsciiDigit

  ghost predicate DecimalDigits(digit: char -> Option<nat>) {
    digit('.') == None && forall c :: IsAscii(c) ==> digit(c) == Some(c as int - '0' as int)
  }

  function AsciiDigit(c: char): Option<nat> {
    if IsAscii(c) then Some(c as int - '0' as int) else None
  }

  predicate AllDigits(digit: Digits, s: string) {
    forall i :: 0 <= i < |s| ==> digit(s[i]).Some?
  }

  /** The number a digit string denotes; leading zeros are allowed. */
  function ToNumber(digit: Digits, s: string): nat
    requires AllDigits(digit, s)
  {
    if s == [] then 0 else 10 * ToNumber(digit, s[..|s| - 1]) + digit(s[|s| - 1]).value
  }

  lemma {:induction false} NumberOfDecimal(digit: Digits, n: nat)
    ensures AllDigits(digit, ToDecimal(n)) && ToNumber(digit, ToDecimal(n)) == n
  {
    var s := ToDecimal(n);
    if n < 10 {
      assert s[..0] == [];
    } else {
      NumberOfDecimal(digit, n / 10);
      assert s[..|s| - 1] == ToDecimal(n / 10);
    }
  }

  function DigitCount(digit: Digits, s: string): (k: nat)
    ensures k <= |s| && AllDigits(digit, s[..k]) && (k < |s| ==> digit(s[k]) == None)
  {
    if s == [] || digit(s[0]).None? then 0
    else
      var k := DigitCount(digit, s[1..]);
      assert s[..k + 1] == [s[0]] + s[1..][..k];
      1 + k
  }

  const PREFIX: string := "blocks."

  datatype BlockKey = BlockKey(index: nat, suffix: string)

  /** What the end of the pattern accepts: some characters on one line, and one line end that it ignores. */
  predicate OneLine(s: string) {
    s != "" && '\n' !in s
  }

  function DropLineEnd(s: string): string {
    if s != "" && s[|s| - 1] == '\n' then s[..|s| - 1] else s
  }

  /** The part after the prefix: <digits>.<suffix>. */
  function ParseRest(digit: Digits, rest: string): Option<BlockKey> {
    var k := DigitCount(digit, rest);
    if k == 0 || k >= |rest| || rest[k] != '.' || !OneLine(DropLineEnd(rest[k + 1..])) then None
    else Some(BlockKey(ToNumber(digit, rest[..k]), DropLineEnd(rest[k + 1..])))
  }

  /** blocks.<digits>.<suffix>, or not the name of a block tensor. */
  function ParseKey(digit: Digits, name: string): Option<BlockKey> {
    if |name| < |PREFIX| || name[..|PREFIX|] != PREFIX then None else ParseRest(digit, name[|PREFIX|..])
  }

  function MakeKey(index: nat, suffix: string): string {
    PREFIX + ToDecimal(index) + "." + suffix
  }

  lemma DigitsStop(digit: Digits, digits: string, suffix: string)
    requires AllDigits(digit, digits)
    ensures DigitCount(digit, digits + "." + suffix) == |digits|
    decreases |digits|
  {
    if digits != [] {
      DigitsStop(digit, digits[1..], suffix);
      assert (digits + "." + suffix)[1..] == digits[1..] + "." + suffix;
    }
  }

  lemma ParseSpelled(digit: Digits, digits: string, suffix: string, ending: string)
    requires AllDigits(digit, digits) && digits != "" && OneLine(suffix) && ending in {suffix, suffix + "\n"}
    ensures ParseKey(digit, PREFIX + digits + "." + ending) == Some(BlockKey(ToNumber(digit, digits), suffix))
  {
    var name := PREFIX + digits + "." + ending;
    assert name[..|PREFIX|] == PREFIX;
    assert name[|PREFIX|..] == digits + "." + ending;
    RestSpelled(digit, digits, suffix, ending);
    hide ParseRest;
  }

  lemma RestSpelled(digit: Digits, digits: string, suffix: string, ending: string)
    requires AllDigits(digit, digits) && digits != "" && OneLine(suffix) && ending in {suffix, suffix + "\n"}
    ensures ParseRest(digit, digits + "." + ending) == Some(BlockKey(ToNumber(digit, digits), suffix))
  {
    hide ToNumber, DigitCount;
    var rest := digits + "." + ending;
    DigitsStop(digit, digits, ending);
    assert rest[..|digits|] == digits;
    assert rest[|digits| + 1..] == ending;
    assert suffix[|suffix| - 1] in suffix;
    assert (suffix + "\n")[..|suffix|] == suffix;
  }

  /** The names of block tensors, and what they say: digits, and a suffix that a line end may follow. */
  lemma ParsesIff(digit: Digits, name: string, key: BlockKey)
    ensures ParseKey(digit, name) == Some(key) <==>
            && key.suffix != "" && '\n' !in key.suffix
            && exists digits ::
                 && digits != "" && AllDigits(digit, digits) && ToNumber(digit, digits) == key.index
                 && (name == "blocks." + digits + "." + key.suffix
                     || name == "blocks." + digits + "." + (key.suffix + "\n"))
  {
    if ParseKey(digit, name) == Some(key) {
      var rest := name[|PREFIX|..];
      var k := DigitCount(digit, rest);
      var digits, ending := rest[..k], rest[k + 1..];
      assert name == PREFIX + digits + "." + ending;
      assert ending == key.suffix || ending == key.suffix + "\n";
      assert ToNumber(digit, digits) == key.index;
    }
    if key.suffix != "" && '\n' !in key.suffix {
      forall digits | digits != "" && AllDigits(digit, digits) && ToNumber(digit, digits) == key.index
        ensures ParseKey(digit, PREFIX + digits + "." + key.suffix) == Some(key)
        ensures ParseKey(digit, PREFIX + digits + "." + (key.suffix + "\n")) == Some(key)
      {
        ParseSpelled(digit, digits, key.suffix, key.suffix);
        ParseSpelled(digit, digits, key.suffix, key.suffix + "\n");
      }
    }
  }

  /** A rewritten name parses to what it was made from. */
  lemma ParseMade(digit: Digits, index: nat, suffix: string)
    requires OneLine(suffix)
    ensures ParseKey(digit, MakeKey(index, suffix)) == Some(BlockKey(index, suffix))
  {
    NumberOfDecimal(digit, index);
    ParseSpelled(digit, ToDecimal(index), suffix, suffix);
  }

  lemma MadeDistinct(i: nat, s: string, j: nat, t: string)
    requires OneLine(s) && OneLine(t)
    ensures MakeKey(i, s) == MakeKey(j, t) <==> i == j && s == t
  {
    ParseMade(AsciiDigit, i, s);
    ParseMade(AsciiDigit, j, t);
  }

  // ----- Choosing the blocks

  function Ceil(x: real): int {
    -((-x).Floor)
  }

  function Min(a: int, b: int): int { if a < b then a else b }
  function Max(a: int, b: int): int { if a < b then b else a }

  function RemoveCount(layers: int, ratio: real): int {
    Min(layers - 1, Max(1, Ceil(layers as real * ratio)))
  }

  /** At least one block goes and one stays; otherwise it is the least count that reaches the ratio. */
  lemma RemoveCountBounds(layers: int, ratio: real)
    requires layers >= 2
    ensures 1 <= RemoveCount(layers, ratio) <= layers - 1
    ensures RemoveCount(layers, ratio) < layers - 1 ==> layers as real * ratio <= RemoveCount(layers, ratio) as real
    ensures RemoveCount(layers, ratio) > 1 ==> (RemoveCount(layers, ratio) - 1) as real < layers as real * ratio
  {
  }

  /** The order of the sort key: score, then index. */
  predicate Before(scores: nat -> real, i: nat, j: nat) {
    scores(i) < scores(j) || (scores(i) == scores(j) && i <= j)
  }

  function ByScore(scores: nat -> real): (nat, nat) -> bool {
    (i: nat, j: nat) => Before(scores, i, j)
  }

  lemma ScoresOrder(scores: nat -> real, s: seq<nat>)
    ensures Sorted(Sort(s, ByScore(scores)), ByScore(scores))
  {
    assert Ordering(ByScore(scores));
    SortSorts(s, ByScore(scores));
  }

  function Range(n: nat): (r: seq<nat>)
    ensures |r| == n && forall i :: 0 <= i < n ==> r[i] == i
  {
    seq(n, i requires 0 <= i < n => i)
  }

  /** The layers that are not removed, in increasing order. */
  function Keep(s: seq<nat>, removed: set<nat>): (r: seq<nat>)
    ensures forall x :: x in r <==> x in s && x !in removed
  {
    if s == [] then []
    else if s[0] in removed then Keep(s[1..], removed)
    else [s[0]] + Keep(s[1..], removed)
  }

  ghost predicate Increasing(s: seq<nat>) {
    forall i, j :: 0 <= i < j < |s| ==> s[i] < s[j]
  }

  lemma {:induction false} KeepIncreasing(s: seq<nat>, removed: set<nat>)
    requires Increasing(s)
    ensures Increasing(Keep(s, removed))
  {
    if s != [] {
      KeepIncreasing(s[1..], removed);
      var rest := Keep(s[1..], removed);
      forall j | 0 <= j < |rest| ensures s[0] < rest[j] {
        assert rest[j] in rest;
        var k :| 0 <= k < |s[1..]| && s[1..][k] == rest[j];
        assert s[k + 1] == rest[j];
      }
    }
  }

  datatype Plan = Plan(layers: nat, removed: seq<nat>, kept: seq<nat>)

  function MakePlan(layers: nat, ratio: real, scores: nat -> real): Plan
    requires layers >= 2
  {
    RemoveCountBounds(layers, ratio);
    var removed := Sort(Range(layers), ByScore(scores))[..RemoveCount(layers, ratio)];
    Plan(layers, removed, Keep(Range(layers), Elements(removed)))
  }

  ghost predicate Distinct(s: seq<nat>) {
    forall i, j :: 0 <= i < j < |s| ==> s[i] != s[j]
  }

  ghost predicate CoversRange(s: seq<nat>, n: nat) {
    forall x: nat :: x in s <==> x < n
  }

  lemma {:induction false} RangeOnce(n: nat, x: nat)
    ensures multiset(Range(n))[x] <= 1
  {
    if n > 0 {
      RangeOnce(n - 1, x);
      assert Range(n) == Range(n - 1) + [n - 1];
      if x == n - 1 { assert x !in Range(n - 1); }
    }
  }

  lemma SortedIsRange(sorted: seq<nat>, layers: nat)
    requires multiset(sorted) == multiset(Range(layers))
    ensures CoversRange(sorted, layers) && Distinct(sorted)
  {
    forall x: nat ensures x in sorted <==> x < layers {
      assert x in sorted <==> x in multiset(sorted);
      assert x in Range(layers) <==> x in multiset(Range(layers));
      if x < layers { assert Range(layers)[x] == x; }
    }
    forall i, j | 0 <= i < j < |sorted| ensures sorted[i] != sorted[j] {
      if sorted[i] == sorted[j] {
        var x := sorted[i];
        var head, tail := sorted[..j], sorted[j..];
        assert sorted == head + tail && head[i] == x && tail[0] == x;
        assert multiset(sorted)[x] >= 2;
        RangeOnce(layers, x);
      }
    }
  }

  function Elements(s: seq<nat>): set<nat> {
    set x | x in s
  }

  lemma {:induction false} ElementCount(s: seq<nat>)
    requires Distinct(s)
    ensures |Elements(s)| == |s|
  {
    if s == [] {
      assert Elements(s) == {};
    } else {
      var front, last := s[..|s| - 1], s[|s| - 1];
      assert s == front + [last];
      ElementCount(front);
      assert Elements(s) == Elements(front) + {last};
      assert last !in Elements(front);
    }
  }

  /** Cutting a list of distinct entries in two cuts its elements in two. */
  lemma CutIsPartition(sorted: seq<nat>, n: nat)
    requires Distinct(sorted) && n <= |sorted|
    ensures Elements(sorted[..n]) !! Elements(sorted[n..])
    ensures Elements(sorted) == Elements(sorted[..n]) + Elements(sorted[n..])
  {
    var front, rest := sorted[..n], sorted[n..];
    assert sorted == front + rest;
    forall i, j | 0 <= i < |front| && 0 <= j < |rest| ensures front[i] != rest[j] {
      assert front[i] == sorted[i] && rest[j] == sorted[n + j];
    }
  }

  lemma KeptIsRest(layers: nat, sorted: seq<nat>, n: nat)
    requires Distinct(sorted) && CoversRange(sorted, layers) && n <= |sorted| == layers
    ensures var kept := Keep(Range(layers), Elements(sorted[..n]));
            Increasing(kept) && Elements(kept) == Elements(sorted[n..]) && |kept| == layers - n
  {
    var kept := Keep(Range(layers), Elements(sorted[..n]));
    KeepIncreasing(Range(layers), Elements(sorted[..n]));
    CutIsPartition(sorted, n);
    forall x: nat ensures x in kept <==> x in sorted[n..] {
      assert x in Range(layers) <==> x < layers by {
        if x < layers { assert Range(layers)[x] == x; }
      }
      assert x in sorted <==> x in Elements(sorted);
      assert x in sorted[..n] <==> x in Elements(sorted[..n]);
      assert x in sorted[n..] <==> x in Elements(sorted[n..]);
    }
    assert Elements(kept) == Elements(sorted[n..]);
    ElementCount(kept);
    ElementCount(sorted[n..]);
  }

  ghost predicate Selects(p: Plan, scores: nat -> real) {
    && |p.kept| + |p.removed| == p.layers && Distinct(p.removed) && Increasing(p.kept)
    && (forall x: nat :: x < p.layers <==> x in p.removed || x in p.kept)
    && (forall x: nat :: !(x in p.removed && x in p.kept))
    && (forall x, y :: x in p.removed && y in p.kept ==> scores(x) < scores(y) || (scores(x) == scores(y) && x < y))
  }

  /** Removed and kept blocks are disjoint and make up the range, and every removed one sorts before every kept one. */
  lemma LeastAreRemoved(layers: nat, ratio: real, scores: nat -> real)
    requires layers >= 2
    ensures var p := MakePlan(layers, ratio, scores);
            1 <= |p.removed| == RemoveCount(layers, ratio) <= layers - 1 && p.layers == layers && Selects(p, scores)
  {
    hide Before, RemoveCount, Keep;
    var sorted, n := Sort(Range(layers), ByScore(scores)), RemoveCount(layers, ratio);
    RemoveCountBounds(layers, ratio);
    ScoresOrder(scores, Range(layers));
    SortedIsRange(sorted, layers);
    hide Sort, Range;
    FirstAreSelected(layers, sorted, n, scores);
  }

  lemma FirstAreSelected(layers: nat, sorted: seq<nat>, n: nat, scores: nat -> real)
    requires Sorted(sorted, ByScore(scores)) && Distinct(sorted) && CoversRange(sorted, layers)
    requires n <= |sorted| == layers
    ensures Selects(Plan(layers, sorted[..n], Keep(Range(layers), Elements(sorted[..n]))), scores)
  {
    hide Before, Keep, Range, ByScore, Sorted, Distinct;
    KeptIsRest(layers, sorted, n);
    CutIsPartition(sorted, n);
    assert Distinct(sorted[..n]) by { hide *; FrontIsDistinct(sorted, n); }
    var removed, kept := sorted[..n], Keep(Range(layers), Elements(sorted[..n]));
    forall x: nat ensures x < layers <==> x in removed || x in kept
                  ensures !(x in removed && x in kept)
    {
      assert x < layers <==> x in Elements(sorted);
      assert x in removed <==> x in Elements(removed);
      assert x in kept <==> x in Elements(kept);
    }
    forall x, y | x in removed && y in kept
      ensures scores(x) < scores(y) || (scores(x) == scores(y) && x < y)
    {
      assert y in Elements(sorted[n..]);
      FrontBeforeRest(scores, sorted, n, x, y);
    }
  }

  lemma FrontIsDistinct(s: seq<nat>, n: nat)
    requires Distinct(s) && n <= |s|
    ensures Distinct(s[..n])
  {
  }

  lemma FrontBeforeRest(scores: nat -> real, sorted: seq<nat>, n: nat, x: nat, y: nat)
    requires Sorted(sorted, ByScore(scores)) && n <= |sorted| && x in sorted[..n] && y in sorted[n..]
    ensures scores(x) < scores(y) || (scores(x) == scores(y) && x <= y)
  {
    var i :| 0 <= i < |sorted[..n]| && sorted[..n][i] == x;
    var j :| 0 <= j < |sorted[n..]| && sorted[n..][j] == y;
    assert ByScore(scores)(sorted[i], sorted[n + j]);
  }

  /** The new number of a kept block: its position among the kept ones. */
  function Position(s: seq<nat>, x: nat): (k: nat)
    requires x in s
    ensures k < |s| && s[k] == x
  {
    if s[0] == x then 0 else 1 + Position(s[1..], x)
  }

  lemma IncreasingAt(s: seq<nat>, i: nat, j: nat)
    requires Increasing(s) && i < |s| && j < |s|
    ensures s[i] < s[j] <==> i < j
  {
    assert j < i ==> s[j] < s[i];
  }

  /** Renumbering is the increasing bijection from the kept blocks onto zero to their count. */
  lemma RenumberingIsBijection(p: Plan, scores: nat -> real)
    requires Selects(p, scores)
    ensures forall x, y :: x in p.kept && y in p.kept ==> (x < y <==> Position(p.kept, x) < Position(p.kept, y))
    ensures forall k :: 0 <= k < |p.kept| ==> p.kept[k] in p.kept && Position(p.kept, p.kept[k]) == k
  {
    forall x, y | x in p.kept && y in p.kept ensures x < y <==> Position(p.kept, x) < Position(p.kept, y) {
      IncreasingAt(p.kept, Position(p.kept, x), Position(p.kept, y));
    }
    forall k | 0 <= k < |p.kept| ensures Position(p.kept, p.kept[k]) == k {
      IncreasingAt(p.kept, Position(p.kept, p.kept[k]), k);
    }
  }

  // ----- Rewriting the checkpoint

  type Weights = seq<Scalar>

  /** A state dictionary: names in file order, each with its tensor. */
  datatype StateDict = StateDict(names: seq<string>, tensors: map<string, Weights>) {
    ghost predicate Valid() {
      && (forall i, j :: 0 <= i < j < |names| ==> names[i] != names[j])
      && (forall name :: name in names <==> name in tensors)
    }

    /** Assigning to an existing name replaces its tensor in place. */
    function Put(name: string, t: Weights): StateDict {
      StateDict(if name in tensors then names else names + [name], tensors[name := t])
    }
  }

  const EMPTY: StateDict := StateDict([], map[])

  /** The name of a parent tensor in the child; None when its block is removed. */
  function ChildName(digit: Digits, name: string, p: Plan): Option<string> {
    match ParseKey(digit, name)
    case None => Some(name)
    case Some(key) =>
      if key.index in p.removed then None
      else if key.index in p.kept then Some(MakeKey(Position(p.kept, key.index), key.suffix))
      else None
  }

  /** What a parent tensor is called in the child: block k of the child is the k-th kept block of the parent. */
  lemma ChildNameIs(digit: Digits, name: string, p: Plan, scores: nat -> real)
    requires Selects(p, scores)
    ensures var key, renamed := ParseKey(digit, name), ChildName(digit, name, p);
            && (key.None? ==> renamed == Some(name))
            && (key.Some? && key.value.index !in p.kept ==> renamed == None)
            && (forall k: nat :: key.Some? && k < |p.kept| && p.kept[k] == key.value.index ==>
                  renamed == Some("blocks." + ToDecimal(k) + "." + key.value.suffix))
  {
    hide ParseKey;
    var key := ParseKey(digit, name);
    forall k: nat | key.Some? && k < |p.kept| && p.kept[k] == key.value.index
      ensures ChildName(digit, name, p) == Some("blocks." + ToDecimal(k) + "." + key.value.suffix)
    {
      assert p.kept[k] in p.kept;
      IncreasingAt(p.kept, Position(p.kept, p.kept[k]), k);
      IncreasingAt(p.kept, k, Position(p.kept, p.kept[k]));
    }
  }

  /** The child built from the first n names of the parent. */
  function Rewrite(digit: Digits, parent: StateDict, p: Plan, n: nat): StateDict
    requires parent.Valid() && n <= |parent.names|
  {
    if n == 0 then EMPTY
    else
      var child, name := Rewrite(digit, parent, p, n - 1), parent.names[n - 1];
      match ChildName(digit, name, p)
      case None => child
      case Some(renamed) => child.Put(renamed, parent.tensors[name])
  }

  function IndicesOf(digit: Digits, names: seq<string>): set<nat> {
    set i | 0 <= i < |names| && ParseKey(digit, names[i]).Some? :: ParseKey(digit, names[i]).value.index
  }

  datatype PruneError = BadRatio | TooFewBlocks | IndicesDoNotMatch | NoImportance | ImportanceNotFinite

  // ----- Importance

  const SUFFIXES: seq<string> :=
    ["adaln_proj.linear.bias", "norm1.weight", "norm2.weight", "attn.q_norm.weight", "attn.k_norm.weight"]

  /** The sum of the absolute values; None when one of them is not finite. */
  function SumOfMagnitudes(w: Weights): (r: Option<real>)
    ensures r.Some? ==> r.value >= 0.0
  {
    if w == [] then Some(0.0)
    else
      match SumOfMagnitudes(w[..|w| - 1])
      case None => None
      case Some(sum) => if w[|w| - 1].Finite? then Some(sum + Magnitude(w[|w| - 1].value)) else None
  }

  /** The mean of the absolute values; it is not finite for an empty tensor either. */
  function MeanMagnitude(w: Weights): (r: Option<real>)
    ensures r.Some? ==> r.value >= 0.0
  {
    if w == [] || SumOfMagnitudes(w).None? then None else Some(SumOfMagnitudes(w).value / |w| as real)
  }

  /** The number and the sum of the mean magnitudes of a block's first n importance tensors. */
  function Magnitudes(parent: StateDict, index: nat, n: nat): (r: Option<(nat, real)>)
    requires n <= |SUFFIXES|
    ensures r.Some? ==> r.value.1 >= 0.0
  {
    if n == 0 then Some((0, 0.0))
    else
      var name := MakeKey(index, SUFFIXES[n - 1]);
      match Magnitudes(parent, index, n - 1)
      case None => None
      case Some((count, sum)) =>
        if name !in parent.tensors then Some((count, sum))
        else
          match MeanMagnitude(parent.tensors[name])
          case None => None
          case Some(mean) => Some((count + 1, sum + mean))
  }

  /** The importance tensors are looked up by their canonical names. */
  function Importance(parent: StateDict, index: nat): (r: Result<real, PruneError>)
    ensures r.Ok? ==> r.value >= 0.0
  {
    match Magnitudes(parent, index, |SUFFIXES|)
    case None => Err(ImportanceNotFinite)
    case Some((count, sum)) => if count == 0 then Err(NoImportance) else Ok(sum / count as real)
  }

  ghost predicate AllReal(w: Weights) {
    forall x :: x in w ==> x != NonFinite
  }

  function Absolute(x: real): real {
    if x >= 0.0 then x else 0.0 - x
  }

  /** The absolute values of a finite tensor. */
  function Absolutes(w: Weights): (v: seq<real>)
    requires AllReal(w)
    ensures |v| == |w| && forall i :: 0 <= i < |w| ==> w[i].Finite? && v[i] == Absolute(w[i].value)
  {
    assert forall i :: 0 <= i < |w| ==> w[i] in w;
    seq(|w|, i requires 0 <= i < |w| => Absolute(w[i].value))
  }

  lemma {:induction false} SumOfMagnitudesIs(w: Weights)
    ensures SumOfMagnitudes(w).Some? <==> AllReal(w)
    ensures AllReal(w) ==> SumOfMagnitudes(w) == Some(SumOf(Absolutes(w)))
  {
    if w != [] {
      var n := |w| - 1;
      SumOfMagnitudesIs(w[..n]);
      assert w == w[..n] + [w[n]];
      if AllReal(w) {
        assert w[n] in w && forall x :: x in w[..n] ==> x in w;
        SumOfLast(Absolutes(w));
        assert Absolutes(w)[..n] == Absolutes(w[..n]);
      }
    }
  }

  /** A tensor's magnitude is the mean of its absolute values, where it has values and all are finite. */
  lemma MeanMagnitudeIs(w: Weights)
    ensures MeanMagnitude(w).Some? <==> w != [] && AllReal(w)
    ensures MeanMagnitude(w).Some? ==> MeanMagnitude(w).value * |w| as real == SumOf(Absolutes(w))
  {
    SumOfMagnitudesIs(w);
    if w != [] && AllReal(w) {
      QuotientTimes(SumOf(Absolutes(w)), |w|);
    }
  }

  /** The importance tensors that a block has, in order of their suffixes. */
  function ImportanceTensors(parent: StateDict, index: nat, n: nat): seq<Weights>
    requires n <= 5
  {
    if n == 0 then []
    else
      var suffix := ["adaln_proj.linear.bias", "norm1.weight", "norm2.weight", "attn.q_norm.weight",
                     "attn.k_norm.weight"][n - 1];
      var name := "blocks." + ToDecimal(index) + "." + suffix;
      ImportanceTensors(parent, index, n - 1) + if name in parent.tensors then [parent.tensors[name]] else []
  }

  ghost predicate Measurable(w: Weights) {
    w != [] && AllReal(w)
  }

  predicate IsMean(x: real, n: nat, sum: real) {
    x * n as real == sum
  }

  /** Values that are the mean magnitudes of tensors. */
  ghost predicate MeansOf(v: seq<real>, tensors: seq<Weights>) {
    |v| == |tensors| && forall i :: 0 <= i < |v| ==> MeanMagnitude(tensors[i]) == Some(v[i])
  }

  lemma {:induction false} MagnitudesAre(parent: StateDict, index: nat, n: nat) returns (v: seq<real>)
    requires n <= 5
    ensures var tensors := ImportanceTensors(parent, index, n);
            && (Magnitudes(parent, index, n).Some? <==> forall w :: w in tensors ==> Measurable(w))
            && (Magnitudes(parent, index, n).Some? ==>
                  MeansOf(v, tensors) && Magnitudes(parent, index, n) == Some((|tensors|, SumOf(v))))
  {
    if n == 0 {
      v := [];
    } else {
      var before := MagnitudesAre(parent, index, n - 1);
      v := before;
      var name, tensors := MakeKey(index, SUFFIXES[n - 1]), ImportanceTensors(parent, index, n - 1);
      assert name == "blocks." + ToDecimal(index) + "." + SUFFIXES[n - 1];
      if name in parent.tensors {
        var w := parent.tensors[name];
        assert ImportanceTensors(parent, index, n) == tensors + [w];
        MeanMagnitudeIs(w);
        if Magnitudes(parent, index, n).Some? {
          v := before + [MeanMagnitude(w).value];
          SumOfLast(v);
          assert v[..|before|] == before;
        }
        assert w in tensors + [w] && forall x :: x in tensors + [w] <==> x in tensors || x == w;
      } else {
        assert ImportanceTensors(parent, index, n) == tensors;
      }
    }
  }

  /**
   A block's importance is the mean of the mean magnitudes of its importance tensors,
     and cannot be computed exactly when
   there is none or one of them is empty or not finite.
   */
  lemma ImportanceIs(parent: StateDict, index: nat) returns (v: seq<real>)
    ensures var tensors, r := ImportanceTensors(parent, index, 5), Importance(parent, index);
            && (r.Ok? <==> tensors != [] && forall w :: w in tensors ==> Measurable(w))
            && (r.Ok? ==> MeansOf(v, tensors) && IsMean(r.value, |tensors|, SumOf(v)))
            && (r == Err(ImportanceNotFinite) <==> exists w :: w in tensors && !Measurable(w))
            && (r == Err(NoImportance) <==> tensors == [])
  {
    v := MagnitudesAre(parent, index, 5);
    ImportanceCases(parent, index);
    hide Importance, Magnitudes, ImportanceTensors, Measurable, MeansOf, SumOf, IsMean;
    var tensors := ImportanceTensors(parent, index, 5);
    assert tensors != [] ==> tensors[0] in tensors;
  }

  lemma ImportanceCases(parent: StateDict, index: nat)
    ensures match Magnitudes(parent, index, 5)
            case None => Importance(parent, index) == Err(ImportanceNotFinite)
            case Some((count, sum)) =>
              if count == 0 then Importance(parent, index) == Err(NoImportance)
              else Importance(parent, index).Ok? && IsMean(Importance(parent, index).value, count, sum)
  {
    hide Magnitudes;
    var m := Magnitudes(parent, index, 5);
    if m.Some? && m.value.0 > 0 { QuotientTimes(m.value.1, m.value.0); }
  }

  lemma QuotientTimes(x: real, n: nat)
    requires n > 0
    ensures x / n as real * n as real == x
  {
  }

  /** The first of n blocks whose importance cannot be computed. */
  function FirstFailure(parent: StateDict, n: nat): Option<PruneError> {
    if n == 0 then None
    else
      match FirstFailure(parent, n - 1)
      case Some(e) => Some(e)
      case None => match Importance(parent, n - 1) case Ok(_) => None case Err(e) => Some(e)
  }

  function ScoresOf(parent: StateDict): nat -> real {
    (i: nat) => match Importance(parent, i) case Ok(score) => score case Err(_) => 0.0
  }

  /** The child's tensors, its layer count, and the plan that made them. */
  datatype Pruned = Pruned(child: StateDict, layers: nat, plan: Plan)

  function Prune(digit: Digits, parent: StateDict, layers: int, ratio: real): Result<Pruned, PruneError>
    requires parent.Valid()
  {
    if !(0.01 <= ratio <= 0.8) then Err(BadRatio)
    else if layers <= 1 then Err(TooFewBlocks)
    else if IndicesOf(digit, parent.names) != Elements(Range(layers)) then Err(IndicesDoNotMatch)
    else if FirstFailure(parent, layers).Some? then Err(FirstFailure(parent, layers).value)
    else
      var p := MakePlan(layers, ratio, ScoresOf(parent));
      Ok(Pruned(Rewrite(digit, parent, p, |parent.names|), |p.kept|, p))
  }

  lemma {:induction false} FirstFailureIs(parent: StateDict, n: nat)
    ensures FirstFailure(parent, n) == None <==> forall i: nat :: i < n ==> Importance(parent, i).Ok?
    ensures FirstFailure(parent, n).Some? ==>
              exists i: nat :: i < n && Importance(parent, i) == Err(FirstFailure(parent, n).value)
                               && forall j: nat :: j < i ==> Importance(parent, j).Ok?
  {
    if n > 0 { FirstFailureIs(parent, n - 1); }
  }

  /** What a parent needs to be pruned: a ratio in range, at least two blocks, numbered from zero, and importances. */
  lemma PrunesIff(digit: Digits, parent: StateDict, layers: int, ratio: real)
    requires parent.Valid()
    ensures var r := Prune(digit, parent, layers, ratio);
            && (r.Ok? <==>
                  && 0.01 <= ratio <= 0.8 && layers >= 2
                  && (forall x: nat :: x < layers <==> x in IndicesOf(digit, parent.names))
                  && (forall i: nat :: i < layers ==> Importance(parent, i).Ok?))
            && (r == Err(BadRatio) <==> ratio < 0.01 || ratio > 0.8)
            && (r == Err(NoImportance) || r == Err(ImportanceNotFinite) ==>
                  exists i: nat :: i < layers && Importance(parent, i).Err? && r == Err(Importance(parent, i).error)
                                   && forall j: nat :: j < i ==> Importance(parent, j).Ok?)
  {
    if layers >= 2 {
      hide Importance, IndicesOf, MakePlan, Rewrite;
      FirstFailureIs(parent, layers);
      forall x: nat ensures x in Elements(Range(layers)) <==> x < layers {
        if x < layers { assert Range(layers)[x] == x; }
      }
      hide FirstFailure;
      SameIndices(IndicesOf(digit, parent.names), layers);
    }
  }

  lemma SameIndices(indices: set<nat>, n: nat)
    ensures indices == Elements(Range(n)) <==> forall x: nat :: x < n <==> x in indices
  {
    forall x: nat ensures x in Elements(Range(n)) <==> x < n {
      if x < n { assert Range(n)[x] == x; }
    }
  }

  /** The loop that fills the child's state dictionary. */
  method RewriteState(digit: Digits, parent: StateDict, p: Plan) returns (child: StateDict)
    requires parent.Valid()
    ensures child == Rewrite(digit, parent, p, |parent.names|)
  {
    child := EMPTY;
    for n := 0 to |parent.names|
      invariant child == Rewrite(digit, parent, p, n)
    {
      var name := parent.names[n];
      match ParseKey(digit, name) {
        case None => child := child.Put(name, parent.tensors[name]);
        case Some(key) =>
          if key.index in p.removed {
            continue;
          }
          if key.index in p.kept {
            child := child.Put(MakeKey(Position(p.kept, key.index), key.suffix), parent.tensors[name]);
          }
      }
    }
  }

  /** The whole operator: checks, choice, rewriting. */
  method PruneBlocks(digit: Digits, parent: StateDict, layers: int, ratio: real) returns (r: Result<Pruned, PruneError>)
    requires parent.Valid()
    ensures r == Prune(digit, parent, layers, ratio)
  {
    if !(0.01 <= ratio <= 0.8) {
      return Err(BadRatio);
    }
    if layers <= 1 {
      return Err(TooFewBlocks);
    }
    if IndicesOf(digit, parent.names) != Elements(Range(layers)) {
      return Err(IndicesDoNotMatch);
    }
    if FirstFailure(parent, layers).Some? {
      return Err(FirstFailure(parent, layers).value);
    }
    var p := MakePlan(layers, ratio, ScoresOf(parent));
    var child := RewriteState(digit, parent, p);
    r := Ok(Pruned(child, |p.kept|, p));
  }

  // ----- What the rewriting keeps

  lemma SuffixNotEmpty(digit: Digits, name: string)
    ensures ParseKey(digit, name).Some? ==> OneLine(ParseKey(digit, name).value.suffix)
  {
  }

  /** Two surviving names meet in one child name exactly when they are block names of one index and suffix. */
  lemma NamesMeetIff(digit: Digits, a: string, b: string, p: Plan, scores: nat -> real)
    requires Selects(p, scores) && ChildName(digit, a, p).Some? && ChildName(digit, b, p).Some?
    ensures ChildName(digit, a, p) == ChildName(digit, b, p)
            <==> a == b || (ParseKey(digit, a).Some? && ParseKey(digit, a) == ParseKey(digit, b))
  {
    SuffixNotEmpty(digit, a);
    SuffixNotEmpty(digit, b);
    var x, y := ParseKey(digit, a), ParseKey(digit, b);
    if x.Some? {
      ParseMade(digit, Position(p.kept, x.value.index), x.value.suffix);
    }
    if y.Some? {
      ParseMade(digit, Position(p.kept, y.value.index), y.value.suffix);
    }
    if x.Some? && y.Some? {
      MadeDistinct(Position(p.kept, x.value.index), x.value.suffix, Position(p.kept, y.value.index), y.value.suffix);
    }
  }

  /** No two surviving block names share their index and suffix (as 01 and 1 would). */
  ghost predicate NoClash(digit: Digits, parent: StateDict, p: Plan) {
    forall a, b :: a in parent.names && b in parent.names && a != b
                   && ChildName(digit, a, p).Some? && ChildName(digit, b, p).Some? ==>
      !(ParseKey(digit, a).Some? && ParseKey(digit, a) == ParseKey(digit, b))
  }

  predicate Canonical(digit: Digits, name: string) {
    ParseKey(digit, name).Some? ==>
      name == MakeKey(ParseKey(digit, name).value.index, ParseKey(digit, name).value.suffix)
  }

  /** Canonically written indices never clash. */
  lemma CanonicalNeverClash(digit: Digits, parent: StateDict, p: Plan)
    requires forall name :: name in parent.names ==> Canonical(digit, name)
    ensures NoClash(digit, parent, p)
  {
  }

  ghost predicate Survives(digit: Digits, parent: StateDict, p: Plan, n: nat, name: string)
    requires n <= |parent.names|
  {
    name in parent.names[..n] && ChildName(digit, name, p).Some?
  }

  /** The child's names so far, clash or not. */
  ghost predicate NamesAre(digit: Digits, parent: StateDict, p: Plan, n: nat, child: StateDict)
    requires n <= |parent.names|
  {
    && child.Valid()
    && (forall name :: Survives(digit, parent, p, n, name) ==> ChildName(digit, name, p).value in child.tensors)
    && (forall renamed :: renamed in child.tensors ==>
          exists name :: Survives(digit, parent, p, n, name) && ChildName(digit, name, p) == Some(renamed))
  }

  lemma SurvivesStep(digit: Digits, parent: StateDict, p: Plan, n: nat, name: string)
    requires 0 < n <= |parent.names|
    ensures Survives(digit, parent, p, n, name) <==>
            Survives(digit, parent, p, n - 1, name) || (name == parent.names[n - 1] && ChildName(digit, name, p).Some?)
  {
    assert parent.names[..n] == parent.names[..n - 1] + [parent.names[n - 1]];
  }

  lemma {:induction false} RewriteNames(digit: Digits, parent: StateDict, p: Plan, n: nat)
    requires parent.Valid() && n <= |parent.names|
    ensures NamesAre(digit, parent, p, n, Rewrite(digit, parent, p, n))
  {
    hide ChildName, Survives, NamesAre, Rewrite, Turn, StateDict.Valid;
    if n == 0 {
      NothingRewritten(digit, parent, p);
    } else {
      RewriteNames(digit, parent, p, n - 1);
      NamesStep(digit, parent, p, n, Rewrite(digit, parent, p, n - 1));
      RewriteTurn(digit, parent, p, n);
    }
  }

  lemma NothingRewritten(digit: Digits, parent: StateDict, p: Plan)
    requires parent.Valid()
    ensures NamesAre(digit, parent, p, 0, Rewrite(digit, parent, p, 0))
  {
    assert parent.names[..0] == [];
  }

  lemma NamesStep(digit: Digits, parent: StateDict, p: Plan, n: nat, child: StateDict)
    requires parent.Valid() && 0 < n <= |parent.names| && NamesAre(digit, parent, p, n - 1, child)
    ensures NamesAre(digit, parent, p, n, Turn(digit, parent, p, n, child))
  {
    hide ChildName, Survives;
    var name := parent.names[n - 1];
    forall other ensures Survives(digit, parent, p, n, other) <==>
                         Survives(digit, parent, p, n - 1, other) || (other == name && ChildName(digit, other, p).Some?)
    {
      SurvivesStep(digit, parent, p, n, other);
    }
  }

  /** The n-th name takes a child name that none before it took. */
  ghost predicate TakesFresh(digit: Digits, parent: StateDict, p: Plan, n: nat)
    requires 0 < n <= |parent.names|
  {
    ChildName(digit, parent.names[n - 1], p).Some? ==>
      forall other :: Survives(digit, parent, p, n - 1, other) ==>
        ChildName(digit, other, p) != ChildName(digit, parent.names[n - 1], p)
  }

  lemma NoClashTakesFresh(digit: Digits, parent: StateDict, p: Plan, scores: nat -> real, n: nat)
    requires parent.Valid() && 0 < n <= |parent.names| && Selects(p, scores) && NoClash(digit, parent, p)
    ensures TakesFresh(digit, parent, p, n)
  {
    hide ChildName;
    var name := parent.names[n - 1];
    if ChildName(digit, name, p).Some? {
      forall other | Survives(digit, parent, p, n - 1, other)
        ensures ChildName(digit, other, p) != ChildName(digit, name, p)
      {
        var i :| 0 <= i < n - 1 && parent.names[i] == other;
        assert other in parent.names && name in parent.names;
        NamesMeetIff(digit, other, name, p, scores);
      }
    }
  }

  /** Every surviving tensor is in the child under its new name, unchanged. */
  ghost predicate TensorsKept(digit: Digits, parent: StateDict, p: Plan, n: nat, child: StateDict)
    requires n <= |parent.names| && parent.Valid()
  {
    forall name :: Survives(digit, parent, p, n, name) ==>
      && ChildName(digit, name, p).value in child.tensors
      && name in parent.tensors
      && child.tensors[ChildName(digit, name, p).value] == parent.tensors[name]
  }

  lemma {:induction false} RewriteKeepsTensors(digit: Digits, parent: StateDict, p: Plan, scores: nat -> real, n: nat)
    requires parent.Valid() && n <= |parent.names| && Selects(p, scores) && NoClash(digit, parent, p)
    ensures TensorsKept(digit, parent, p, n, Rewrite(digit, parent, p, n))
  {
    if n > 0 {
      hide *;
      RewriteKeepsTensors(digit, parent, p, scores, n - 1);
      NoClashTakesFresh(digit, parent, p, scores, n);
      RewriteTurn(digit, parent, p, n);
      TurnKeepsTensors(digit, parent, p, n, Rewrite(digit, parent, p, n - 1));
    } else {
      hide *;
      NothingToKeep(digit, parent, p);
    }
  }

  lemma NothingToKeep(digit: Digits, parent: StateDict, p: Plan)
    requires parent.Valid()
    ensures TensorsKept(digit, parent, p, 0, Rewrite(digit, parent, p, 0))
  {
    assert parent.names[..0] == [];
    hide ChildName;
  }

  lemma TurnKeepsTensors(digit: Digits, parent: StateDict, p: Plan, n: nat, child: StateDict)
    requires parent.Valid() && 0 < n <= |parent.names|
    requires TakesFresh(digit, parent, p, n) && TensorsKept(digit, parent, p, n - 1, child)
    ensures TensorsKept(digit, parent, p, n, Turn(digit, parent, p, n, child))
  {
    hide ChildName;
    var name, next := parent.names[n - 1], Turn(digit, parent, p, n, child);
    assert name in parent.names;
    forall other | Survives(digit, parent, p, n, other)
      ensures ChildName(digit, other, p).Some? && other in parent.tensors
      ensures ChildName(digit, other, p).value in next.tensors
              && next.tensors[ChildName(digit, other, p).value] == parent.tensors[other]
    {
      SurvivesStep(digit, parent, p, n, other);
    }
  }

  // ----- How many tensors, and how many parameters

  function Survivors(digit: Digits, parent: StateDict, p: Plan, n: nat): nat
    requires n <= |parent.names|
  {
    if n == 0 then 0
    else Survivors(digit, parent, p, n - 1) + if ChildName(digit, parent.names[n - 1], p).Some? then 1 else 0
  }

  ghost predicate AllFresh(digit: Digits, parent: StateDict, p: Plan, n: nat)
    requires n <= |parent.names|
  {
    forall i :: 0 < i <= n ==> TakesFresh(digit, parent, p, i)
  }

  /** One turn of the loop. */
  function Turn(digit: Digits, parent: StateDict, p: Plan, n: nat, child: StateDict): StateDict
    requires parent.Valid() && 0 < n <= |parent.names|
  {
    match ChildName(digit, parent.names[n - 1], p)
    case None => child
    case Some(renamed) => child.Put(renamed, parent.tensors[parent.names[n - 1]])
  }

  lemma RewriteTurn(digit: Digits, parent: StateDict, p: Plan, n: nat)
    requires parent.Valid() && 0 < n <= |parent.names|
    ensures Rewrite(digit, parent, p, n) == Turn(digit, parent, p, n, Rewrite(digit, parent, p, n - 1))
  {
  }

  lemma TurnCount(digit: Digits, parent: StateDict, p: Plan, n: nat, child: StateDict)
    requires parent.Valid() && 0 < n <= |parent.names| && NamesAre(digit, parent, p, n - 1, child)
    ensures |Turn(digit, parent, p, n, child).names|
            == |child.names|
               + if ChildName(digit, parent.names[n - 1], p).Some? && TakesFresh(digit, parent, p, n) then 1 else 0
  {
    FreshIff(digit, parent, p, n, child);
  }

  lemma CountStep(digit: Digits, parent: StateDict, p: Plan, n: nat)
    requires parent.Valid() && 0 < n <= |parent.names|
    ensures |Rewrite(digit, parent, p, n).names|
            == |Rewrite(digit, parent, p, n - 1).names|
               + if ChildName(digit, parent.names[n - 1], p).Some? && TakesFresh(digit, parent, p, n) then 1 else 0
  {
    hide ChildName, TakesFresh, NamesAre, Rewrite, Turn, StateDict.Valid;
    RewriteNames(digit, parent, p, n - 1);
    TurnCount(digit, parent, p, n, Rewrite(digit, parent, p, n - 1));
    RewriteTurn(digit, parent, p, n);
  }

  lemma {:induction false} ChildCount(digit: Digits, parent: StateDict, p: Plan, n: nat)
    requires parent.Valid() && n <= |parent.names|
    ensures |Rewrite(digit, parent, p, n).names| <= Survivors(digit, parent, p, n)
    ensures |Rewrite(digit, parent, p, n).names| == Survivors(digit, parent, p, n) <==> AllFresh(digit, parent, p, n)
  {
    hide ChildName, TakesFresh, StateDict.Valid;
    if n > 0 {
      hide AllFresh, Rewrite;
      CountStep(digit, parent, p, n);
      NoneTakesFresh(digit, parent, p, n);
      AllFreshStep(digit, parent, p, n);
      ChildCount(digit, parent, p, n - 1);
    }
  }

  lemma AllFreshStep(digit: Digits, parent: StateDict, p: Plan, n: nat)
    requires 0 < n <= |parent.names|
    ensures AllFresh(digit, parent, p, n) <==> AllFresh(digit, parent, p, n - 1) && TakesFresh(digit, parent, p, n)
  {
    hide TakesFresh;
  }

  lemma NoneTakesFresh(digit: Digits, parent: StateDict, p: Plan, n: nat)
    requires 0 < n <= |parent.names|
    ensures ChildName(digit, parent.names[n - 1], p).None? ==> TakesFresh(digit, parent, p, n)
  {
  }

  lemma FreshIff(digit: Digits, parent: StateDict, p: Plan, n: nat, child: StateDict)
    requires 0 < n <= |parent.names| && NamesAre(digit, parent, p, n - 1, child)
    ensures TakesFresh(digit, parent, p, n) <==>
            (ChildName(digit, parent.names[n - 1], p).Some? ==>
               ChildName(digit, parent.names[n - 1], p).value !in child.tensors)
  {
    hide ChildName, Survives;
    var c := ChildName(digit, parent.names[n - 1], p);
    if c.Some? && c.value in child.tensors {
      var other :| Survives(digit, parent, p, n - 1, other) && ChildName(digit, other, p) == Some(c.value);
    }
  }

  /** A clash costs the child a tensor, and only a clash does. */
  lemma TensorsLostIffClash(digit: Digits, parent: StateDict, p: Plan, scores: nat -> real)
    requires parent.Valid() && Selects(p, scores)
    ensures |Rewrite(digit, parent, p, |parent.names|).names| == Survivors(digit, parent, p, |parent.names|)
            <==> NoClash(digit, parent, p)
    ensures |Rewrite(digit, parent, p, |parent.names|).names| <= Survivors(digit, parent, p, |parent.names|)
  {
    hide ChildName, ParseKey, Survivors, Rewrite, TakesFresh;
    ChildCount(digit, parent, p, |parent.names|);
    if NoClash(digit, parent, p) {
      hide NoClash, Selects;
      forall i | 0 < i <= |parent.names| ensures TakesFresh(digit, parent, p, i) {
        NoClashTakesFresh(digit, parent, p, scores, i);
      }
    } else {
      var a, b :| a in parent.names && b in parent.names && a != b
                  && ChildName(digit, a, p).Some? && ChildName(digit, b, p).Some?
                  && ParseKey(digit, a).Some? && ParseKey(digit, a) == ParseKey(digit, b);
      hide NoClash;
      NamesMeetIff(digit, a, b, p, scores);
      hide Selects;
      var i :| 0 <= i < |parent.names| && parent.names[i] == a;
      var j :| 0 <= j < |parent.names| && parent.names[j] == b;
      ClashIsNotFresh(digit, parent, p, if i < j then i else j, if i < j then j else i);
    }
  }

  lemma ClashIsNotFresh(digit: Digits, parent: StateDict, p: Plan, i: nat, j: nat)
    requires i < j < |parent.names| && ChildName(digit, parent.names[i], p).Some?
    requires ChildName(digit, parent.names[i], p) == ChildName(digit, parent.names[j], p)
    ensures !TakesFresh(digit, parent, p, j + 1)
  {
    hide ChildName;
    assert parent.names[..j][i] == parent.names[i];
    assert Survives(digit, parent, p, j, parent.names[i]);
  }

  function Parameters(names: seq<string>, tensors: map<string, Weights>): nat
    requires forall name :: name in names ==> name in tensors
  {
    if names == [] then 0
    else Parameters(names[..|names| - 1], tensors) + |tensors[names[|names| - 1]]|
  }

  /** The parameters of the removed blocks among the first n tensors. */
  function RemovedParameters(digit: Digits, parent: StateDict, p: Plan, n: nat): nat
    requires parent.Valid() && n <= |parent.names|
  {
    if n == 0 then 0
    else RemovedParameters(digit, parent, p, n - 1)
         + if ChildName(digit, parent.names[n - 1], p).None? then |parent.tensors[parent.names[n - 1]]| else 0
  }

  lemma {:induction false} ParametersOfMore(names: seq<string>, tensors: map<string, Weights>, name: string, t: Weights)
    requires (forall m :: m in names ==> m in tensors) && name !in names
    ensures Parameters(names, tensors[name := t]) == Parameters(names, tensors)
    ensures Parameters(names + [name], tensors[name := t]) == Parameters(names, tensors) + |t|
  {
    if names != [] {
      ParametersOfMore(names[..|names| - 1], tensors, name, t);
    }
    assert (names + [name])[..|names|] == names;
  }

  /** Parameter counts split exactly between the child and the removed blocks. */
  lemma {:induction false} ParametersSplit(digit: Digits, parent: StateDict, p: Plan, scores: nat -> real, n: nat)
    requires parent.Valid() && n <= |parent.names| && Selects(p, scores) && NoClash(digit, parent, p)
    ensures var child := Rewrite(digit, parent, p, n);
            && child.Valid()
            && Parameters(child.names, child.tensors) + RemovedParameters(digit, parent, p, n)
               == Parameters(parent.names[..n], parent.tensors)
  {
    RewriteNames(digit, parent, p, n);
    if n > 0 {
      hide Rewrite, Turn, ChildName, Survives, NoClash, Selects, TakesFresh;
      ParametersSplit(digit, parent, p, scores, n - 1);
      NoClashTakesFresh(digit, parent, p, scores, n);
      RewriteNames(digit, parent, p, n - 1);
      RewriteTurn(digit, parent, p, n);
      TurnParameters(digit, parent, p, n, Rewrite(digit, parent, p, n - 1));
      ParametersOfPrefix(parent, n);
    }
  }

  lemma ParametersOfPrefix(parent: StateDict, n: nat)
    requires parent.Valid() && 0 < n <= |parent.names|
    ensures Parameters(parent.names[..n], parent.tensors)
            == Parameters(parent.names[..n - 1], parent.tensors) + |parent.tensors[parent.names[n - 1]]|
  {
    assert parent.names[..n][..n - 1] == parent.names[..n - 1];
  }

  lemma TurnParameters(digit: Digits, parent: StateDict, p: Plan, n: nat, child: StateDict)
    requires parent.Valid() && 0 < n <= |parent.names|
    requires NamesAre(digit, parent, p, n - 1, child) && TakesFresh(digit, parent, p, n)
    ensures var next := Turn(digit, parent, p, n, child);
            && (forall name :: name in next.names ==> name in next.tensors)
            && Parameters(next.names, next.tensors)
               == Parameters(child.names, child.tensors)
                  + if ChildName(digit, parent.names[n - 1], p).Some? then |parent.tensors[parent.names[n - 1]]| else 0
  {
    hide ChildName;
    FreshIff(digit, parent, p, n, child);
    var name := parent.names[n - 1];
    if ChildName(digit, name, p).Some? {
      ParametersOfMore(child.names, child.tensors, ChildName(digit, name, p).value, parent.tensors[name]);
    }
  }

  // ----- The child's block indices

  lemma ChildIndexOf(digit: Digits, name: string, p: Plan)
    requires ChildName(digit, name, p).Some?
    ensures match ParseKey(digit, name)
            case None => ChildName(digit, name, p) == Some(name)
            case Some(key) => key.index in p.kept
                              && ParseKey(digit, ChildName(digit, name, p).value)
                                 == Some(BlockKey(Position(p.kept, key.index), key.suffix))
  {
    SuffixNotEmpty(digit, name);
    if ParseKey(digit, name).Some? {
      ParseMade(digit, Position(p.kept, ParseKey(digit, name).value.index), ParseKey(digit, name).value.suffix);
    }
  }

  lemma IndexOfName(digit: Digits, names: seq<string>, x: nat)
    ensures x in IndicesOf(digit, names) <==>
            exists name :: name in names && ParseKey(digit, name).Some? && ParseKey(digit, name).value.index == x
  {
    if x in IndicesOf(digit, names) {
      var i :| 0 <= i < |names| && ParseKey(digit, names[i]).Some? && ParseKey(digit, names[i]).value.index == x;
      assert names[i] in names;
    }
  }

  /** The child's block indices are exactly zero up to its layer count. */
  lemma ChildIndicesMatch(digit: Digits, parent: StateDict, p: Plan, scores: nat -> real)
    requires parent.Valid() && Selects(p, scores) && IndicesOf(digit, parent.names) == Elements(Range(p.layers))
    ensures IndicesOf(digit, Rewrite(digit, parent, p, |parent.names|).names) == Elements(Range(|p.kept|))
  {
    hide ChildName, ParseKey, IndicesOf, Rewrite;
    var child := Rewrite(digit, parent, p, |parent.names|);
    RewriteNames(digit, parent, p, |parent.names|);
    assert parent.names[..|parent.names|] == parent.names;
    forall x: nat ensures x in IndicesOf(digit, child.names) <==> x < |p.kept| {
      IndexOfName(digit, child.names, x);
      if x in IndicesOf(digit, child.names) {
        var r :| r in child.names && ParseKey(digit, r).Some? && ParseKey(digit, r).value.index == x;
        var name :| Survives(digit, parent, p, |parent.names|, name) && ChildName(digit, name, p) == Some(r);
        ChildIndexOf(digit, name, p);
      }
      if x < |p.kept| {
        KeptIndexIsUsed(digit, parent, p, scores, x);
        var name :| name in parent.names && ParseKey(digit, name).Some?
          && ParseKey(digit, name).value.index == p.kept[x]
                    && ChildName(digit, name, p).Some?;
        ChildIndexOf(digit, name, p);
        IncreasingAt(p.kept, Position(p.kept, p.kept[x]), x);
        assert Survives(digit, parent, p, |parent.names|, name);
      }
    }
    forall x: nat ensures x in Elements(Range(|p.kept|)) <==> x < |p.kept| {
      if x < |p.kept| { assert Range(|p.kept|)[x] == x; }
    }
  }

  lemma KeptIndexIsUsed(digit: Digits, parent: StateDict, p: Plan, scores: nat -> real, x: nat)
    requires parent.Valid() && Selects(p, scores) && x < |p.kept|
    requires IndicesOf(digit, parent.names) == Elements(Range(p.layers))
    ensures exists name :: name in parent.names && ParseKey(digit, name).Some?
                           && ParseKey(digit, name).value.index == p.kept[x]
                           && ChildName(digit, name, p).Some?
  {
    var was := p.kept[x];
    assert was in p.kept;
    assert Range(p.layers)[was] == was;
    assert was in IndicesOf(digit, parent.names);
    IndexOfName(digit, parent.names, was);
  }

  /** Every removed block is less important than every kept one, or as important with a smaller number. */
  ghost predicate LessImportant(parent: StateDict, p: Plan) {
    forall x, y :: x in p.removed && y in p.kept ==>
      && Importance(parent, x).Ok? && Importance(parent, y).Ok?
      && (Importance(parent, x).value < Importance(parent, y).value
          || (Importance(parent, x) == Importance(parent, y) && x < y))
  }

  lemma SelectsLessImportant(parent: StateDict, p: Plan)
    requires Selects(p, ScoresOf(parent)) && FirstFailure(parent, p.layers) == None
    ensures LessImportant(parent, p)
  {
    hide Importance;
    FirstFailureIs(parent, p.layers);
  }

  /** Tensors outside the blocks keep their names; those of the k-th kept block become those of block k. */
  ghost predicate CarriedOver(digit: Digits, parent: StateDict, p: Plan, child: StateDict) {
    forall name :: name in parent.names && name in parent.tensors ==>
      match ParseKey(digit, name)
      case None => name in child.tensors && child.tensors[name] == parent.tensors[name]
      case Some(key) =>
        forall k: nat :: k < |p.kept| && p.kept[k] == key.index ==>
          && "blocks." + ToDecimal(k) + "." + key.suffix in child.tensors
          && child.tensors["blocks." + ToDecimal(k) + "." + key.suffix] == parent.tensors[name]
  }

  lemma KeptIsCarriedOver(digit: Digits, parent: StateDict, p: Plan, scores: nat -> real, child: StateDict)
    requires parent.Valid() && Selects(p, scores) && TensorsKept(digit, parent, p, |parent.names|, child)
    ensures CarriedOver(digit, parent, p, child)
  {
    hide ParseKey, ChildName, Selects;
    assert parent.names[..|parent.names|] == parent.names;
    forall name | name in parent.names ensures ChildName(digit, name, p).Some? ==>
                                                 Survives(digit, parent, p, |parent.names|, name)
    {
    }
    forall name | name in parent.names
      ensures var key, renamed := ParseKey(digit, name), ChildName(digit, name, p);
              && (key.None? ==> renamed == Some(name))
              && (forall k: nat :: key.Some? && k < |p.kept| && p.kept[k] == key.value.index ==>
                    renamed == Some("blocks." + ToDecimal(k) + "." + key.value.suffix))
    {
      ChildNameIs(digit, name, p, scores);
    }
  }

  /** Everything a pruned checkpoint promises. */
  lemma PruneIsFaithful(digit: Digits, parent: StateDict, layers: int, ratio: real)
    requires parent.Valid() && Prune(digit, parent, layers, ratio).Ok?
    ensures var r := Prune(digit, parent, layers, ratio).value;
            var n := |parent.names|;
            && 1 <= r.layers == layers - |r.plan.removed| < layers
            && Selects(r.plan, ScoresOf(parent)) && |r.plan.removed| == RemoveCount(layers, ratio)
            && LessImportant(parent, r.plan)
            && IndicesOf(digit, r.child.names) == Elements(Range(r.layers))
            && NamesAre(digit, parent, r.plan, n, r.child)
            && (NoClash(digit, parent, r.plan) <==> |r.child.names| == Survivors(digit, parent, r.plan, n))
            && (NoClash(digit, parent, r.plan) ==>
                  && TensorsKept(digit, parent, r.plan, n, r.child) && CarriedOver(digit, parent, r.plan, r.child)
                  && Parameters(parent.names, parent.tensors)
                     == Parameters(r.child.names, r.child.tensors) + RemovedParameters(digit, parent, r.plan, n))
  {
    hide ChildName, ParseKey, IndicesOf, Survives, NoClash, Selects, NamesAre, TensorsKept, Rewrite, ScoresOf,
         FirstFailure, LessImportant, CarriedOver;
    var r := Prune(digit, parent, layers, ratio).value;
    var n, scores := |parent.names|, ScoresOf(parent);
    LeastAreRemoved(layers, ratio, scores);
    ChildIndicesMatch(digit, parent, r.plan, scores);
    RewriteNames(digit, parent, r.plan, n);
    TensorsLostIffClash(digit, parent, r.plan, scores);
    SelectedCounts(r.plan, scores);
    SelectsLessImportant(parent, r.plan);
    assert parent.names[..n] == parent.names;
    if NoClash(digit, parent, r.plan) {
      RewriteKeepsTensors(digit, parent, r.plan, scores, n);
      KeptIsCarriedOver(digit, parent, r.plan, scores, r.child);
      ParametersSplit(digit, parent, r.plan, scores, n);
    }
  }

  lemma SelectedCounts(p: Plan, scores: nat -> real)
    requires Selects(p, scores)
    ensures |p.kept| + |p.removed| == p.layers
  {
  }

  // ----- A clash

  ghost predicate PrunesWithClash(digit: Digits, parent: StateDict, layers: int, ratio: real) {
    && parent.Valid() && Prune(digit, parent, layers, ratio).Ok?
    && !NoClash(digit, parent, Prune(digit, parent, layers, ratio).value.plan)
  }

  const WEIGHT: string := "norm1.weight"

  function Spelled(digits: string): string {
    PREFIX + digits + "." + WEIGHT
  }

  /** Two spellings of block zero, which is the more important one. */
  function TwiceSpelled(): (r: StateDict)
    ensures r.Valid()
  {
    assert |Spelled("0")| != |Spelled("00")|;
    assert Spelled("0")[|PREFIX|] != Spelled("1")[|PREFIX|];
    assert |Spelled("1")| != |Spelled("00")|;
    StateDict([Spelled("0"), Spelled("00"), Spelled("1")],
              map[Spelled("0") := [Finite(2.0)], Spelled("00") := [Finite(2.0)], Spelled("1") := [Finite(1.0)]])
  }

  lemma SpelledKeys(digit: Digits)
    ensures ParseKey(digit, Spelled("0")) == Some(BlockKey(0, WEIGHT))
    ensures ParseKey(digit, Spelled("00")) == Some(BlockKey(0, WEIGHT))
    ensures ParseKey(digit, Spelled("1")) == Some(BlockKey(1, WEIGHT))
    ensures Spelled("0") != Spelled("00") && Spelled("0") == MakeKey(0, WEIGHT) && Spelled("1") == MakeKey(1, WEIGHT)
  {
    hide ParseKey;
    assert |Spelled("0")| != |Spelled("00")|;
    assert IsAscii('0') && IsAscii('1');
    assert AllDigits(digit, "0") && AllDigits(digit, "00") && AllDigits(digit, "1");
    ParseSpelled(digit, "0", WEIGHT, WEIGHT);
    ParseSpelled(digit, "00", WEIGHT, WEIGHT);
    ParseSpelled(digit, "1", WEIGHT, WEIGHT);
    assert "0"[..0] == "" && "00"[..1] == "0" && "1"[..0] == "";
    assert ToNumber(digit, "0") == 0 && ToNumber(digit, "00") == 0 && ToNumber(digit, "1") == 1;
    assert ToDecimal(0) == "0" && ToDecimal(1) == "1";
  }

  lemma OnlyOneWeight(index: nat, suffix: string)
    requires OneLine(suffix) && suffix != WEIGHT
    ensures MakeKey(index, suffix) !in TwiceSpelled().tensors
  {
    hide ParseKey, Spelled, MakeKey;
    ParseMade(AsciiDigit, index, suffix);
    SpelledKeys(AsciiDigit);
  }

  lemma MagnitudesSkip(parent: StateDict, index: nat, n: nat)
    requires 0 < n <= |SUFFIXES| && MakeKey(index, SUFFIXES[n - 1]) !in parent.tensors
    ensures Magnitudes(parent, index, n) == Magnitudes(parent, index, n - 1)
  {
  }

  lemma MagnitudeOfOne(x: Scalar)
    requires x.Finite? && x.value >= 0.0
    ensures MeanMagnitude([x]) == Some(x.value)
  {
    assert [x][..0] == [];
    assert SumOfMagnitudes([x]) == Some(x.value);
  }

  lemma ImportanceOfWeight(index: nat)
    requires index < 2
    ensures Importance(TwiceSpelled(), index) == Ok(if index == 0 then 2.0 else 1.0)
  {
    hide ParseKey, Spelled, MakeKey, MeanMagnitude, Magnitudes;
    var parent, weight := TwiceSpelled(), if index == 0 then 2.0 else 1.0;
    SpelledKeys(AsciiDigit);
    MagnitudeOfOne(Finite(weight));
    forall n | 0 < n <= 5 && n != 2 ensures Magnitudes(parent, index, n) == Magnitudes(parent, index, n - 1) {
      OnlyOneWeight(index, SUFFIXES[n - 1]);
      MagnitudesSkip(parent, index, n);
    }
    WeightCounts(parent, index, weight);
    assert 0 < 1 <= 5 && 0 < 3 <= 5 && 0 < 4 <= 5;
    assert Magnitudes(parent, index, 5) == Magnitudes(parent, index, 4) == Magnitudes(parent, index, 3);
  }

  lemma WeightCounts(parent: StateDict, index: nat, weight: real)
    requires MakeKey(index, WEIGHT) in parent.tensors && parent.tensors[MakeKey(index, WEIGHT)] == [Finite(weight)]
    requires weight >= 0.0 && Magnitudes(parent, index, 1) == Magnitudes(parent, index, 0)
    ensures Magnitudes(parent, index, 2) == Some((1, weight))
  {
    hide MakeKey, MeanMagnitude;
    MagnitudeOfOne(Finite(weight));
    assert Magnitudes(parent, index, 0) == Some((0, 0.0));
    assert SUFFIXES[1] == WEIGHT;
  }

  /** A checkpoint that spells one index twice is accepted and loses a tensor. */
  lemma ClashCanHappen(digit: Digits)
    ensures exists parent, layers, ratio :: PrunesWithClash(digit, parent, layers, ratio)
  {
    var parent := TwiceSpelled();
    WitnessIndices(digit);
    ImportanceOfWeight(0);
    ImportanceOfWeight(1);
    SpelledKeys(digit);
    hide ParseKey, Spelled, Importance, MakePlan, Rewrite, IndicesOf, StateDict.Valid, Selects;
    var scores := ScoresOf(parent);
    assert FirstFailure(parent, 0) == None;
    assert FirstFailure(parent, 1) == None;
    assert FirstFailure(parent, 2) == None;
    hide FirstFailure, NoClash;
    LeastAreRemoved(2, 0.5, scores);
    assert RemoveCount(2, 0.5) == 1;
    var p := MakePlan(2, 0.5, scores);
    HigherScoreStays(p, scores);
    assert Prune(digit, parent, 2, 0.5) == Ok(Pruned(Rewrite(digit, parent, p, |parent.names|), |p.kept|, p));
    BothSpellingsStay(digit, p, scores);
    assert PrunesWithClash(digit, parent, 2, 0.5);
  }

  lemma BothSpellingsStay(digit: Digits, p: Plan, scores: nat -> real)
    requires 0 in p.kept && Selects(p, scores)
    ensures !NoClash(digit, TwiceSpelled(), p)
  {
    SpelledKeys(digit);
    hide ParseKey, Spelled;
    var names := TwiceSpelled().names;
    assert names[0] in names && names[1] in names;
  }

  lemma WitnessIndices(digit: Digits)
    ensures IndicesOf(digit, TwiceSpelled().names) == Elements(Range(2))
  {
    SpelledKeys(digit);
    hide ParseKey, IndicesOf, Spelled;
    var names := TwiceSpelled().names;
    forall x: nat ensures x in IndicesOf(digit, names) <==> x < 2 {
      IndexOfName(digit, names, x);
      assert names[0] in names && names[2] in names;
    }
    forall x: nat ensures x in Elements(Range(2)) <==> x < 2 {
      if x < 2 { assert Range(2)[x] == x; }
    }
  }

  lemma HigherScoreStays(p: Plan, scores: nat -> real)
    requires Selects(p, scores) && |p.removed| == 1 && p.layers == 2 && scores(0) > scores(1)
    ensures 0 in p.kept
  {
    var x := p.removed[0];
    assert x in p.removed;
    var y := 1 - x;
    assert p.removed == [x];
    assert y in p.kept;
  }
}
