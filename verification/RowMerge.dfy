/**
 Temporal row merging of the H3 attention hook: which video rows merge, how the remaining rows are
 renumbered, the scatter-mean, its gather inverse and the splice around an arbitrary attention.
 */
module RowMerge {
  import opened Wrappers
  import opened Arith
  import opened Totals

  type Row = seq<real>

  /** The merge decisions: `pairs[p][i]` says whether row i of frame 2p+1 merges into frame 2p. */
  datatype Merge = Merge(frames: nat, rows: nat, pairs: seq<seq<bool>>) {

    ghost predicate Valid() {
      frames >= 2 && rows >= 1 && |pairs| == frames / 2 && forall p :: 0 <= p < |pairs| ==> |pairs[p]| == rows
    }

    function Count(): nat {
      frames * rows
    }
  }

  // ----- Arithmetic of flattened rows

  lemma FrameBelow(w: nat, frames: nat, j: nat)
    requires w >= 1 && j < frames * w
    ensures j / w < frames && j == (j / w) * w + j % w
  {
    DivBelow(j, w, frames);
  }

  /** The same spatial row in the preceding frame. */
  lemma PrecedingFrame(w: nat, j: nat)
    requires w >= 1 && j / w >= 1
    ensures j >= w && (j - w) / w == j / w - 1 && (j - w) % w == j % w
  {
    MulAtLeast(j / w, w);
    assert (j / w - 1) * w == (j / w) * w - w;
    DivModUnique(j - w, w, j / w - 1, j % w);
  }

  // ----- Renumbering

  /** Row j of the segment is dropped: it sits in an odd frame and merges into the preceding one. */
  predicate Dropped(m: Merge, j: nat)
    requires m.Valid() && j < m.Count()
  {
    FrameBelow(m.rows, m.frames, j);
    (j / m.rows) % 2 == 1 && m.pairs[(j / m.rows) / 2][j % m.rows]
  }

  /** Row i of frame f. */
  lemma DroppedAt(m: Merge, f: nat, i: nat)
    requires m.Valid() && f < m.frames && i < m.rows
    ensures f * m.rows + i < m.Count()
    ensures Dropped(m, f * m.rows + i) <==> f % 2 == 1 && m.pairs[f / 2][i]
  {
    MixBelow(f, i, m.rows, m.frames);
    DivModUnique(f * m.rows + i, m.rows, f, i);
  }

  /** The number of kept rows before j. */
  function Rank(m: Merge, j: nat): nat
    requires m.Valid() && j <= m.Count()
  {
    if j == 0 then 0 else Rank(m, j - 1) + if Dropped(m, j - 1) then 0 else 1
  }

  function ReducedCount(m: Merge): nat
    requires m.Valid()
  {
    Rank(m, m.Count())
  }

  lemma DroppedFollowsKept(m: Merge, j: nat)
    requires m.Valid() && j < m.Count() && Dropped(m, j)
    ensures j >= m.rows && !Dropped(m, j - m.rows)
  {
    FrameBelow(m.rows, m.frames, j);
    PrecedingFrame(m.rows, j);
  }

  /** The group of a row: a dropped row joins the same spatial row of the preceding frame. */
  function Group(m: Merge, j: nat): nat
    requires m.Valid() && j < m.Count()
  {
    if Dropped(m, j) then (DroppedFollowsKept(m, j); Rank(m, j - m.rows)) else Rank(m, j)
  }

  lemma {:induction false} RankMonotone(m: Merge, i: nat, j: nat)
    requires m.Valid() && i <= j <= m.Count()
    ensures Rank(m, i) <= Rank(m, j)
    ensures i < j && !Dropped(m, i) ==> Rank(m, i) < Rank(m, j)
    decreases j
  {
    if i < j {
      RankMonotone(m, i, j - 1);
    }
  }

  /** Kept rows are numbered by a strictly increasing map into 0..reduced_count-1. */
  lemma KeptRowsIncreasing(m: Merge, i: nat, j: nat)
    requires m.Valid() && i < j < m.Count() && !Dropped(m, i) && !Dropped(m, j)
    ensures Group(m, i) < Group(m, j) < ReducedCount(m)
  {
    RankMonotone(m, i, j);
    RankMonotone(m, j, m.Count());
  }

  /** The kept row with a given number. */
  lemma {:induction false} KeptRowWithRank(m: Merge, n: nat, g: nat) returns (k: nat)
    requires m.Valid() && n <= m.Count() && g < Rank(m, n)
    ensures k < n && !Dropped(m, k) && Rank(m, k) == g
    decreases n
  {
    if Rank(m, n - 1) == g {
      k := n - 1;
    } else {
      k := KeptRowWithRank(m, n - 1, g);
    }
  }

  /**
   Every group has exactly one kept row and at most one more, the same spatial row of the next frame.
   So the group ids are exactly 0..reduced_count-1 and no group is empty.
   */
  lemma GroupMembers(m: Merge, g: nat) returns (k: nat)
    requires m.Valid() && g < ReducedCount(m)
    ensures k < m.Count() && !Dropped(m, k)
    ensures forall j: nat | j < m.Count() :: Group(m, j) == g <==> j == k || (j == k + m.rows && Dropped(m, j))
  {
    k := KeptRowWithRank(m, m.Count(), g);
    forall j: nat | j < m.Count()
      ensures Group(m, j) == g <==> j == k || (j == k + m.rows && Dropped(m, j))
    {
      if Dropped(m, j) { DroppedFollowsKept(m, j); }
      var i := if Dropped(m, j) then j - m.rows else j;
      assert Group(m, j) == Rank(m, i) && !Dropped(m, i);
      if i < k { RankMonotone(m, i, k); }
      if k < i { RankMonotone(m, k, i); }
    }
  }

  lemma GroupBelow(m: Merge, j: nat)
    requires m.Valid() && j < m.Count()
    ensures Group(m, j) < ReducedCount(m)
  {
    if Dropped(m, j) { DroppedFollowsKept(m, j); }
    RankMonotone(m, if Dropped(m, j) then j - m.rows else j, m.Count());
  }

  function GroupIds(m: Merge): (ids: seq<nat>)
    requires m.Valid()
    ensures |ids| == m.Count()
  {
    seq(m.Count(), j requires 0 <= j < m.Count() => Group(m, j))
  }

  // ----- Reduce and expand, for any group ids

  /** Group g consists of row k and, when there is one, the later row `mate`. */
  ghost predicate Members(ids: seq<nat>, g: nat, k: nat, mate: Option<nat>) {
    && k < |ids| && (mate.Some? ==> k < mate.value < |ids|)
    && forall j :: 0 <= j < |ids| ==> (ids[j] == g <==> j == k || mate == Some(j))
  }

  ghost predicate OneOrTwo(ids: seq<nat>, g: nat) {
    exists k, mate :: Members(ids, g, k, mate)
  }

  /** The ids cover exactly 0..reduced-1 and every group has one or two members. */
  ghost predicate Grouping(ids: seq<nat>, reduced: nat) {
    && (forall j :: 0 <= j < |ids| ==> ids[j] < reduced)
    && (forall g: nat :: g < reduced ==> OneOrTwo(ids, g))
  }

  /** The row merged into row k: the same spatial row of the next frame, if it is dropped. */
  function Mate(m: Merge, k: nat): Option<nat>
    requires m.Valid()
  {
    if k + m.rows < m.Count() && Dropped(m, k + m.rows) then Some(k + m.rows) else None
  }

  lemma KeptRowMembers(m: Merge, g: nat) returns (k: nat)
    requires m.Valid() && g < ReducedCount(m)
    ensures k < m.Count() && !Dropped(m, k) && Members(GroupIds(m), g, k, Mate(m, k))
  {
    k := GroupMembers(m, g);
    hide Dropped, Group, ReducedCount;
    var ids := GroupIds(m);
    forall j: nat | j < m.Count() ensures ids[j] == g <==> j == k || Mate(m, k) == Some(j) {
      assert ids[j] == Group(m, j);
    }
  }

  /** The renumbering yields a grouping in which a kept row's only partner is the row merged into it. */
  lemma RenumberingGroups(m: Merge)
    requires m.Valid()
    ensures Grouping(GroupIds(m), ReducedCount(m))
  {
    var ids := GroupIds(m);
    forall j | 0 <= j < |ids| ensures ids[j] < ReducedCount(m) { GroupBelow(m, j); }
    forall g: nat | g < ReducedCount(m) ensures OneOrTwo(ids, g) {
      var k := KeptRowMembers(m, g);
    }
  }

  lemma KeptRowGroup(m: Merge, k: nat)
    requires m.Valid() && k < m.Count() && !Dropped(m, k)
    ensures Members(GroupIds(m), GroupIds(m)[k], k, Mate(m, k))
  {
    GroupBelow(m, k);
    var i := KeptRowMembers(m, Group(m, k));
  }

  /** A block of rows of one width. */
  ghost predicate IsBlock(v: seq<Row>, n: nat, width: nat) {
    |v| == n && forall j :: 0 <= j < n ==> |v[j]| == width
  }

  /** The sum, over the first n rows, of column c of the rows that belong to group g. */
  function GroupSum(ids: seq<nat>, v: seq<Row>, width: nat, g: nat, c: nat, n: nat): real
    requires IsBlock(v, |ids|, width) && c < width && n <= |ids|
  {
    if n == 0 then 0.0
    else GroupSum(ids, v, width, g, c, n - 1) + if ids[n - 1] == g then v[n - 1][c] else 0.0
  }

  function GroupSize(ids: seq<nat>, g: nat, n: nat): nat
    requires n <= |ids|
  {
    if n == 0 then 0 else GroupSize(ids, g, n - 1) + if ids[n - 1] == g then 1 else 0
  }

  lemma {:induction false} GroupTotals(ids: seq<nat>, v: seq<Row>, width: nat, g: nat, c: nat, k: nat,
                                       mate: Option<nat>, n: nat)
    requires IsBlock(v, |ids|, width) && c < width && n <= |ids| && Members(ids, g, k, mate)
    ensures GroupSize(ids, g, n) == (if k < n then 1 else 0) + (if mate.Some? && mate.value < n then 1 else 0)
    ensures GroupSum(ids, v, width, g, c, n) ==
            (if k < n then v[k][c] else 0.0) + (if mate.Some? && mate.value < n then v[mate.value][c] else 0.0)
  {
    if n > 0 {
      GroupTotals(ids, v, width, g, c, k, mate, n - 1);
    }
  }

  /** Every group has one or two members, so no count is zero. */
  lemma CountsArePositive(ids: seq<nat>, reduced: nat, g: nat)
    requires Grouping(ids, reduced) && g < reduced
    ensures 1 <= GroupSize(ids, g, |ids|) <= 2
  {
    assert OneOrTwo(ids, g);
    var k, mate :| Members(ids, g, k, mate);
    GroupTotals(ids, seq(|ids|, _ => [0.0]), 1, g, 0, k, mate, |ids|);
  }

  function Mean(ids: seq<nat>, reduced: nat, v: seq<Row>, width: nat, g: nat, c: nat): real
    requires Grouping(ids, reduced) && IsBlock(v, |ids|, width) && g < reduced && c < width
  {
    CountsArePositive(ids, reduced, g);
    GroupSum(ids, v, width, g, c, |ids|) / GroupSize(ids, g, |ids|) as real
  }

  function MeanRow(ids: seq<nat>, reduced: nat, v: seq<Row>, width: nat, g: nat): (r: Row)
    requires Grouping(ids, reduced) && IsBlock(v, |ids|, width) && g < reduced
    ensures |r| == width && forall c: nat :: c < width ==> r[c] == Mean(ids, reduced, v, width, g, c)
  {
    seq(width, c requires 0 <= c < width => Mean(ids, reduced, v, width, g, c))
  }

  function ReduceRows(ids: seq<nat>, reduced: nat, v: seq<Row>, width: nat): (r: seq<Row>)
    requires Grouping(ids, reduced) && IsBlock(v, |ids|, width)
    ensures IsBlock(r, reduced, width)
    ensures forall g: nat :: g < reduced ==> r[g] == MeanRow(ids, reduced, v, width, g)
  {
    seq(reduced, g requires 0 <= g < reduced => MeanRow(ids, reduced, v, width, g))
  }

  /** The un-merge: every row of the segment reads the row of its group. */
  function ExpandRows(ids: seq<nat>, reduced: nat, z: seq<Row>): (r: seq<Row>)
    requires Grouping(ids, reduced) && |z| == reduced
    ensures |r| == |ids| && forall j :: 0 <= j < |ids| ==> r[j] == z[ids[j]]
  {
    seq(|ids|, j requires 0 <= j < |ids| => z[ids[j]])
  }

  lemma MeanOfMembers(ids: seq<nat>, reduced: nat, v: seq<Row>, width: nat, g: nat, c: nat, k: nat, mate: Option<nat>)
    requires Grouping(ids, reduced) && IsBlock(v, |ids|, width) && g < reduced && c < width && Members(ids, g, k, mate)
    ensures Mean(ids, reduced, v, width, g, c) == if mate.Some? then (v[k][c] + v[mate.value][c]) / 2.0 else v[k][c]
  {
    GroupTotals(ids, v, width, g, c, k, mate, |ids|);
  }

  /** Reduce after expand is the identity on reduced rows. */
  lemma ReduceAfterExpand(ids: seq<nat>, reduced: nat, z: seq<Row>, width: nat)
    requires Grouping(ids, reduced) && IsBlock(z, reduced, width)
    ensures ReduceRows(ids, reduced, ExpandRows(ids, reduced, z), width) == z
  {
    var v := ExpandRows(ids, reduced, z);
    forall g: nat | g < reduced ensures MeanRow(ids, reduced, v, width, g) == z[g] {
      assert OneOrTwo(ids, g);
      var k, mate :| Members(ids, g, k, mate);
      forall c: nat | c < width ensures Mean(ids, reduced, v, width, g, c) == z[g][c] {
        MeanOfMembers(ids, reduced, v, width, g, c, k, mate);
      }
    }
  }

  /** Expand after reduce: an unmerged row is unchanged, both rows of a merged pair become their mean. */
  lemma ExpandAfterReduce(ids: seq<nat>, reduced: nat, v: seq<Row>, width: nat, k: nat, mate: Option<nat>, c: nat)
    requires Grouping(ids, reduced) && IsBlock(v, |ids|, width) && c < width
    requires k < |ids| && Members(ids, ids[k], k, mate)
    ensures var e := ExpandRows(ids, reduced, ReduceRows(ids, reduced, v, width));
            && e[k][c] == (if mate.Some? then (v[k][c] + v[mate.value][c]) / 2.0 else v[k][c])
            && (mate.Some? ==> e[mate.value] == e[k])
  {
    MeanOfMembers(ids, reduced, v, width, ids[k], c, k, mate);
  }

  // ----- Conservation

  function ColumnSum(v: seq<Row>, width: nat, c: nat, n: nat): real
    requires IsBlock(v, |v|, width) && c < width && n <= |v|
  {
    if n == 0 then 0.0 else ColumnSum(v, width, c, n - 1) + v[n - 1][c]
  }

  function GroupSums(ids: seq<nat>, reduced: nat, v: seq<Row>, width: nat, c: nat, n: nat): (s: seq<real>)
    requires IsBlock(v, |ids|, width) && c < width && n <= |ids|
    ensures |s| == reduced
  {
    seq(reduced, g requires 0 <= g < reduced => GroupSum(ids, v, width, g, c, n))
  }

  lemma {:induction false} AllZero(n: nat, s: seq<real>)
    requires |s| == n && forall g :: 0 <= g < n ==> s[g] == 0.0
    ensures SumOf(s) == 0.0
  {
    if n > 0 { AllZero(n - 1, s[1..]); }
  }

  /** Counting by groups: the group sums add up to the column sum. */
  lemma {:induction false} SumByGroups(ids: seq<nat>, reduced: nat, v: seq<Row>, width: nat, c: nat, n: nat)
    requires IsBlock(v, |ids|, width) && c < width && n <= |ids|
    requires forall j :: 0 <= j < |ids| ==> ids[j] < reduced
    ensures SumOf(GroupSums(ids, reduced, v, width, c, n)) == ColumnSum(v, width, c, n)
  {
    var s := GroupSums(ids, reduced, v, width, c, n);
    if n == 0 {
      AllZero(reduced, s);
    } else {
      SumByGroups(ids, reduced, v, width, c, n - 1);
      var before, t := GroupSums(ids, reduced, v, width, c, n - 1), ids[n - 1];
      assert s == before[t := before[t] + v[n - 1][c]];
      SumOfUpdate(before, t, before[t] + v[n - 1][c]);
    }
  }

  /** The group sums of an expanded block are the reduced rows weighted by the group sizes. */
  lemma {:induction false} ExpandedSum(ids: seq<nat>, reduced: nat, z: seq<Row>, width: nat, g: nat, c: nat, n: nat)
    requires Grouping(ids, reduced) && IsBlock(z, reduced, width) && g < reduced && c < width && n <= |ids|
    ensures GroupSum(ids, ExpandRows(ids, reduced, z), width, g, c, n) == GroupSize(ids, g, n) as real * z[g][c]
  {
    if n > 0 {
      ExpandedSum(ids, reduced, z, width, g, c, n - 1);
    }
  }

  /** Merging and un-merging conserves every column sum. */
  lemma ColumnSumConserved(ids: seq<nat>, reduced: nat, v: seq<Row>, width: nat, c: nat)
    requires Grouping(ids, reduced) && IsBlock(v, |ids|, width) && c < width
    ensures ColumnSum(ExpandRows(ids, reduced, ReduceRows(ids, reduced, v, width)), width, c, |ids|)
            == ColumnSum(v, width, c, |ids|)
  {
    var z := ReduceRows(ids, reduced, v, width);
    var e := ExpandRows(ids, reduced, z);
    forall g: nat | g < reduced
      ensures GroupSum(ids, e, width, g, c, |ids|) == GroupSum(ids, v, width, g, c, |ids|)
    {
      ExpandedSum(ids, reduced, z, width, g, c, |ids|);
      CountsArePositive(ids, reduced, g);
      assert z[g][c] == Mean(ids, reduced, v, width, g, c);
    }
    assert GroupSums(ids, reduced, e, width, c, |ids|) == GroupSums(ids, reduced, v, width, c, |ids|);
    SumByGroups(ids, reduced, v, width, c, |ids|);
    SumByGroups(ids, reduced, e, width, c, |ids|);
  }

  // ----- The tensor operations of the source

  /** Build the inverse indices in place: drop mask, running count of kept rows, override of merged odd rows. */
  method BuildGroupIds(m: Merge) returns (grid: array<int>, reduced: int)
    requires m.Valid()
    ensures fresh(grid) && grid[..] == GroupIds(m) && reduced == ReducedCount(m)
  {
    var n := m.Count();
    var drop := new bool[n](_ => false);
    forall j | 0 <= j < n && Dropped(m, j) { drop[j] := true; }
    grid := new int[n](_ => 0);
    reduced := 0;
    for j := 0 to n
      invariant reduced == Rank(m, j)
      invariant forall i: nat | i < n :: drop[i] == Dropped(m, i)
      invariant forall i: nat | i < j :: grid[i] == Rank(m, i + 1) - 1
    {
      if !drop[j] { reduced := reduced + 1; }
      grid[j] := reduced - 1;
    }
    forall j: nat | j < n && Dropped(m, j) ensures j >= m.rows && !Dropped(m, j - m.rows) { DroppedFollowsKept(m, j); }
    forall j | 0 <= j < n && Dropped(m, j) { grid[j] := grid[j - m.rows]; }
  }

  /** The scatter-mean: two zeroed accumulators, one pass of additions over the rows, one division. */
  method Reduce(ids: seq<nat>, reduced: nat, v: seq<Row>, width: nat) returns (result: array2<real>)
    requires Grouping(ids, reduced) && IsBlock(v, |ids|, width)
    ensures fresh(result) && result.Length0 == reduced && result.Length1 == width
    ensures forall g: nat, c: nat :: g < reduced && c < width ==>
              result[g, c] == ReduceRows(ids, reduced, v, width)[g][c]
  {
    result := new real[reduced, width]((_, _) => 0.0);
    var counts := new real[reduced](_ => 0.0);
    for j := 0 to |ids|
      invariant forall g: nat, c: nat :: g < reduced && c < width ==> result[g, c] == GroupSum(ids, v, width, g, c, j)
      invariant forall g: nat :: g < reduced ==> counts[g] == GroupSize(ids, g, j) as real
    {
      forall c | 0 <= c < width { result[ids[j], c] := result[ids[j], c] + v[j][c]; }
      counts[ids[j]] := counts[ids[j]] + 1.0;
    }
    forall g: nat | g < reduced ensures counts[g] != 0.0 { CountsArePositive(ids, reduced, g); }
    forall g, c | 0 <= g < reduced && 0 <= c < width { result[g, c] := result[g, c] / counts[g]; }
    forall g: nat, c: nat | g < reduced && c < width ensures result[g, c] == ReduceRows(ids, reduced, v, width)[g][c] {
      assert MeanRow(ids, reduced, v, width, g)[c] == Mean(ids, reduced, v, width, g, c);
    }
  }

  // ----- Layout, guards and splice

  datatype Segment = Segment(start: nat, stop: nat, kind: string)

  datatype Layout = Layout(latentFrames: Option<int>, segments: seq<Segment>)

  datatype VideoRows = VideoRows(start: nat, stop: nat, frames: nat, rows: nat)

  /** A video segment whose rows divide evenly into the frames. */
  predicate Fits(s: Segment, frames: nat)
    requires frames >= 2
  {
    s.kind == "video" && s.stop > s.start && (s.stop - s.start) % frames == 0
  }

  ghost predicate FirstFit(segments: seq<Segment>, frames: nat, k: nat)
    requires frames >= 2
  {
    k < |segments| && Fits(segments[k], frames) && forall i :: 0 <= i < k ==> !Fits(segments[i], frames)
  }

  function RowsOf(s: Segment, frames: nat): (r: VideoRows)
    requires frames >= 2 && Fits(s, frames)
    ensures r.rows >= 1 && r.start + frames * r.rows == r.stop
  {
    var rows := (s.stop - s.start) / frames;
    assert frames * rows == s.stop - s.start;
    VideoRows(s.start, s.stop, frames, rows)
  }

  function FirstVideo(segments: seq<Segment>, frames: nat): (r: Option<VideoRows>)
    requires frames >= 2
    ensures r.Some? ==> r.value.frames == frames && r.value.rows >= 1
                        && r.value.start + frames * r.value.rows == r.value.stop
  {
    if segments == [] then None
    else if Fits(segments[0], frames) then Some(RowsOf(segments[0], frames))
    else FirstVideo(segments[1..], frames)
  }

  /** The first video segment that divides evenly into at least two latent frames. */
  function VideoSegment(layout: Layout): (r: Option<VideoRows>)
    ensures r.Some? ==> r.value.frames >= 2 && r.value.rows >= 1
                        && r.value.start + r.value.frames * r.value.rows == r.value.stop
  {
    if layout.latentFrames.None? || layout.latentFrames.value < 2 then None
    else FirstVideo(layout.segments, layout.latentFrames.value)
  }

  lemma {:induction false} FirstVideoIsFirst(segments: seq<Segment>, frames: nat)
    requires frames >= 2
    ensures (forall s :: s in segments ==> !Fits(s, frames)) ==> FirstVideo(segments, frames) == None
    ensures forall k: nat :: FirstFit(segments, frames, k) ==>
              FirstVideo(segments, frames) == Some(RowsOf(segments[k], frames))
  {
    hide Fits, RowsOf;
    if segments != [] {
      FirstVideoIsFirst(segments[1..], frames);
      forall k: nat | k > 0 && FirstFit(segments, frames, k) ensures FirstFit(segments[1..], frames, k - 1) {
      }
    }
  }

  /** A video segment that is made of this many frames of one positive number of rows. */
  ghost predicate IsVideo(s: Segment, frames: nat) {
    s.kind == "video" && exists rows: nat :: rows >= 1 && s.stop == s.start + frames * rows
  }

  lemma FitsIff(s: Segment, frames: nat)
    requires frames >= 2
    ensures Fits(s, frames) <==> IsVideo(s, frames)
  {
    if Fits(s, frames) {
      var rows := RowsOf(s, frames).rows;
      assert rows >= 1 && s.stop == s.start + frames * rows;
    }
    if rows: nat :| s.kind == "video" && rows >= 1 && s.stop == s.start + frames * rows {
      MulAtLeast(rows, frames);
      DivModUnique(s.stop - s.start, frames, rows, 0);
    }
  }

  /** The chosen segment is the first video segment of whole frames; there is none exactly when no segment is one. */
  lemma VideoSegmentIs(layout: Layout, frames: nat)
    requires layout.latentFrames == Some(frames) && frames >= 2
    ensures var v := VideoSegment(layout);
            && (v == None <==> forall s :: s in layout.segments ==> !IsVideo(s, frames))
            && (v.Some? ==>
                  exists k: nat :: k < |layout.segments| && IsVideo(layout.segments[k], frames)
                                   && layout.segments[k].start == v.value.start
                                        && layout.segments[k].stop == v.value.stop
                                   && forall i :: 0 <= i < k ==> !IsVideo(layout.segments[i], frames))
  {
    forall s: Segment ensures Fits(s, frames) <==> IsVideo(s, frames) { FitsIff(s, frames); }
    hide Fits, IsVideo;
    FirstVideoAt(layout.segments, frames);
  }

  lemma {:induction false} FirstVideoAt(segments: seq<Segment>, frames: nat)
    requires frames >= 2
    ensures FirstVideo(segments, frames) == None ==> forall s :: s in segments ==> !Fits(s, frames)
    ensures FirstVideo(segments, frames).Some? ==>
              exists k: nat ::
                FirstFit(segments, frames, k) && FirstVideo(segments, frames) == Some(RowsOf(segments[k], frames))
  {
    hide Fits;
    if segments != [] {
      FirstVideoAt(segments[1..], frames);
      if Fits(segments[0], frames) {
        assert FirstFit(segments, frames, 0);
      } else if FirstVideo(segments[1..], frames).Some? {
        var k: nat :| FirstFit(segments[1..], frames, k)
                      && FirstVideo(segments[1..], frames) == Some(RowsOf(segments[1..][k], frames));
        assert FirstFit(segments, frames, k + 1);
      }
    }
  }

  /** Segments of other kinds, and video segments that do not divide evenly, are passed over. */
  lemma VideoSegmentIsFirst(layout: Layout)
    ensures layout.latentFrames.GetOr(0) < 2 ==> VideoSegment(layout) == None
    ensures layout.latentFrames.GetOr(0) >= 2 ==>
              var frames := layout.latentFrames.value;
              && ((forall s :: s in layout.segments ==> !Fits(s, frames)) ==> VideoSegment(layout) == None)
              && (forall k: nat :: FirstFit(layout.segments, frames, k) ==>
                    VideoSegment(layout) == Some(RowsOf(layout.segments[k], frames)))
  {
    if layout.latentFrames.GetOr(0) >= 2 {
      FirstVideoIsFirst(layout.segments, layout.latentFrames.value);
    }
  }

  datatype MergeOptions = MergeOptions(stepLimit: int, threshold: Option<real>)

  /** An absent or zero threshold means the default. */
  function Threshold(o: MergeOptions): real {
    if o.threshold.Some? && o.threshold.value != 0.0 then o.threshold.value else 0.985
  }

  function Decide(similarity: seq<seq<real>>, threshold: real): (pairs: seq<seq<bool>>)
    ensures |pairs| == |similarity|
    ensures forall p :: 0 <= p < |pairs| ==> |pairs[p]| == |similarity[p]|
  {
    seq(|similarity|, p requires 0 <= p < |similarity| =>
      seq(|similarity[p]|, i requires 0 <= i < |similarity[p]| => similarity[p][i] >= threshold))
  }

  datatype Plan = Plan(start: nat, stop: nat, merge: Merge)

  /** All the early returns of the merge. `similarity` holds one value per pair of adjacent frames and spatial row. */
  function MergePlan(o: MergeOptions, step: int, layout: Layout, similarity: seq<seq<real>>): (r: Option<Plan>)
    requires var s := VideoSegment(layout);
             s.Some? ==>
               && |similarity| == s.value.frames / 2
               && forall p :: 0 <= p < |similarity| ==> |similarity[p]| == s.value.rows
    ensures r.Some? ==> r.value.merge.Valid() && r.value.start + r.value.merge.Count() == r.value.stop
    ensures r.Some? ==>
              exists p, i :: 0 <= p < |r.value.merge.pairs| && 0 <= i < r.value.merge.rows && r.value.merge.pairs[p][i]
  {
    if o.stepLimit <= 0 || !(0.0 <= Threshold(o) <= 1.0) then None
    else if step < 0 || step >= o.stepLimit then None
    else
      match VideoSegment(layout)
      case None => None
      case Some(s) =>
        var pairs := Decide(similarity, Threshold(o));
        if exists p, i :: 0 <= p < |pairs| && 0 <= i < |pairs[p]| && pairs[p][i] then
          Some(Plan(s.start, s.stop, Merge(s.frames, s.rows, pairs)))
        else None
  }

  /** Row i of frame 2p + 1 is at least as similar to frame 2p as the threshold asks; an unset or zero one is 0.985. */
  predicate Merges(o: MergeOptions, similarity: seq<seq<real>>, p: nat, i: nat)
    requires p < |similarity| && i < |similarity[p]|
  {
    similarity[p][i] >= if o.threshold.Some? && o.threshold.value != 0.0 then o.threshold.value else 0.985
  }

  /**
   There is a plan exactly when merging is switched on for this step with a threshold in range,
     there is a video segment,
   and some row is similar enough; it merges the rows that are.
   */
  lemma MergePlanIff(o: MergeOptions, step: int, layout: Layout, similarity: seq<seq<real>>)
    requires var s := VideoSegment(layout);
             s.Some? ==>
               && |similarity| == s.value.frames / 2
               && forall p :: 0 <= p < |similarity| ==> |similarity[p]| == s.value.rows
    ensures var r, s := MergePlan(o, step, layout, similarity), VideoSegment(layout);
            && (r.Some? <==>
                  && o.stepLimit > 0 && 0 <= step < o.stepLimit && s.Some?
                  && (o.threshold.Some? ==> 0.0 <= o.threshold.value <= 1.0)
                  && exists p: nat, i: nat :: p < |similarity| && i < |similarity[p]| && Merges(o, similarity, p, i))
            && (r.Some? ==>
                  && r.value.start == s.value.start && r.value.stop == s.value.stop
                  && r.value.merge.frames == s.value.frames && r.value.merge.rows == s.value.rows
                  && |r.value.merge.pairs| == |similarity|
                  && forall p: nat, i: nat :: p < |similarity| && i < |similarity[p]| ==>
                       |r.value.merge.pairs[p]| == |similarity[p]|
                       && (r.value.merge.pairs[p][i] <==> Merges(o, similarity, p, i)))
  {
    var pairs := Decide(similarity, Threshold(o));
    assert forall p: nat, i: nat :: p < |similarity| && i < |similarity[p]| ==>
             (pairs[p][i] <==> Merges(o, similarity, p, i));
  }

  /** A plan always removes at least one row. */
  lemma PlanShortens(m: Merge, p: nat, i: nat)
    requires m.Valid() && p < |m.pairs| && i < m.rows && m.pairs[p][i]
    ensures ReducedCount(m) < m.Count()
  {
    var j := (2 * p + 1) * m.rows + i;
    MixBelow(2 * p + 1, i, m.rows, m.frames);
    DivModUnique(j, m.rows, 2 * p + 1, i);
    assert Dropped(m, j);
    RankAtMost(m, j);
    RankStep(m, j + 1, m.Count());
  }

  lemma {:induction false} RankAtMost(m: Merge, j: nat)
    requires m.Valid() && j <= m.Count()
    ensures Rank(m, j) <= j
  {
    if j > 0 { RankAtMost(m, j - 1); }
  }

  lemma {:induction false} RankStep(m: Merge, i: nat, j: nat)
    requires m.Valid() && i <= j <= m.Count()
    ensures Rank(m, j) <= Rank(m, i) + j - i
    decreases j
  {
    if i < j { RankStep(m, i, j - 1); }
  }

  function Join(value: seq<Row>, start: nat, stop: nat, reduced: seq<Row>): seq<Row>
    requires start <= stop <= |value|
  {
    value[..start] + reduced + value[stop..]
  }

  function MergeInto(plan: Plan, value: seq<Row>, width: nat): seq<Row>
    requires plan.merge.Valid() && plan.start + plan.merge.Count() == plan.stop <= |value|
    requires IsBlock(value, |value|, width)
  {
    RenumberingGroups(plan.merge);
    Join(value, plan.start, plan.stop,
         ReduceRows(GroupIds(plan.merge), ReducedCount(plan.merge), value[plan.start..plan.stop], width))
  }

  function Unmerge(plan: Plan, out: seq<Row>): seq<Row>
    requires plan.merge.Valid() && plan.start + ReducedCount(plan.merge) <= |out|
  {
    var reduced := ReducedCount(plan.merge);
    RenumberingGroups(plan.merge);
    out[..plan.start]
    + ExpandRows(GroupIds(plan.merge), reduced, out[plan.start..plan.start + reduced])
    + out[plan.start + reduced..]
  }

  /** Where row j of the full sequence sits in the merged one. */
  function Position(plan: Plan, j: nat): nat
    requires plan.merge.Valid() && plan.start + plan.merge.Count() == plan.stop
  {
    if j < plan.start then j
    else if j < plan.stop then plan.start + GroupIds(plan.merge)[j - plan.start]
    else j - plan.merge.Count() + ReducedCount(plan.merge)
  }

  /**
   The splice around any length-preserving attention: the output has the original length, every row reads the
   attention output at its position, and rows outside the video segment enter the attention unchanged there.
   */
  lemma SpliceKeepsPositions(plan: Plan, q: seq<Row>, k: seq<Row>, v: seq<Row>, width: nat,
                             attention: (seq<Row>, seq<Row>, seq<Row>) -> seq<Row>, j: nat)
    requires plan.merge.Valid() && plan.start + plan.merge.Count() == plan.stop <= |q|
    requires IsBlock(q, |q|, width) && IsBlock(k, |q|, width) && IsBlock(v, |q|, width)
    requires forall a, b, c :: |attention(a, b, c)| == |a|
    requires j < |q|
    ensures var q', k', v' := MergeInto(plan, q, width), MergeInto(plan, k, width), MergeInto(plan, v, width);
            var raw := attention(q', k', v');
            && |raw| == |q| - plan.merge.Count() + ReducedCount(plan.merge)
            && |Unmerge(plan, raw)| == |q|
            && Position(plan, j) < |raw|
            && Unmerge(plan, raw)[j] == raw[Position(plan, j)]
            && (j < plan.start || j >= plan.stop ==>
                  q'[Position(plan, j)] == q[j] && k'[Position(plan, j)] == k[j] && v'[Position(plan, j)] == v[j])
  {
    RenumberingGroups(plan.merge);
  }

  /** What a row of the video segment becomes: a dropped row shares its mate's place, a pair is averaged there. */
  lemma SpliceMeans(plan: Plan, value: seq<Row>, width: nat, k: nat, c: nat)
    requires plan.merge.Valid() && plan.start + plan.merge.Count() == plan.stop <= |value|
    requires IsBlock(value, |value|, width) && c < width
    requires k < plan.merge.Count() && !Dropped(plan.merge, k)
    ensures var m, merged, j := plan.merge, MergeInto(plan, value, width), plan.start + k;
            var mate := j + m.rows;
            && Position(plan, j) < |merged| && |merged[Position(plan, j)]| == width
            && if k + m.rows < m.Count() && Dropped(m, k + m.rows)
               then Position(plan, mate) == Position(plan, j)
                    && merged[Position(plan, j)][c] == (value[j][c] + value[mate][c]) / 2.0
               else merged[Position(plan, j)] == value[j]
  {
    var m := plan.merge;
    var ids, reduced, v := GroupIds(m), ReducedCount(m), value[plan.start..plan.stop];
    RenumberingGroups(m);
    KeptRowGroup(m, k);
    hide Dropped, ReducedCount, Grouping, Members, GroupIds;
    var z := ReduceRows(ids, reduced, v, width);
    assert MergeInto(plan, value, width)[Position(plan, plan.start + k)] == z[ids[k]];
    forall c: nat | c < width
      ensures z[ids[k]][c] == if Mate(m, k).Some? then (v[k][c] + v[Mate(m, k).value][c]) / 2.0 else v[k][c]
    {
      ExpandAfterReduce(ids, reduced, v, width, k, Mate(m, k), c);
    }
  }
}
