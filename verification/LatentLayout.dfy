/**
 The packed cache layout and the latent layout of H3. Tensors are row-major buffers with a shape, whatever their
 entries; the source's reshape, permute, reshape chains are modelled as such and then given in closed form.
 */
module LatentLayout {
  import opened Wrappers
  import opened Arith

  // ----- Row-major buffers of any entries

  function Size(shape: seq<nat>): nat {
    if shape == [] then 1 else Size(shape[..|shape| - 1]) * shape[|shape| - 1]
  }

  ghost predicate InShape(shape: seq<nat>, index: seq<nat>) {
    |index| == |shape| && forall i :: 0 <= i < |shape| ==> index[i] < shape[i]
  }

  /** The position of a multi-index in the buffer. */
  function Ravel(shape: seq<nat>, index: seq<nat>): nat
    requires |index| == |shape|
  {
    if shape == [] then 0
    else
      var n := |shape| - 1;
      Ravel(shape[..n], index[..n]) * shape[n] + index[n]
  }

  function Unravel(shape: seq<nat>, k: nat): (index: seq<nat>)
    requires k < Size(shape)
    ensures |index| == |shape|
  {
    if shape == [] then []
    else
      var n := |shape| - 1;
      DivBelow(k, shape[n], Size(shape[..n]));
      Unravel(shape[..n], k / shape[n]) + [k % shape[n]]
  }

  lemma {:induction false} RavelInBuffer(shape: seq<nat>, index: seq<nat>)
    requires InShape(shape, index)
    ensures Ravel(shape, index) < Size(shape)
  {
    if shape != [] {
      var n := |shape| - 1;
      RavelInBuffer(shape[..n], index[..n]);
      MixBelow(Ravel(shape[..n], index[..n]), index[n], shape[n], Size(shape[..n]));
    }
  }

  lemma {:induction false} UnravelRavel(shape: seq<nat>, index: seq<nat>)
    requires InShape(shape, index)
    ensures Ravel(shape, index) < Size(shape) && Unravel(shape, Ravel(shape, index)) == index
  {
    RavelInBuffer(shape, index);
    if shape != [] {
      var n := |shape| - 1;
      UnravelRavel(shape[..n], index[..n]);
      DivModUnique(Ravel(shape, index), shape[n], Ravel(shape[..n], index[..n]), index[n]);
      assert index == index[..n] + [index[n]];
    }
  }

  lemma {:induction false} RavelUnravel(shape: seq<nat>, k: nat)
    requires k < Size(shape)
    ensures InShape(shape, Unravel(shape, k)) && Ravel(shape, Unravel(shape, k)) == k
  {
    if shape != [] {
      var n := |shape| - 1;
      DivBelow(k, shape[n], Size(shape[..n]));
      RavelUnravel(shape[..n], k / shape[n]);
      DivModOf(k, shape[n]);
    }
  }

  datatype Buffer<T> = Buffer(shape: seq<nat>, data: seq<T>) {

    ghost predicate Valid() {
      |data| == Size(shape)
    }

    ghost function At(index: seq<nat>): T
      requires Valid() && InShape(shape, index)
    {
      RavelInBuffer(shape, index);
      data[Ravel(shape, index)]
    }
  }

  function Reshape<T>(t: Buffer<T>, shape: seq<nat>): (r: Buffer<T>)
    requires t.Valid() && Size(shape) == Size(t.shape)
    ensures r.Valid()
  {
    Buffer(shape, t.data)
  }

  /** A permutation of n axes with its inverse. */
  ghost predicate IsPermutation(perm: seq<nat>, inverse: seq<nat>, n: nat) {
    && |perm| == |inverse| == n
    && (forall i :: 0 <= i < n ==> perm[i] < n && inverse[perm[i]] == i)
    && (forall i :: 0 <= i < n ==> inverse[i] < n && perm[inverse[i]] == i)
  }

  function Reorder(s: seq<nat>, order: seq<nat>): (r: seq<nat>)
    requires |order| == |s| && forall i :: 0 <= i < |s| ==> order[i] < |s|
    ensures |r| == |s| && forall i :: 0 <= i < |s| ==> r[i] == s[order[i]]
  {
    seq(|s|, i requires 0 <= i < |s| => s[order[i]])
  }

  lemma BackInShape(shape: seq<nat>, perm: seq<nat>, inverse: seq<nat>, index: seq<nat>)
    requires IsPermutation(perm, inverse, |shape|) && InShape(Reorder(shape, perm), index)
    ensures InShape(shape, Reorder(index, inverse))
  {
    forall i | 0 <= i < |shape| ensures Reorder(index, inverse)[i] < shape[i] {
      assert index[inverse[i]] < Reorder(shape, perm)[inverse[i]];
    }
  }

  /** Axis i of the result is axis perm[i] of the input. */
  function Permute<T>(t: Buffer<T>, perm: seq<nat>, inverse: seq<nat>): (r: Buffer<T>)
    requires t.Valid() && IsPermutation(perm, inverse, |t.shape|)
    ensures r.Valid() && r.shape == Reorder(t.shape, perm)
  {
    var shape := Reorder(t.shape, perm);
    Buffer(shape, seq(Size(shape), k requires 0 <= k < Size(shape) =>
      (RavelUnravel(shape, k);
       BackInShape(t.shape, perm, inverse, Unravel(shape, k));
       RavelInBuffer(t.shape, Reorder(Unravel(shape, k), inverse));
       t.data[Ravel(t.shape, Reorder(Unravel(shape, k), inverse))])))
  }

  lemma PermuteAt<T>(t: Buffer<T>, perm: seq<nat>, inverse: seq<nat>, index: seq<nat>)
    requires t.Valid() && IsPermutation(perm, inverse, |t.shape|) && InShape(Reorder(t.shape, perm), index)
    ensures InShape(t.shape, Reorder(index, inverse))
    ensures Permute(t, perm, inverse).At(index) == t.At(Reorder(index, inverse))
  {
    BackInShape(t.shape, perm, inverse, index);
    UnravelRavel(Reorder(t.shape, perm), index);
  }

  // ----- Ravel of the shapes that occur

  lemma RavelStep(shape: seq<nat>, index: seq<nat>, d: nat, x: nat)
    requires |shape| == |index|
    ensures Ravel(shape + [d], index + [x]) == Ravel(shape, index) * d + x
    ensures Size(shape + [d]) == Size(shape) * d
  {
    assert (shape + [d])[..|shape|] == shape && (index + [x])[..|index|] == index;
  }

  lemma Ravel2(a: nat, b: nat, i: nat, j: nat)
    ensures Ravel([a, b], [i, j]) == i * b + j && Size([a, b]) == a * b
  {
    RavelStep([], [], a, i);
    RavelStep([a], [i], b, j);
    assert [] + [a] == [a] && [] + [i] == [i] && [a] + [b] == [a, b] && [i] + [j] == [i, j];
  }

  lemma Ravel3(a: nat, b: nat, c: nat, i: nat, j: nat, k: nat)
    ensures Ravel([a, b, c], [i, j, k]) == (i * b + j) * c + k && Size([a, b, c]) == a * b * c
  {
    Ravel2(a, b, i, j);
    RavelStep([a, b], [i, j], c, k);
    assert [a, b] + [c] == [a, b, c] && [i, j] + [k] == [i, j, k];
  }

  lemma Ravel4(a: nat, b: nat, c: nat, d: nat, i: nat, j: nat, k: nat, l: nat)
    ensures Ravel([a, b, c, d], [i, j, k, l]) == ((i * b + j) * c + k) * d + l && Size([a, b, c, d]) == a * b * c * d
  {
    Ravel3(a, b, c, i, j, k);
    RavelStep([a, b, c], [i, j, k], d, l);
    assert [a, b, c] + [d] == [a, b, c, d] && [i, j, k] + [l] == [i, j, k, l];
  }

  lemma Ravel5(a: nat, b: nat, c: nat, d: nat, e: nat, i: nat, j: nat, k: nat, l: nat, m: nat)
    ensures Ravel([a, b, c, d, e], [i, j, k, l, m]) == (((i * b + j) * c + k) * d + l) * e + m
    ensures Size([a, b, c, d, e]) == a * b * c * d * e
  {
    Ravel4(a, b, c, d, i, j, k, l);
    RavelStep([a, b, c, d], [i, j, k, l], e, m);
    assert [a, b, c, d] + [e] == [a, b, c, d, e] && [i, j, k, l] + [m] == [i, j, k, l, m];
  }

  lemma Ravel7(a: nat, b: nat, c: nat, d: nat, e: nat, f: nat, g: nat,
               i: nat, j: nat, k: nat, l: nat, m: nat, n: nat, o: nat)
    ensures Ravel([a, b, c, d, e, f, g], [i, j, k, l, m, n, o])
            == (((((i * b + j) * c + k) * d + l) * e + m) * f + n) * g + o
    ensures Size([a, b, c, d, e, f, g]) == a * b * c * d * e * f * g
  {
    Ravel5(a, b, c, d, e, i, j, k, l, m);
    RavelStep([a, b, c, d, e], [i, j, k, l, m], f, n);
    RavelStep([a, b, c, d, e, f], [i, j, k, l, m, n], g, o);
    assert [a, b, c, d, e] + [f] == [a, b, c, d, e, f] && [i, j, k, l, m] + [n] == [i, j, k, l, m, n];
    assert [a, b, c, d, e, f] + [g] == [a, b, c, d, e, f, g] && [i, j, k, l, m, n] + [o] == [i, j, k, l, m, n, o];
  }

  // ----- Video

  const VIDEO_AXES: seq<nat> := [3, 0, 4, 1, 5, 2, 6]
  const VIDEO_AXES_BACK: seq<nat> := [1, 3, 5, 0, 2, 4, 6]

  lemma VideoSizes(frames: nat, side: nat)
    ensures Size([frames, side, side, 24, 1, 2, 2]) == Size([frames * side * side, 96])
    ensures Size([24, frames, 1, side, 2, side, 2]) == Size([1, 24, frames, 2 * side, 2 * side])
    ensures Reorder([frames, side, side, 24, 1, 2, 2], VIDEO_AXES) == [24, frames, 1, side, 2, side, 2]
  {
    Ravel7(frames, side, side, 24, 1, 2, 2, 0, 0, 0, 0, 0, 0, 0);
    Ravel2(frames * side * side, 96, 0, 0);
    Ravel7(24, frames, 1, side, 2, side, 2, 0, 0, 0, 0, 0, 0, 0);
    Ravel5(1, 24, frames, 2 * side, 2 * side, 0, 0, 0, 0, 0);
    var a := 24 * frames;
    assert a * side * 2 == a * (2 * side);
    assert a * (2 * side) * side * 2 == a * (2 * side) * (2 * side);
  }

  /** The reshape, permute, reshape chain of the video unpatch. */
  function VideoChain<T>(rows: Buffer<T>, frames: nat, side: nat): (r: Buffer<T>)
    requires rows.Valid() && rows.shape == [frames * side * side, 96]
    ensures r.Valid() && r.shape == [1, 24, frames, 2 * side, 2 * side]
  {
    VideoSizes(frames, side);
    Reshape(Permute(Reshape(rows, [frames, side, side, 24, 1, 2, 2]), VIDEO_AXES, VIDEO_AXES_BACK),
            [1, 24, frames, 2 * side, 2 * side])
  }

  /** The cache row of patch (f, y, x) and the cache column of entry (c, dy, dx). */
  function PatchRow(side: nat, f: nat, y: nat, x: nat): nat {
    (f * side + y) * side + x
  }

  function PatchColumn(c: nat, dy: nat, dx: nat): nat {
    (c * 2 + dy) * 2 + dx
  }

  ghost predicate IsPatch(frames: nat, side: nat, f: nat, y: nat, x: nat, c: nat, dy: nat, dx: nat) {
    f < frames && y < side && x < side && c < 24 && dy < 2 && dx < 2
  }

  lemma PatchInCache(frames: nat, side: nat, f: nat, y: nat, x: nat, c: nat, dy: nat, dx: nat)
    requires IsPatch(frames, side, f, y, x, c, dy, dx)
    ensures InShape([frames * side * side, 96], [PatchRow(side, f, y, x), PatchColumn(c, dy, dx)])
    ensures InShape([1, 24, frames, 2 * side, 2 * side], [0, c, f, 2 * y + dy, 2 * x + dx])
  {
    MixBelow(f, y, side, frames);
    MixBelow(f * side + y, x, side, frames * side);
  }

  /** Row (f,y,x), column (c,dy,dx) of the cache lands on (c, f, 2y+dy, 2x+dx) of the latent. */
  lemma VideoChainCell<T>(rows: Buffer<T>, frames: nat, side: nat, f: nat, y: nat, x: nat, c: nat, dy: nat, dx: nat)
    requires rows.Valid() && rows.shape == [frames * side * side, 96] && IsPatch(frames, side, f, y, x, c, dy, dx)
    ensures InShape(rows.shape, [PatchRow(side, f, y, x), PatchColumn(c, dy, dx)])
    ensures InShape([1, 24, frames, 2 * side, 2 * side], [0, c, f, 2 * y + dy, 2 * x + dx])
    ensures VideoChain(rows, frames, side).At([0, c, f, 2 * y + dy, 2 * x + dx])
            == rows.At([PatchRow(side, f, y, x), PatchColumn(c, dy, dx)])
    ensures PatchRow(side, f, y, x) == (f * side + y) * side + x && PatchColumn(c, dy, dx) == 4 * c + 2 * dy + dx
  {
    assert PatchRow(side, f, y, x) == (f * side + y) * side + x && PatchColumn(c, dy, dx) == 4 * c + 2 * dy + dx;
    hide Size, Ravel, PatchRow, PatchColumn;
    PatchInCache(frames, side, f, y, x, c, dy, dx);
    VideoSizes(frames, side);
    var cut := Reshape(rows, [frames, side, side, 24, 1, 2, 2]);
    var there, back := [c, f, 0, y, dy, x, dx], [f, y, x, c, 0, dy, dx];
    assert Reorder(there, VIDEO_AXES_BACK) == back;
    assert InShape([24, frames, 1, side, 2, side, 2], there);
    PermuteAt(cut, VIDEO_AXES, VIDEO_AXES_BACK, there);
    SourcePosition(frames, side, f, y, x, c, dy, dx);
    TargetPosition(frames, side, f, y, x, c, dy, dx);
  }

  lemma SourcePosition(frames: nat, side: nat, f: nat, y: nat, x: nat, c: nat, dy: nat, dx: nat)
    ensures Ravel([frames, side, side, 24, 1, 2, 2], [f, y, x, c, 0, dy, dx])
            == Ravel([frames * side * side, 96], [PatchRow(side, f, y, x), PatchColumn(c, dy, dx)])
  {
    Ravel7(frames, side, side, 24, 1, 2, 2, f, y, x, c, 0, dy, dx);
    Ravel2(frames * side * side, 96, PatchRow(side, f, y, x), PatchColumn(c, dy, dx));
  }

  lemma TargetPosition(frames: nat, side: nat, f: nat, y: nat, x: nat, c: nat, dy: nat, dx: nat)
    ensures Ravel([24, frames, 1, side, 2, side, 2], [c, f, 0, y, dy, x, dx])
            == Ravel([1, 24, frames, 2 * side, 2 * side], [0, c, f, 2 * y + dy, 2 * x + dx])
  {
    Ravel7(24, frames, 1, side, 2, side, 2, c, f, 0, y, dy, x, dx);
    Ravel5(1, 24, frames, 2 * side, 2 * side, 0, c, f, 2 * y + dy, 2 * x + dx);
    var a := c * frames + f;
    assert a * (2 * side) == (a * side) * 2;
    var b := a * (2 * side) + (2 * y + dy);
    assert b == (a * side + y) * 2 + dy;
    assert b * (2 * side) == (b * side) * 2;
  }

  // ----- The two directions of the video layout

  datatype CacheCell = CacheCell(row: nat, column: nat)
  datatype LatentCell = LatentCell(channel: nat, frame: nat, y: nat, x: nat)

  predicate InVideoCache(cell: CacheCell, frames: nat, side: nat) {
    cell.row < frames * side * side && cell.column < 96
  }

  predicate InVideoLatent(cell: LatentCell, frames: nat, side: nat) {
    cell.channel < 24 && cell.frame < frames && cell.y < 2 * side && cell.x < 2 * side
  }

  /** Where the entry of a latent cell is stored in the cache. */
  function VideoSource(cell: LatentCell, side: nat): CacheCell {
    CacheCell(PatchRow(side, cell.frame, cell.y / 2, cell.x / 2), PatchColumn(cell.channel, cell.y % 2, cell.x % 2))
  }

  /** Where the entry of a cache cell lands in the latent. */
  function VideoTarget(cell: CacheCell, side: nat): LatentCell
    requires side > 0
  {
    LatentCell(cell.column / 4, cell.row / side / side,
               2 * (cell.row / side % side) + cell.column / 2 % 2, 2 * (cell.row % side) + cell.column % 2)
  }

  lemma ColumnTargetOfSource(c: nat, dy: nat, dx: nat)
    requires dy < 2 && dx < 2
    ensures var column := PatchColumn(c, dy, dx); column / 4 == c && column / 2 % 2 == dy && column % 2 == dx
  {
    var column := PatchColumn(c, dy, dx);
    DivModUnique(column, 4, c, 2 * dy + dx);
    DivModUnique(column, 2, c * 2 + dy, dx);
    DivModUnique(c * 2 + dy, 2, c, dy);
  }

  lemma VideoTargetOfSource(cell: LatentCell, frames: nat, side: nat)
    requires InVideoLatent(cell, frames, side)
    ensures side > 0 && InVideoCache(VideoSource(cell, side), frames, side)
    ensures VideoTarget(VideoSource(cell, side), side) == cell
  {
    var f, y, x := cell.frame, cell.y / 2, cell.x / 2;
    MixBelow(f, y, side, frames);
    MixBelow(f * side + y, x, side, frames * side);
    DivModUnique(PatchRow(side, f, y, x), side, f * side + y, x);
    DivModUnique(f * side + y, side, f, y);
    ColumnTargetOfSource(cell.channel, cell.y % 2, cell.x % 2);
  }

  lemma VideoSourceIs(cell: LatentCell, side: nat)
    ensures VideoSource(cell, side).row == (cell.frame * side + cell.y / 2) * side + cell.x / 2
            && VideoSource(cell, side).column == (cell.channel * 2 + cell.y % 2) * 2 + cell.x % 2
  {
  }

  lemma HalfOf(half: nat, bit: nat)
    requires bit < 2
    ensures (2 * half + bit) / 2 == half && (2 * half + bit) % 2 == bit
  {
  }

  lemma VideoSourceOfTarget(cell: CacheCell, frames: nat, side: nat)
    requires InVideoCache(cell, frames, side)
    ensures side > 0 && InVideoLatent(VideoTarget(cell, side), frames, side)
    ensures VideoSource(VideoTarget(cell, side), side) == cell
  {
    assert side == 0 ==> frames * side * side == 0;
    DivBelow(cell.row, side, frames * side);
    DivBelow(cell.row / side, side, frames);
    DivModOf(cell.row, side);
    DivModOf(cell.row / side, side);
    HalfOf(cell.row / side % side, cell.column / 2 % 2);
    HalfOf(cell.row % side, cell.column % 2);
  }

  // ----- The unpatch entry point of the adapter

  datatype LayoutError = WrongCacheShape | FramesNotPositive | RowsNotDivisible | NotSquareGrid

  /** The integer square root. */
  function ISqrt(n: nat): (r: nat)
    ensures r * r <= n < (r + 1) * (r + 1)
  {
    if n == 0 then 0
    else
      var r := ISqrt(n - 1);
      if (r + 1) * (r + 1) <= n then r + 1 else r
  }

  lemma SquareBelow(a: nat, b: nat)
    requires a < b
    ensures (a + 1) * (a + 1) <= b * b
  {
    MulMonotone(a + 1, b, a + 1);
    MulMonotone(a + 1, b, b);
    assert (a + 1) * b == b * (a + 1);
  }

  lemma RootIsUnique(n: nat, a: nat, b: nat)
    requires a * a <= n < (a + 1) * (a + 1)
    requires b * b <= n < (b + 1) * (b + 1)
    ensures a == b
  {
    if a < b { SquareBelow(a, b); }
    if b < a { SquareBelow(b, a); }
  }

  lemma RootOfSquare(side: nat)
    ensures ISqrt(side * side) == side
  {
    assert (side + 1) * (side + 1) == side * side + 2 * side + 1;
    RootIsUnique(side * side, ISqrt(side * side), side);
  }

  function UnpatchVideo<T>(rows: Buffer<T>, latentFrames: int): (r: Result<Buffer<T>, LayoutError>)
    requires rows.Valid()
    ensures r.Ok? ==> r.value.Valid()
  {
    if |rows.shape| != 2 || rows.shape[1] != 96 then Err(WrongCacheShape)
    else if latentFrames <= 0 then Err(FramesNotPositive)
    else if rows.shape[0] % latentFrames != 0 then Err(RowsNotDivisible)
    else
      var perFrame := rows.shape[0] / latentFrames;
      var side := ISqrt(perFrame);
      if side * side != perFrame then Err(NotSquareGrid)
      else
        DivModOf(rows.shape[0], latentFrames);
        assert latentFrames * side * side == latentFrames * perFrame;
        assert rows.shape == [latentFrames * side * side, 96];
        Ok(VideoChain(rows, latentFrames, side))
  }

  /** The unpatch accepts exactly the caches that hold a square patch grid for each of the frames. */
  lemma UnpatchVideoAccepts<T>(rows: Buffer<T>, latentFrames: int)
    requires rows.Valid()
    ensures UnpatchVideo(rows, latentFrames).Ok? <==>
            latentFrames > 0 && exists side: nat :: rows.shape == [latentFrames * side * side, 96]
    ensures var r, isCache := UnpatchVideo(rows, latentFrames), |rows.shape| == 2 && rows.shape[1] == 96;
            && (r == Err(WrongCacheShape) <==> !isCache)
            && (r == Err(FramesNotPositive) <==> isCache && latentFrames <= 0)
            && (r == Err(RowsNotDivisible) <==> isCache && latentFrames > 0 && rows.shape[0] % latentFrames != 0)
  {
    if latentFrames > 0 {
      if side: nat :| rows.shape == [latentFrames * side * side, 96] {
        UnpatchVideoIsChain(rows, latentFrames, side);
      }
      if UnpatchVideo(rows, latentFrames).Ok? {
        var perFrame := rows.shape[0] / latentFrames;
        var side := ISqrt(perFrame);
        DivModOf(rows.shape[0], latentFrames);
        assert latentFrames * side * side == latentFrames * perFrame;
        assert rows.shape == [latentFrames * side * side, 96];
      }
    }
  }

  lemma UnpatchVideoIsChain<T>(rows: Buffer<T>, frames: nat, side: nat)
    requires rows.Valid() && frames > 0 && rows.shape == [frames * side * side, 96]
    ensures UnpatchVideo(rows, frames) == Ok(VideoChain(rows, frames, side))
  {
    assert frames * side * side == (side * side) * frames + 0;
    DivModUnique(rows.shape[0], frames, side * side, 0);
    RootOfSquare(side);
  }

  /** What the unpatch does to the entries: a bijection between cache cells and latent cells. */
  ghost predicate MovesVideo<T>(rows: Buffer<T>, out: Buffer<T>, frames: nat, side: nat) {
    && rows.Valid() && rows.shape == [frames * side * side, 96]
    && out.Valid() && out.shape == [1, 24, frames, 2 * side, 2 * side]
    && (forall cell: LatentCell :: InVideoLatent(cell, frames, side) ==>
          && InVideoCache(VideoSource(cell, side), frames, side)
          && VideoTarget(VideoSource(cell, side), side) == cell
          && VideoSource(cell, side).row == (cell.frame * side + cell.y / 2) * side + cell.x / 2
          && VideoSource(cell, side).column == (cell.channel * 2 + cell.y % 2) * 2 + cell.x % 2
          && out.At([0, cell.channel, cell.frame, cell.y, cell.x])
             == rows.At([VideoSource(cell, side).row, VideoSource(cell, side).column]))
    && (forall cell: CacheCell :: InVideoCache(cell, frames, side) ==>
          && side > 0 && InVideoLatent(VideoTarget(cell, side), frames, side)
          && VideoSource(VideoTarget(cell, side), side) == cell)
  }

  lemma UnpatchVideoIsBijection<T>(rows: Buffer<T>, frames: nat, side: nat)
    requires rows.Valid() && frames > 0 && rows.shape == [frames * side * side, 96]
    ensures UnpatchVideo(rows, frames).Ok? && MovesVideo(rows, UnpatchVideo(rows, frames).value, frames, side)
  {
    UnpatchVideoIsChain(rows, frames, side);
    ChainMovesVideo(rows, frames, side);
  }

  lemma VideoCellMoves<T>(rows: Buffer<T>, frames: nat, side: nat, cell: LatentCell)
    requires rows.Valid() && rows.shape == [frames * side * side, 96] && InVideoLatent(cell, frames, side)
    ensures InShape([1, 24, frames, 2 * side, 2 * side], [0, cell.channel, cell.frame, cell.y, cell.x])
    ensures InShape(rows.shape, [VideoSource(cell, side).row, VideoSource(cell, side).column])
    ensures VideoChain(rows, frames, side).At([0, cell.channel, cell.frame, cell.y, cell.x])
            == rows.At([VideoSource(cell, side).row, VideoSource(cell, side).column])
  {
    hide Size, Ravel, PatchRow, PatchColumn, VideoChain;
    VideoChainCell(rows, frames, side, cell.frame, cell.y / 2, cell.x / 2, cell.channel, cell.y % 2, cell.x % 2);
  }

  lemma ChainMovesVideo<T>(rows: Buffer<T>, frames: nat, side: nat)
    requires rows.Valid() && rows.shape == [frames * side * side, 96]
    ensures MovesVideo(rows, VideoChain(rows, frames, side), frames, side)
  {
    hide Size, Ravel, VideoChain, VideoSource, VideoTarget;
    var out := VideoChain(rows, frames, side);
    forall cell: LatentCell | InVideoLatent(cell, frames, side)
      ensures InVideoCache(VideoSource(cell, side), frames, side)
      ensures VideoTarget(VideoSource(cell, side), side) == cell
      ensures VideoSource(cell, side).row == (cell.frame * side + cell.y / 2) * side + cell.x / 2
              && VideoSource(cell, side).column == (cell.channel * 2 + cell.y % 2) * 2 + cell.x % 2
      ensures out.At([0, cell.channel, cell.frame, cell.y, cell.x])
              == rows.At([VideoSource(cell, side).row, VideoSource(cell, side).column])
    {
      VideoTargetOfSource(cell, frames, side);
      VideoSourceIs(cell, side);
      VideoCellMoves(rows, frames, side, cell);
    }
    forall cell: CacheCell | InVideoCache(cell, frames, side)
      ensures side > 0 && InVideoLatent(VideoTarget(cell, side), frames, side)
      ensures VideoSource(VideoTarget(cell, side), side) == cell
    {
      VideoSourceOfTarget(cell, frames, side);
    }
  }

  // ----- Audio

  const AUDIO_AXES: seq<nat> := [2, 0, 1]
  const AUDIO_AXES_BACK: seq<nat> := [1, 2, 0]

  lemma AudioSizes(frames: nat)
    ensures Size([2, frames, 32]) == Size([2 * frames, 32])
    ensures Size([32, 2, frames]) == Size([1, 32, 2, frames])
    ensures Reorder([2, frames, 32], AUDIO_AXES) == [32, 2, frames]
  {
    Ravel3(2, frames, 32, 0, 0, 0);
    Ravel2(2 * frames, 32, 0, 0);
    Ravel3(32, 2, frames, 0, 0, 0);
    Ravel4(1, 32, 2, frames, 0, 0, 0, 0);
  }

  /** The reshape, permute, unsqueeze chain of the audio unpack. */
  function AudioChain<T>(rows: Buffer<T>, frames: nat): (r: Buffer<T>)
    requires rows.Valid() && rows.shape == [2 * frames, 32]
    ensures r.Valid() && r.shape == [1, 32, 2, frames]
  {
    AudioSizes(frames);
    Reshape(Permute(Reshape(rows, [2, frames, 32]), AUDIO_AXES, AUDIO_AXES_BACK), [1, 32, 2, frames])
  }

  function UnpackAudio<T>(rows: Buffer<T>): (r: Result<Buffer<T>, LayoutError>)
    requires rows.Valid()
    ensures r.Ok? ==> r.value.Valid()
  {
    if |rows.shape| != 2 || rows.shape[1] != 32 || rows.shape[0] % 2 != 0 then Err(WrongCacheShape)
    else
      var frames := rows.shape[0] / 2;
      assert rows.shape == [2 * frames, 32];
      Ok(AudioChain(rows, frames))
  }

  datatype AudioCell = AudioCell(column: nat, stream: nat, frame: nat)

  predicate InAudioCache(cell: CacheCell, frames: nat) {
    cell.row < 2 * frames && cell.column < 32
  }

  predicate InAudioLatent(cell: AudioCell, frames: nat) {
    cell.column < 32 && cell.stream < 2 && cell.frame < frames
  }

  function AudioSource(cell: AudioCell, frames: nat): CacheCell {
    CacheCell(cell.stream * frames + cell.frame, cell.column)
  }

  function AudioTarget(cell: CacheCell, frames: nat): AudioCell
    requires frames > 0
  {
    AudioCell(cell.column, cell.row / frames, cell.row % frames)
  }

  lemma AudioTargetOfSource(cell: AudioCell, frames: nat)
    requires InAudioLatent(cell, frames)
    ensures InAudioCache(AudioSource(cell, frames), frames)
    ensures AudioTarget(AudioSource(cell, frames), frames) == cell
  {
    MixBelow(cell.stream, cell.frame, frames, 2);
    DivModUnique(cell.stream * frames + cell.frame, frames, cell.stream, cell.frame);
  }

  lemma AudioSourceOfTarget(cell: CacheCell, frames: nat)
    requires InAudioCache(cell, frames)
    ensures frames > 0 && InAudioLatent(AudioTarget(cell, frames), frames)
    ensures AudioSource(AudioTarget(cell, frames), frames) == cell
  {
    DivBelow(cell.row, frames, 2);
    DivModOf(cell.row, frames);
  }

  /** Audio row s * frames + f, column d holds stream s of frame f: each cache cell once, each latent cell once. */
  ghost predicate MovesAudio<T>(rows: Buffer<T>, out: Buffer<T>, frames: nat) {
    && rows.Valid() && rows.shape == [2 * frames, 32]
    && out.Valid() && out.shape == [1, 32, 2, frames]
    && (forall cell: AudioCell :: InAudioLatent(cell, frames) ==>
          && InAudioCache(AudioSource(cell, frames), frames)
          && AudioTarget(AudioSource(cell, frames), frames) == cell
          && AudioSource(cell, frames).row == cell.stream * frames + cell.frame
               && AudioSource(cell, frames).column == cell.column
          && out.At([0, cell.column, cell.stream, cell.frame])
             == rows.At([AudioSource(cell, frames).row, AudioSource(cell, frames).column]))
    && (forall cell: CacheCell :: InAudioCache(cell, frames) ==>
          && frames > 0 && InAudioLatent(AudioTarget(cell, frames), frames)
          && AudioSource(AudioTarget(cell, frames), frames) == cell)
  }

  lemma AudioChainCell<T>(rows: Buffer<T>, frames: nat, d: nat, s: nat, f: nat)
    requires rows.Valid() && rows.shape == [2 * frames, 32] && d < 32 && s < 2 && f < frames
    ensures s * frames + f < 2 * frames
    ensures AudioChain(rows, frames).At([0, d, s, f]) == rows.At([s * frames + f, d])
  {
    hide Size, Ravel;
    MixBelow(s, f, frames, 2);
    AudioSizes(frames);
    var cut := Reshape(rows, [2, frames, 32]);
    assert Reorder([d, s, f], AUDIO_AXES_BACK) == [s, f, d];
    assert InShape([32, 2, frames], [d, s, f]);
    PermuteAt(cut, AUDIO_AXES, AUDIO_AXES_BACK, [d, s, f]);
    Ravel3(2, frames, 32, s, f, d);
    Ravel2(2 * frames, 32, s * frames + f, d);
    Ravel3(32, 2, frames, d, s, f);
    Ravel4(1, 32, 2, frames, 0, d, s, f);
  }

  /** The unpack accepts exactly the caches of two streams of 32 columns, and moves every cell once. */
  lemma UnpackAudioIsBijection<T>(rows: Buffer<T>)
    requires rows.Valid()
    ensures UnpackAudio(rows).Ok? <==> exists frames: nat :: rows.shape == [2 * frames, 32]
    ensures UnpackAudio(rows).Ok? ==> MovesAudio(rows, UnpackAudio(rows).value, rows.shape[0] / 2)
  {
    if UnpackAudio(rows).Ok? {
      var frames := rows.shape[0] / 2;
      assert rows.shape == [2 * frames, 32];
      ChainMovesAudio(rows, frames);
    }
  }

  lemma ChainMovesAudio<T>(rows: Buffer<T>, frames: nat)
    requires rows.Valid() && rows.shape == [2 * frames, 32]
    ensures MovesAudio(rows, AudioChain(rows, frames), frames)
  {
    var out := AudioChain(rows, frames);
    forall cell: AudioCell | InAudioLatent(cell, frames)
      ensures InAudioCache(AudioSource(cell, frames), frames)
      ensures AudioTarget(AudioSource(cell, frames), frames) == cell
      ensures out.At([0, cell.column, cell.stream, cell.frame])
              == rows.At([AudioSource(cell, frames).row, AudioSource(cell, frames).column])
    {
      AudioTargetOfSource(cell, frames);
      AudioChainCell(rows, frames, cell.column, cell.stream, cell.frame);
    }
    forall cell: CacheCell | InAudioCache(cell, frames)
      ensures frames > 0 && InAudioLatent(AudioTarget(cell, frames), frames)
      ensures AudioSource(AudioTarget(cell, frames), frames) == cell
    {
      AudioSourceOfTarget(cell, frames);
    }
  }

  // ----- The worker's fixed sizes

  const WORKER_FRAMES: nat := 5
  const WORKER_SIDE: nat := 8
  const WORKER_AUDIO_FRAMES: nat := 37

  /** The worker writes the sizes out; the reshape raises on a cache of any other element count. */
  function WorkerUnpatchVideo<T>(rows: Buffer<T>): Option<Buffer<T>>
    requires rows.Valid()
  {
    if Size(rows.shape) != Size([5, 8, 8, 24, 1, 2, 2]) then None
    else
      VideoSizes(5, 8);
      Some(Reshape(Permute(Reshape(rows, [5, 8, 8, 24, 1, 2, 2]), VIDEO_AXES, VIDEO_AXES_BACK), [1, 24, 5, 16, 16]))
  }

  function WorkerUnpackAudio<T>(rows: Buffer<T>): Option<Buffer<T>>
    requires rows.Valid()
  {
    if Size(rows.shape) != Size([2, 37, 32]) then None
    else
      AudioSizes(37);
      Some(Reshape(Permute(Reshape(rows, [2, 37, 32]), AUDIO_AXES, AUDIO_AXES_BACK), [1, 32, 2, 37]))
  }

  /** On the worker's cache shapes both programs unpack alike. */
  lemma WorkerVideoAgrees<T>(rows: Buffer<T>)
    requires rows.Valid() && rows.shape == [320, 96]
    ensures UnpatchVideo(rows, WORKER_FRAMES).Ok?
    ensures WorkerUnpatchVideo(rows) == Some(UnpatchVideo(rows, WORKER_FRAMES).value)
    ensures MovesVideo(rows, UnpatchVideo(rows, WORKER_FRAMES).value, WORKER_FRAMES, WORKER_SIDE)
  {
    hide Size, Permute, Reshape, MovesVideo, Reorder;
    UnpatchVideoIsBijection(rows, 5, 8);
    UnpatchVideoIsChain(rows, 5, 8);
    VideoSizes(5, 8);
  }

  lemma WorkerAudioAgrees<T>(rows: Buffer<T>)
    requires rows.Valid() && rows.shape == [74, 32]
    ensures UnpackAudio(rows).Ok?
    ensures WorkerUnpackAudio(rows) == Some(UnpackAudio(rows).value)
    ensures MovesAudio(rows, UnpackAudio(rows).value, WORKER_AUDIO_FRAMES)
  {
    hide Size, Permute, Reshape, MovesAudio, Reorder;
    UnpackAudioIsBijection(rows);
    AudioSizes(37);
  }
}
