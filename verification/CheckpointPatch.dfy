/**
 In-place patching of a safetensors file and the verifier of the result. A file is eight little-endian length
 bytes, a JSON header of that length, and the tensor bytes; the header's JSON is parsed by an arbitrary function.
 */
module CheckpointPatch {
  import opened Wrappers
  import opened Arith

  type Byte = x: int | 0 <= x < 256
  type Bytes = seq<Byte>

  /** A number of a header, as it compares: integers, floats and truth values of one value are equal. */
  datatype Numeral = Finite(real) | Infinite(positive: bool) | NotANumber

  /** Parsed JSON as it compares; a parse makes one object of every NaN, so that two of them are the same one. */
  datatype Json = Null | Number(Numeral) | Text(string) | List(seq<Json>) | Object(map<string, Json>)

  /** One key's value as it compares. Offsets are None when they are not a list of two integers. */
  datatype Entry = Metadata(value: Json) | Tensor(offsets: Option<(int, int)>, value: Json)

  /** A parsed JSON object: its keys in order. */
  datatype Header = Header(names: seq<string>, entries: map<string, Entry>)

  ghost predicate IsObject(h: Header) {
    && (forall i, j :: 0 <= i < j < |h.names| ==> h.names[i] != h.names[j])
    && (forall name :: name in h.names <==> name in h.entries)
    && (forall name :: name in h.entries ==> (h.entries[name].Metadata? <==> name == "__metadata__"))
  }

  /** The comparison of two headers: the same keys with equal values, whatever their order. */
  predicate SameHeader(a: Header, b: Header) {
    && a.entries.Keys == b.entries.Keys
    && forall name :: name in a.entries ==> a.entries[name].value == b.entries[name].value
  }

  /** None when the bytes are not UTF-8 JSON or not an object. */
  type Parser = Bytes -> Option<Header>

  ghost predicate ParsesObjects(parse: Parser) {
    forall bytes :: parse(bytes).Some? ==> IsObject(parse(bytes).value)
  }

  datatype Failure =
    | SamePath | ParentMissing
    | IncompleteLength | BadLength | TruncatedHeader | BadHeader
    | UnknownTensor(string) | BadOffsets(string) | SizeMismatch(string) | SeekFailed
    | HeaderChanged | FileSizeChanged | FrozenChanged(string)

  const MAX_HEADER: int := 256 * 1024 * 1024
  const BLOCK: int := 1024 * 1024

  // ----- Files

  /** What a read of n bytes at `start` gives: clamped at the end of the file; a negative n reads everything. */
  function Slice(data: Bytes, start: nat, n: int): (r: Bytes)
    ensures n >= 0 ==> |r| <= n
  {
    if start >= |data| then []
    else if n < 0 || start + n > |data| then data[start..]
    else data[start..start + n]
  }

  function Zeros(n: nat): (r: Bytes)
    ensures |r| == n
  {
    seq(n, _ => 0)
  }

  /** A write at `start`: overwrites, and extends the file when it reaches past the end. */
  function Overwrite(data: Bytes, start: nat, payload: Bytes): (r: Bytes)
    ensures start + |payload| <= |data| ==> |r| == |data|
    ensures |r| >= start + |payload|
    ensures start <= |data| ==> r[..start] == data[..start]
    ensures r[start..start + |payload|] == payload
    ensures forall i :: start + |payload| <= i < |data| ==> |r| >= |data| && r[i] == data[i]
  {
    var padded := if start <= |data| then data[..start] else data + Zeros(start - |data|);
    padded + payload + (if start + |payload| <= |data| then data[start + |payload|..] else [])
  }

  class Stream {
    var data: Bytes
    var pos: nat

    constructor (data: Bytes)
      ensures this.data == data && pos == 0
    {
      this.data := data;
      pos := 0;
    }

    method Seek(target: nat)
      modifies this
      ensures data == old(data) && pos == target
    {
      pos := target;
    }

    method Read(n: int) returns (bytes: Bytes)
      modifies this
      ensures bytes == Slice(old(data), old(pos), n) && data == old(data) && pos == old(pos) + |bytes|
    {
      bytes := Slice(data, pos, n);
      pos := pos + |bytes|;
    }

    method Write(payload: Bytes)
      modifies this
      ensures data == Overwrite(old(data), old(pos), payload) && pos == old(pos) + |payload|
    {
      data := Overwrite(data, pos, payload);
      pos := pos + |payload|;
    }
  }

  // ----- The header

  function LittleEndian(bytes: Bytes): nat {
    if bytes == [] then 0 else bytes[0] + 256 * LittleEndian(bytes[1..])
  }

  /** The header and the position of the first payload byte. */
  function ReadHeader(data: Bytes, parse: Parser): Result<(Header, nat), Failure> {
    if |data| < 8 then Err(IncompleteLength)
    else
      var length := LittleEndian(data[..8]);
      if length == 0 || length > MAX_HEADER then Err(BadLength)
      else if |data| < 8 + length then Err(TruncatedHeader)
      else
        match parse(data[8..8 + length])
        case None => Err(BadHeader)
        case Some(header) => Ok((header, 8 + length))
  }

  /** The eight bytes of a length below 2 to the 32, least significant first. */
  function LengthBytes(n: nat): (bytes: Bytes)
    requires n < 4294967296
    ensures |bytes| == 8
  {
    [n % 256, n / 256 % 256, n / 65536 % 256, n / 16777216 % 256, 0, 0, 0, 0]
  }

  lemma QuotientOfQuotient(n: nat, a: nat, b: nat)
    requires a > 0 && b > 0
    ensures a * b > 0 && n / a / b == n / (a * b)
  {
    var q := n / a / b;
    var r := n / a % b * a + n % a;
    assert n == q * (a * b) + r by {
      assert n == (n / a) * a + n % a;
      assert n / a == q * b + n / a % b;
    }
    assert n / a % b * a + n % a < a * b by {
      MulBelow(n / a % b, b, a);
    }
    DivModUnique(n, a * b, q, r);
  }

  lemma MulBelow(x: nat, b: nat, a: nat)
    requires x < b
    ensures x * a + a <= b * a
  {
    MulMonotone(x + 1, b, a);
    assert (x + 1) * a == x * a + a;
  }

  lemma LengthReadsBack(n: nat)
    requires n < 4294967296
    ensures LittleEndian(LengthBytes(n)) == n
  {
    var b := LengthBytes(n);
    QuotientOfQuotient(n, 256, 256);
    QuotientOfQuotient(n, 65536, 256);
    assert b[1..][1..] == b[2..] && b[2..][1..] == b[3..] && b[3..][1..] == b[4..] && b[4..] == [0, 0, 0, 0];
    ZerosAreZero(b[4..]);
    assert LittleEndian(b[3..]) == b[3] + 256 * LittleEndian(b[4..]);
    assert LittleEndian(b[2..]) == b[2] + 256 * LittleEndian(b[3..]);
    assert LittleEndian(b[1..]) == b[1] + 256 * LittleEndian(b[2..]);
  }

  lemma {:induction false} ZerosAreZero(bytes: Bytes)
    requires forall i :: 0 <= i < |bytes| ==> bytes[i] == 0
    ensures LittleEndian(bytes) == 0
  {
    if bytes != [] { ZerosAreZero(bytes[1..]); }
  }

  /**
   The format is read back: length, header text and payload give the parsed header and the payload's position, for any
   payload; and a file that is cut inside the header is refused.
   */
  lemma FormatReadsBack(json: Bytes, payload: Bytes, parse: Parser, h: Header)
    requires 0 < |json| <= 268435456 && parse(json) == Some(h)
    ensures ReadHeader(LengthBytes(|json|) + json + payload, parse) == Ok((h, 8 + |json|))
    ensures forall cut :: 0 <= cut < 8 + |json| ==>
              ReadHeader((LengthBytes(|json|) + json + payload)[..cut], parse).Err?
  {
    var length := LengthBytes(|json|);
    var data := length + json + payload;
    LengthReadsBack(|json|);
    assert data[..8] == length && data[8..8 + |json|] == json;
    forall cut | 0 <= cut < 8 + |json| ensures ReadHeader(data[..cut], parse).Err? {
      if cut >= 8 { assert data[..cut][..8] == length; }
    }
  }

  /** The length that the first eight bytes announce. */
  function Announced(data: Bytes): int
    requires |data| >= 8
  {
    data[0] as int + 256 * data[1] as int + 65536 * data[2] as int + 16777216 * data[3] as int
    + 4294967296 * data[4] as int + 1099511627776 * data[5] as int + 281474976710656 * data[6] as int
    + 72057594037927936 * data[7] as int
  }

  lemma LittleEndianIs(data: Bytes)
    requires |data| >= 8
    ensures LittleEndian(data[..8]) == Announced(data)
  {
    var b := data[..8];
    forall k: nat | k < 8 ensures LittleEndian(b[k..]) == b[k] + 256 * LittleEndian(b[k + 1..]) {
      assert b[k..][1..] == b[k + 1..];
    }
    assert b[0..] == b && LittleEndian(b[8..]) == 0;
    assert LittleEndian(b[7..]) == b[7] as int;
    hide LittleEndian;
    assert LittleEndian(b[6..]) == b[6] as int + 256 * LittleEndian(b[7..]);
    assert LittleEndian(b[4..]) == b[4] as int + 256 * (b[5] as int + 256 * LittleEndian(b[6..]));
    assert LittleEndian(b[2..]) == b[2] as int + 256 * (b[3] as int + 256 * LittleEndian(b[4..]));
    assert LittleEndian(b[0..]) == b[0] as int + 256 * (b[1] as int + 256 * LittleEndian(b[2..]));
  }

  /** What makes a header readable, and why it is not. */
  lemma ReadsIff(data: Bytes, parse: Parser)
    ensures ReadHeader(data, parse).Ok? <==>
              && |data| >= 8 && 0 < Announced(data) <= 268435456 && |data| >= 8 + Announced(data)
              && parse(data[8..8 + Announced(data)]).Some?
    ensures ReadHeader(data, parse).Ok? ==>
              ReadHeader(data, parse).value == (parse(data[8..8 + Announced(data)]).value, 8 + Announced(data))
    ensures ReadHeader(data, parse).Err? ==>
              ReadHeader(data, parse).error
              == (if |data| < 8 then IncompleteLength
                  else if Announced(data) == 0 || Announced(data) > 268435456 then BadLength
                  else if |data| < 8 + Announced(data) then TruncatedHeader
                  else BadHeader)
  {
    if |data| >= 8 { LittleEndianIs(data); }
    hide LittleEndian, Announced;
  }

  // ----- Patching

  datatype Replacement = Replacement(name: string, payload: Bytes)

  ghost predicate DistinctNames(rs: seq<Replacement>) {
    forall i, j :: 0 <= i < j < |rs| ==> rs[i].name != rs[j].name
  }

  function CheckReplacement(h: Header, r: Replacement): Option<Failure> {
    if r.name !in h.entries || r.name == "__metadata__" then Some(UnknownTensor(r.name))
    else if h.entries[r.name].Metadata? || h.entries[r.name].offsets.None? then Some(BadOffsets(r.name))
    else
      var (start, end) := h.entries[r.name].offsets.value;
      if |r.payload| != end - start then Some(SizeMismatch(r.name)) else None
  }

  function CheckAll(h: Header, rs: seq<Replacement>): (r: Option<Failure>)
    ensures r == None <==> forall i :: 0 <= i < |rs| ==> CheckReplacement(h, rs[i]) == None
  {
    if rs == [] then None
    else if CheckReplacement(h, rs[0]).Some? then CheckReplacement(h, rs[0])
    else
      assert forall i :: 0 <= i < |rs[1..]| ==> rs[1..][i] == rs[i + 1];
      CheckAll(h, rs[1..])
  }

  function StartOf(h: Header, name: string): int
    requires name in h.entries && h.entries[name].Tensor? && h.entries[name].offsets.Some?
  {
    h.entries[name].offsets.value.0
  }

  function EndOf(h: Header, name: string): int
    requires name in h.entries && h.entries[name].Tensor? && h.entries[name].offsets.Some?
  {
    h.entries[name].offsets.value.1
  }

  /** Seek and write one replacement after the other; a seek before the file's start raises. */
  function WriteAll(data: Bytes, h: Header, dataStart: nat, rs: seq<Replacement>): (Bytes, Option<Failure>)
    requires CheckAll(h, rs) == None
    decreases |rs|
  {
    if rs == [] then (data, None)
    else
      assert CheckReplacement(h, rs[0]) == None;
      var position := dataStart + StartOf(h, rs[0].name);
      if position < 0 then (data, Some(SeekFailed))
      else
        WriteAll(Overwrite(data, position, rs[0].payload), h, dataStart, rs[1..])
  }

  /** The child file, if one is made, and the failure, if one is raised. */
  function Patch(files: map<string, Bytes>, parent: string, child: string, rs: seq<Replacement>, parse: Parser)
    : (map<string, Bytes>, Option<Failure>)
  {
    if parent == child then (files, Some(SamePath))
    else if parent !in files then (files, Some(ParentMissing))
    else
      match ReadHeader(files[parent], parse)
      case Err(e) => (files, Some(e))
      case Ok((header, dataStart)) =>
        if CheckAll(header, rs).Some? then (files, CheckAll(header, rs))
        else
          var (bytes, failure) := WriteAll(files[parent], header, dataStart, rs);
          (files[child := bytes], failure)
  }

  class Storage {
    var files: map<string, Bytes>

    /** Copy the parent, then overwrite the ranges of the replaced tensors in the copy. */
    method PatchTensors(parent: string, child: string, rs: seq<Replacement>,
                        parse: Parser) returns (failure: Option<Failure>)
      modifies this
      ensures (files, failure) == Patch(old(files), parent, child, rs, parse)
    {
      if parent == child {
        return Some(SamePath);
      }
      if parent !in files {
        return Some(ParentMissing);
      }
      var read := ReadHeader(files[parent], parse);
      if read.Err? {
        return Some(read.error);
      }
      var (header, dataStart) := read.value;
      failure := CheckAll(header, rs);
      if failure.Some? {
        return;
      }
      files := files[child := files[parent]];
      failure := WriteRanges(child, header, dataStart, rs);
      ghost var bytes := WriteAll(old(files)[parent], header, dataStart, rs).0;
      assert old(files)[child := old(files)[parent]][child := bytes] == old(files)[child := bytes];
    }

    /** Open the copy and overwrite one range after the other. */
    method WriteRanges(child: string, header: Header, dataStart: nat,
                       rs: seq<Replacement>) returns (failure: Option<Failure>)
      requires child in files && CheckAll(header, rs) == None
      modifies this
      ensures var (bytes, raised) := WriteAll(old(files)[child], header, dataStart, rs);
              files == old(files)[child := bytes] && failure == raised
    {
      hide Overwrite, CheckReplacement;
      var stream := new Stream(files[child]);
      ghost var result := WriteAll(files[child], header, dataStart, rs);
      var i := 0;
      while i < |rs|
        invariant 0 <= i <= |rs| && CheckAll(header, rs[i..]) == None
        invariant files == old(files)[child := stream.data]
        invariant WriteAll(stream.data, header, dataStart, rs[i..]) == result
      {
        assert rs[i..][0] == rs[i] && rs[i..][1..] == rs[i + 1..];
        CheckedHasRange(header, rs[i]);
        var position := dataStart + StartOf(header, rs[i].name);
        if position < 0 {
          return Some(SeekFailed);
        }
        stream.Seek(position);
        stream.Write(rs[i].payload);
        files := files[child := stream.data];
        i := i + 1;
      }
      failure := None;
    }
  }

  lemma CheckedHasRange(h: Header, r: Replacement)
    requires CheckReplacement(h, r) == None
    ensures r.name in h.entries && h.entries[r.name].Tensor? && h.entries[r.name].offsets.Some?
  {
  }

  // ----- What a patch does to the bytes

  predicate IsTensor(h: Header, name: string) {
    name in h.entries && h.entries[name].Tensor? && h.entries[name].offsets.Some?
  }

  /** Every tensor has a range inside the file, and no two ranges share a byte. */
  ghost predicate WellFormed(h: Header, dataStart: nat, size: nat) {
    && (forall name :: name in h.entries && name != "__metadata__" ==>
          IsTensor(h, name) && 0 <= StartOf(h, name) <= EndOf(h, name) && dataStart + EndOf(h, name) <= size)
    && (forall m, n :: m in h.entries && n in h.entries && m != "__metadata__" && n != "__metadata__" && m != n ==>
          IsTensor(h, m) && IsTensor(h, n) && Apart(h, m, n))
  }

  predicate Apart(h: Header, m: string, n: string)
    requires IsTensor(h, m) && IsTensor(h, n)
  {
    StartOf(h, m) == EndOf(h, m) || StartOf(h, n) == EndOf(h, n)
    || EndOf(h, m) <= StartOf(h, n) || EndOf(h, n) <= StartOf(h, m)
  }

  predicate InRange(h: Header, dataStart: nat, name: string, i: nat) {
    IsTensor(h, name) && dataStart + StartOf(h, name) <= i < dataStart + EndOf(h, name)
  }

  ghost predicate Replaced(rs: seq<Replacement>, h: Header, dataStart: nat, i: nat) {
    exists k :: 0 <= k < |rs| && InRange(h, dataStart, rs[k].name, i)
  }

  /** `after` holds each payload in its range and `before` everywhere else. */
  ghost predicate Patched(before: Bytes, after: Bytes, h: Header, dataStart: nat, rs: seq<Replacement>) {
    && |after| == |before|
    && (forall k :: 0 <= k < |rs| ==> Holds(after, h, dataStart, rs[k]))
    && (forall i :: 0 <= i < |before| && !Replaced(rs, h, dataStart, i) ==> after[i] == before[i])
  }

  ghost predicate Holds(data: Bytes, h: Header, dataStart: nat, r: Replacement) {
    && IsTensor(h, r.name) && 0 <= StartOf(h, r.name) && dataStart + StartOf(h, r.name) + |r.payload| <= |data|
    && data[dataStart + StartOf(h, r.name)..dataStart + StartOf(h, r.name) + |r.payload|] == r.payload
  }

  lemma CheckedFits(h: Header, dataStart: nat, size: nat, rs: seq<Replacement>, k: nat)
    requires WellFormed(h, dataStart, size) && CheckAll(h, rs) == None && k < |rs|
    ensures rs[k].name in h.entries && rs[k].name != "__metadata__" && IsTensor(h, rs[k].name)
    ensures 0 <= StartOf(h, rs[k].name) && EndOf(h, rs[k].name) == StartOf(h, rs[k].name) + |rs[k].payload|
    ensures dataStart + EndOf(h, rs[k].name) <= size
  {
    assert CheckReplacement(h, rs[k]) == None;
  }

  /** Patching puts each payload into its range and leaves every other byte and the length unchanged. */
  lemma {:induction false} WritesPatch(data: Bytes, h: Header, dataStart: nat, rs: seq<Replacement>)
    requires WellFormed(h, dataStart, |data|) && CheckAll(h, rs) == None && DistinctNames(rs)
    ensures var (after, failure) := WriteAll(data, h, dataStart, rs);
            failure == None && Patched(data, after, h, dataStart, rs)
    decreases |rs|
  {
    if rs != [] {
      var r, rest := rs[0], rs[1..];
      CheckedFits(h, dataStart, |data|, rs, 0);
      var start := dataStart + StartOf(h, r.name);
      var once := Overwrite(data, start, r.payload);
      assert forall i :: 0 <= i < |rest| ==> rest[i] == rs[i + 1];
      WritesPatch(once, h, dataStart, rest);
      var after := WriteAll(once, h, dataStart, rest).0;
      RestAvoids(h, dataStart, |data|, rs);
      PatchThenRest(data, once, after, h, dataStart, rs);
    }
  }

  lemma RestAvoids(h: Header, dataStart: nat, size: nat, rs: seq<Replacement>)
    requires WellFormed(h, dataStart, size) && CheckAll(h, rs) == None && DistinctNames(rs) && rs != []
    ensures forall i: nat :: InRange(h, dataStart, rs[0].name, i) ==> !Replaced(rs[1..], h, dataStart, i)
  {
    CheckedFits(h, dataStart, size, rs, 0);
    forall i: nat, k | InRange(h, dataStart, rs[0].name, i) && 0 <= k < |rs[1..]|
      ensures !InRange(h, dataStart, rs[1..][k].name, i)
    {
      assert rs[1..][k] == rs[k + 1];
      CheckedFits(h, dataStart, size, rs, k + 1);
      assert Apart(h, rs[0].name, rs[k + 1].name);
    }
  }

  /** An overwrite inside the file, byte by byte. */
  lemma OverwriteAt(data: Bytes, start: nat, payload: Bytes, i: nat)
    requires start + |payload| <= |data| && i < |data|
    ensures |Overwrite(data, start, payload)| == |data|
    ensures Overwrite(data, start, payload)[i] == if start <= i < start + |payload| then payload[i - start] else data[i]
  {
    var r := Overwrite(data, start, payload);
    if i < start {
      assert r[..start][i] == data[..start][i];
    } else if i < start + |payload| {
      assert r[start..start + |payload|][i - start] == payload[i - start];
    }
  }

  lemma FirstHolds(data: Bytes, once: Bytes, after: Bytes, h: Header, dataStart: nat, rs: seq<Replacement>)
    requires WellFormed(h, dataStart, |data|) && CheckAll(h, rs) == None && rs != []
    requires dataStart + StartOfFirst(h, rs) >= 0
    requires once == Overwrite(data, dataStart + StartOfFirst(h, rs), rs[0].payload)
    requires Patched(once, after, h, dataStart, rs[1..])
    requires forall i: nat :: InRange(h, dataStart, rs[0].name, i) ==> !Replaced(rs[1..], h, dataStart, i)
    ensures |after| == |data| && Holds(after, h, dataStart, rs[0])
  {
    hide Overwrite, WellFormed, CheckAll, Replaced, Holds;
    var r := rs[0];
    CheckedFits(h, dataStart, |data|, rs, 0);
    var start := dataStart + StartOf(h, r.name);
    forall j | 0 <= j < |r.payload| ensures start + j < |after| && after[start + j] == r.payload[j] {
      OverwriteAt(data, start, r.payload, start + j);
      assert InRange(h, dataStart, r.name, start + j);
    }
    if |r.payload| == 0 {
      OverwriteLength(data, start, r.payload);
    }
    assert after[start..start + |r.payload|] == r.payload;
    HoldsIs(after, h, dataStart, r);
  }

  lemma OverwriteLength(data: Bytes, start: nat, payload: Bytes)
    requires start + |payload| <= |data|
    ensures |Overwrite(data, start, payload)| == |data|
  {
  }

  lemma HoldsIs(data: Bytes, h: Header, dataStart: nat, r: Replacement)
    requires IsTensor(h, r.name) && 0 <= StartOf(h, r.name) && dataStart + StartOf(h, r.name) + |r.payload| <= |data|
    requires data[dataStart + StartOf(h, r.name)..dataStart + StartOf(h, r.name) + |r.payload|] == r.payload
    ensures Holds(data, h, dataStart, r)
  {
  }

  lemma PatchThenRest(data: Bytes, once: Bytes, after: Bytes, h: Header, dataStart: nat, rs: seq<Replacement>)
    requires WellFormed(h, dataStart, |data|) && CheckAll(h, rs) == None && rs != []
    requires dataStart + StartOfFirst(h, rs) >= 0
    requires once == Overwrite(data, dataStart + StartOfFirst(h, rs), rs[0].payload)
    requires Patched(once, after, h, dataStart, rs[1..])
    requires forall i: nat :: InRange(h, dataStart, rs[0].name, i) ==> !Replaced(rs[1..], h, dataStart, i)
    ensures Patched(data, after, h, dataStart, rs)
  {
    FirstHolds(data, once, after, h, dataStart, rs);
    hide Overwrite, WellFormed, CheckAll, Holds, InRange;
    var rest := rs[1..];
    assert forall k :: 0 <= k < |rest| ==> rest[k] == rs[k + 1];
    CheckedFits(h, dataStart, |data|, rs, 0);
    OverwriteLength(data, dataStart + StartOfFirst(h, rs), rs[0].payload);
    forall k | 0 <= k < |rs| ensures Holds(after, h, dataStart, rs[k]) {
      if k > 0 { assert Holds(after, h, dataStart, rest[k - 1]); }
    }
    forall i | 0 <= i < |data| && !Replaced(rs, h, dataStart, i) ensures after[i] == data[i] {
      assert !InRange(h, dataStart, rs[0].name, i);
      assert !Replaced(rest, h, dataStart, i) by {
        forall k | 0 <= k < |rest| ensures !InRange(h, dataStart, rest[k].name, i) {
          assert !InRange(h, dataStart, rs[k + 1].name, i);
        }
      }
      OutsideFirst(h, dataStart, |data|, rs, i);
      OverwriteAt(data, dataStart + StartOfFirst(h, rs), rs[0].payload, i);
    }
  }

  lemma OutsideFirst(h: Header, dataStart: nat, size: nat, rs: seq<Replacement>, i: nat)
    requires WellFormed(h, dataStart, size) && CheckAll(h, rs) == None && rs != []
    requires !InRange(h, dataStart, rs[0].name, i)
    ensures !(dataStart + StartOfFirst(h, rs) <= i < dataStart + StartOfFirst(h, rs) + |rs[0].payload|)
  {
    CheckedFits(h, dataStart, size, rs, 0);
  }

  function StartOfFirst(h: Header, rs: seq<Replacement>): int
    requires rs != []
  {
    if IsTensor(h, rs[0].name) then StartOf(h, rs[0].name) else 0
  }

  lemma HeaderOfPrefix(a: Bytes, b: Bytes, parse: Parser)
    requires ReadHeader(a, parse).Ok? && |a| == |b|
    requires var dataStart := ReadHeader(a, parse).value.1; dataStart <= |a| && b[..dataStart] == a[..dataStart]
    ensures ReadHeader(b, parse) == ReadHeader(a, parse)
  {
    var dataStart := ReadHeader(a, parse).value.1;
    assert b[..8] == b[..dataStart][..8] == a[..8];
    assert b[8..dataStart] == b[..dataStart][8..] == a[8..dataStart];
  }

  /** The child reads back the parent's header. */
  lemma PatchKeepsHeader(parent: Bytes, rs: seq<Replacement>, parse: Parser)
    requires ReadHeader(parent, parse).Ok? && DistinctNames(rs)
    requires var (h, dataStart) := ReadHeader(parent, parse).value;
             WellFormed(h, dataStart, |parent|) && CheckAll(h, rs) == None
    ensures var (h, dataStart) := ReadHeader(parent, parse).value;
            var (child, failure) := WriteAll(parent, h, dataStart, rs);
            && failure == None && Patched(parent, child, h, dataStart, rs)
            && child[..dataStart] == parent[..dataStart]
            && ReadHeader(child, parse) == ReadHeader(parent, parse)
  {
    var (h, dataStart) := ReadHeader(parent, parse).value;
    WritesPatch(parent, h, dataStart, rs);
    var child := WriteAll(parent, h, dataStart, rs).0;
    hide WriteAll, WellFormed, CheckAll;
    forall i | 0 <= i < dataStart ensures child[i] == parent[i] {
      forall k | 0 <= k < |rs| ensures !InRange(h, dataStart, rs[k].name, i) {
        CheckedFits(h, dataStart, |parent|, rs, k);
      }
      assert !Replaced(rs, h, dataStart, i);
    }
    assert child[..dataStart] == parent[..dataStart];
    HeaderOfPrefix(parent, child, parse);
  }

  /** The tensor's entry has exactly these offsets. */
  predicate HasRange(h: Header, name: string, start: int, end: int) {
    name in h.entries && name != "__metadata__" && h.entries[name].Tensor?
      && h.entries[name].offsets == Some((start, end))
  }

  /** A replacement of a tensor of the file, of the size of its range. */
  ghost predicate FitsRange(h: Header, r: Replacement) {
    exists start: int, end: int :: HasRange(h, r.name, start, end) && |r.payload| == end - start
  }

  lemma FitsIff(h: Header, r: Replacement)
    ensures CheckReplacement(h, r) == None <==> FitsRange(h, r)
  {
    if CheckReplacement(h, r) == None {
      var (start, end) := h.entries[r.name].offsets.value;
      assert HasRange(h, r.name, start, end);
    }
  }

  ghost predicate OutsideRanges(h: Header, base: nat, rs: seq<Replacement>, i: nat) {
    forall k, start, end :: 0 <= k < |rs| && HasRange(h, rs[k].name, start, end) ==> !(base + start <= i < base + end)
  }

  /** The payloads stand at the offsets of their tensors, behind the header, and nothing else differs. */
  ghost predicate BytesPatched(before: Bytes, after: Bytes, h: Header, base: nat, rs: seq<Replacement>) {
    && |after| == |before|
    && (forall k, start, end :: 0 <= k < |rs| && HasRange(h, rs[k].name, start, end) ==>
          0 <= start <= end && base + end <= |after| && after[base + start..base + end] == rs[k].payload)
    && (forall i: nat :: i < |before| && OutsideRanges(h, base, rs, i) ==> after[i] == before[i])
  }

  lemma PatchedBytes(before: Bytes, after: Bytes, h: Header, base: nat, rs: seq<Replacement>)
    requires WellFormed(h, base, |before|) && CheckAll(h, rs) == None && Patched(before, after, h, base, rs)
    ensures BytesPatched(before, after, h, base, rs)
  {
    hide WellFormed, CheckAll;
    forall k, start, end | 0 <= k < |rs| && HasRange(h, rs[k].name, start, end)
      ensures 0 <= start <= end && base + end <= |after| && after[base + start..base + end] == rs[k].payload
    {
      CheckedFits(h, base, |before|, rs, k);
      assert Holds(after, h, base, rs[k]);
    }
    forall i: nat | i < |before| && OutsideRanges(h, base, rs, i) ensures !Replaced(rs, h, base, i) {
      forall k | 0 <= k < |rs| ensures !InRange(h, base, rs[k].name, i) {
        CheckedFits(h, base, |before|, rs, k);
        assert HasRange(h, rs[k].name, StartOf(h, rs[k].name), EndOf(h, rs[k].name));
      }
    }
  }

  /**
   A patch of a readable parent goes through exactly when every replacement fits; the child then holds the payloads, and
   otherwise no file changes.
   */
  lemma PatchesIff(files: map<string, Bytes>, parent: string, child: string, rs: seq<Replacement>, parse: Parser)
    requires parent in files && ReadHeader(files[parent], parse).Ok? && DistinctNames(rs)
    requires var (h, base) := ReadHeader(files[parent], parse).value; WellFormed(h, base, |files[parent]|)
    ensures var (h, base) := ReadHeader(files[parent], parse).value;
            var (after, failure) := Patch(files, parent, child, rs, parse);
            && (failure == None <==> parent != child && forall k :: 0 <= k < |rs| ==> FitsRange(h, rs[k]))
            && (failure != None ==> after == files)
            && (failure == None ==>
                  && after.Keys == files.Keys + {child}
                  && (forall other :: other in files && other != child ==> after[other] == files[other])
                  && BytesPatched(files[parent], after[child], h, base, rs))
  {
    hide ReadHeader, CheckReplacement, FitsRange, BytesPatched, WellFormed, Patched;
    var (h, base) := ReadHeader(files[parent], parse).value;
    forall k | 0 <= k < |rs| ensures CheckReplacement(h, rs[k]) == None <==> FitsRange(h, rs[k]) {
      FitsIff(h, rs[k]);
    }
    if CheckAll(h, rs) == None {
      PatchKeepsHeader(files[parent], rs, parse);
      PatchedBytes(files[parent], WriteAll(files[parent], h, base, rs).0, h, base, rs);
    }
  }

  // ----- Comparing ranges block by block

  lemma CutInTwo(data: Bytes, i: nat, j: nat, k: nat, front: Bytes, back: Bytes, both: Bytes)
    requires i <= j <= k <= |data| && front == data[i..j] && back == data[j..k] && both == data[i..k]
    ensures both == front + back
  {
  }

  function Clamped(data: Bytes, i: nat): (j: nat)
    ensures j <= |data| && (i <= |data| ==> j == i)
  {
    if i < |data| then i else |data|
  }

  /** The bytes between two positions, as far as the file goes. */
  ghost predicate IsPart(part: Bytes, data: Bytes, start: nat, end: nat) {
    Clamped(data, start) <= Clamped(data, end) && part == data[Clamped(data, start)..Clamped(data, end)]
  }

  lemma SliceIs(data: Bytes, start: nat, n: nat)
    ensures IsPart(Slice(data, start, n), data, start, start + n)
    ensures Clamped(data, start + |Slice(data, start, n)|) == Clamped(data, start + n)
  {
  }

  lemma PartsJoin(data: Bytes, i: nat, j: nat, k: nat, j': nat, k': nat, front: Bytes, back: Bytes, both: Bytes)
    requires IsPart(front, data, i, j) && IsPart(back, data, j', k') && IsPart(both, data, i, k)
    requires Clamped(data, j') == Clamped(data, j) && Clamped(data, k') == Clamped(data, k)
    ensures both == front + back
  {
    CutInTwo(data, Clamped(data, i), Clamped(data, j), Clamped(data, k), front, back, both);
  }

  lemma SliceSplit(data: Bytes, start: nat, m: nat, n: nat)
    ensures Slice(data, start, m + n) == Slice(data, start, m) + Slice(data, start + |Slice(data, start, m)|, n)
  {
    hide IsPart;
    var front := Slice(data, start, m);
    var next := start + |front|;
    SliceIs(data, start, m);
    SliceIs(data, start, m + n);
    SliceIs(data, next, n);
    NextClamped(data, start, m, n);
    PartsJoin(data, start, start + m, start + m + n, next, next + n, front, Slice(data, next, n),
              Slice(data, start, m + n));
  }

  lemma NextClamped(data: Bytes, start: nat, m: nat, n: nat)
    ensures Clamped(data, start + |Slice(data, start, m)| + n) == Clamped(data, start + m + n)
  {
  }

  lemma ConcatSame(x: Bytes, y: Bytes, u: Bytes, v: Bytes)
    requires |x| == |y|
    ensures x + u == y + v <==> x == y && u == v
  {
    if x + u == y + v {
      assert x == (x + u)[..|x|] && y == (y + v)[..|y|];
      assert u == (x + u)[|x|..] && v == (y + v)[|y|..];
    }
  }

  /** Read both files in blocks of at most one mebibyte and stop at the first difference. */
  method RangeEqual(a: Bytes, b: Bytes, start: nat, length: int) returns (same: bool)
    ensures same <==> Slice(a, start, length) == Slice(b, start, length)
  {
    hide Slice;
    var first := new Stream(a);
    var second := new Stream(b);
    first.Seek(start);
    second.Seek(start);
    var remaining := length;
    ReadNothing(a, start);
    ReadNothing(b, start);
    while remaining != 0
      invariant first.data == a && second.data == b && first.pos == second.pos
      invariant length >= 0 ==> 0 <= remaining <= length
      invariant length < 0 ==> remaining == 0 || (remaining == length && first.pos == start)
      invariant length >= 0 ==> Slice(a, start, length - remaining) == Slice(b, start, length - remaining)
      invariant length >= 0 ==> first.pos == start + |Slice(a, start, length - remaining)|
      invariant length < 0 && remaining == 0 ==> Slice(a, start, length) == Slice(b, start, length)
      decreases if remaining < 0 then 1 else remaining
    {
      var block := if BLOCK < remaining then BLOCK else remaining;
      if length >= 0 {
        SliceSplit(a, start, length - remaining, block);
        SliceSplit(b, start, length - remaining, block);
        SliceSplit(a, start, length - remaining + block, remaining - block);
        SliceSplit(b, start, length - remaining + block, remaining - block);
      }
      ghost var done, at := length - remaining, first.pos;
      var x := first.Read(block);
      var y := second.Read(block);
      if x != y {
        if length >= 0 {
          DifferentPart(a, b, start, done, block, length - done - block);
        }
        return false;
      }
      remaining := remaining - block;
    }
    same := true;
  }

  lemma ReadNothing(data: Bytes, start: nat)
    ensures Slice(data, start, 0) == []
  {
  }

  lemma DifferentPart(a: Bytes, b: Bytes, start: nat, done: nat, block: nat, rest: nat)
    requires Slice(a, start, done) == Slice(b, start, done)
    requires var at := start + |Slice(a, start, done)|; Slice(a, at, block) != Slice(b, at, block)
    ensures Slice(a, start, done + block + rest) != Slice(b, start, done + block + rest)
  {
    hide Slice;
    if Slice(a, start, done + block + rest) == Slice(b, start, done + block + rest) {
      var at := start + |Slice(a, start, done)|;
      SlicePrefix(a, b, start, done + block, rest);
      SliceSplit(a, start, done, block);
      SliceSplit(b, start, done, block);
      ConcatSame(Slice(a, start, done), Slice(b, start, done), Slice(a, at, block), Slice(b, at, block));
    }
  }

  /** A shorter read is a prefix of a longer one. */
  lemma SlicePrefix(a: Bytes, b: Bytes, start: nat, m: nat, n: nat)
    requires Slice(a, start, m + n) == Slice(b, start, m + n)
    ensures Slice(a, start, m) == Slice(b, start, m)
  {
    var whole := Slice(a, start, m + n);
    assert Slice(a, start, m) == if |whole| <= m then whole else whole[..m];
    assert Slice(b, start, m) == if |whole| <= m then whole else whole[..m];
  }

  // ----- Verifying a child

  function RangeSame(a: Bytes, b: Bytes, h: Header, dataStart: nat, name: string): Result<bool, Failure> {
    if !IsTensor(h, name) then Err(BadOffsets(name))
    else if dataStart + StartOf(h, name) < 0 then Err(SeekFailed)
    else
      var start, length := dataStart + StartOf(h, name), EndOf(h, name) - StartOf(h, name);
      Ok(Slice(a, start, length) == Slice(b, start, length))
  }

  /** The number of replaced tensors that differ, over `names` in order; without a full scan frozen ones are skipped. */
  function VerifyNames(a: Bytes, b: Bytes, h: Header, dataStart: nat, names: seq<string>, replaced: set<string>,
                       full: bool)
    : Result<nat, Failure>
  {
    if names == [] then Ok(0)
    else if names[0] == "__metadata__" then VerifyNames(a, b, h, dataStart, names[1..], replaced, full)
    else if names[0] in replaced then
      var same :- RangeSame(a, b, h, dataStart, names[0]);
      var rest :- VerifyNames(a, b, h, dataStart, names[1..], replaced, full);
      Ok(rest + if same then 0 else 1)
    else if full then
      var same :- RangeSame(a, b, h, dataStart, names[0]);
      if same then VerifyNames(a, b, h, dataStart, names[1..], replaced, full) else Err(FrozenChanged(names[0]))
    else if !IsTensor(h, names[0]) then Err(BadOffsets(names[0]))
    else VerifyNames(a, b, h, dataStart, names[1..], replaced, full)
  }

  function CountFrozen(names: seq<string>, replaced: set<string>): nat {
    if names == [] then 0
    else CountFrozen(names[1..], replaced) + if names[0] !in replaced && names[0] != "__metadata__" then 1 else 0
  }

  /** How many tensors changed and how many are frozen. */
  function Verify(a: Bytes, b: Bytes, replaced: set<string>, full: bool, parse: Parser): Result<(nat, nat), Failure> {
    var read :- ReadHeader(a, parse);
    var childRead :- ReadHeader(b, parse);
    var (h, dataStart) := read;
    if !SameHeader(h, childRead.0) || dataStart != childRead.1 then Err(HeaderChanged)
    else if |a| != |b| then Err(FileSizeChanged)
    else
      var changed :- VerifyNames(a, b, h, dataStart, h.names, replaced, full);
      Ok((changed, CountFrozen(h.names, replaced)))
  }

  lemma {:induction false} VerifyNamesStep(a: Bytes, b: Bytes, h: Header, dataStart: nat, names: seq<string>,
                                           replaced: set<string>,
                                           full: bool, i: nat, changed: nat)
    requires i < |names|
    ensures VerifyFrom(a, b, h, dataStart, names, replaced, full, i, changed)
            == (if names[i] == "__metadata__" then VerifyFrom(a, b, h, dataStart, names, replaced, full, i + 1, changed)
                else if names[i] in replaced then
                  match RangeSame(a, b, h, dataStart, names[i])
                  case Err(e) => Err(e)
                  case Ok(same) =>
                    VerifyFrom(a, b, h, dataStart, names, replaced, full, i + 1, changed + if same then 0 else 1)
                else if full then
                  match RangeSame(a, b, h, dataStart, names[i])
                  case Err(e) => Err(e)
                  case Ok(same) =>
                    if same then VerifyFrom(a, b, h, dataStart, names, replaced, full, i + 1, changed)
                    else Err(FrozenChanged(names[i]))
                else if !IsTensor(h, names[i]) then Err(BadOffsets(names[i]))
                else VerifyFrom(a, b, h, dataStart, names, replaced, full, i + 1, changed))
  {
    hide RangeSame;
    assert names[i..][0] == names[i] && names[i..][1..] == names[i + 1..];
  }

  /** The count so far plus the count still to come. */
  function VerifyFrom(a: Bytes, b: Bytes, h: Header, dataStart: nat, names: seq<string>, replaced: set<string>,
                      full: bool,
                      i: nat, changed: nat): Result<nat, Failure>
    requires i <= |names|
  {
    match VerifyNames(a, b, h, dataStart, names[i..], replaced, full)
    case Err(e) => Err(e)
    case Ok(rest) => Ok(changed + rest)
  }

  method VerifyChildRanges(a: Bytes, b: Bytes, replaced: set<string>, full: bool, parse: Parser)
    returns (r: Result<(nat, nat), Failure>)
    ensures r == Verify(a, b, replaced, full, parse)
  {
    hide RangeSame, ReadHeader;
    var read := ReadHeader(a, parse);
    if read.Err? {
      return Err(read.error);
    }
    var (h, dataStart) := read.value;
    var childRead := ReadHeader(b, parse);
    if childRead.Err? {
      return Err(childRead.error);
    }
    if !SameHeader(h, childRead.value.0) || dataStart != childRead.value.1 {
      return Err(HeaderChanged);
    }
    if |a| != |b| {
      return Err(FileSizeChanged);
    }
    var changed := 0;
    assert h.names[0..] == h.names;
    for i := 0 to |h.names|
      invariant VerifyNames(a, b, h, dataStart, h.names, replaced, full)
                == VerifyFrom(a, b, h, dataStart, h.names, replaced, full, i, changed)
    {
      var name := h.names[i];
      VerifyNamesStep(a, b, h, dataStart, h.names, replaced, full, i, changed);
      if name == "__metadata__" {
        continue;
      }
      if name in replaced {
        var same := CompareTensor(a, b, h, dataStart, name);
        if same.Err? {
          return Err(same.error);
        }
        changed := changed + if same.value then 0 else 1;
      } else if full {
        var same := CompareTensor(a, b, h, dataStart, name);
        if same.Err? {
          return Err(same.error);
        }
        if !same.value {
          return Err(FrozenChanged(name));
        }
      } else if !IsTensor(h, name) {
        return Err(BadOffsets(name));
      }
    }
    assert h.names[|h.names|..] == [];
    r := Ok((changed, CountFrozen(h.names, replaced)));
  }

  method CompareTensor(a: Bytes, b: Bytes, h: Header, dataStart: nat, name: string) returns (r: Result<bool, Failure>)
    ensures r == RangeSame(a, b, h, dataStart, name)
  {
    if !IsTensor(h, name) {
      return Err(BadOffsets(name));
    }
    if dataStart + StartOf(h, name) < 0 {
      return Err(SeekFailed);
    }
    var same := RangeEqual(a, b, dataStart + StartOf(h, name), EndOf(h, name) - StartOf(h, name));
    r := Ok(same);
  }

  // ----- What the verifier says about a patched child, and about any child

  function Names(rs: seq<Replacement>): set<string> {
    set k | 0 <= k < |rs| :: rs[k].name
  }

  /** The tensors in `names` whose bytes differ. */
  ghost function ChangedAmong(a: Bytes, b: Bytes, h: Header, dataStart: nat, names: seq<string>,
                              replaced: set<string>): set<string> {
    set name | name in names && name != "__metadata__" && name in replaced
      && RangeSame(a, b, h, dataStart, name) == Ok(false)
  }

  ghost predicate AllRangesRead(a: Bytes, b: Bytes, h: Header, dataStart: nat, names: seq<string>) {
    forall name :: name in names && name != "__metadata__" ==> RangeSame(a, b, h, dataStart, name).Ok?
  }

  ghost predicate FrozenSame(a: Bytes, b: Bytes, h: Header, dataStart: nat, names: seq<string>, replaced: set<string>) {
    forall name :: name in names && name != "__metadata__" && name !in replaced ==>
      RangeSame(a, b, h, dataStart, name) == Ok(true)
  }

  ghost predicate NoRepeats(names: seq<string>) {
    forall i, j :: 0 <= i < j < |names| ==> names[i] != names[j]
  }

  /** The loop counts the changed tensors; a full scan also demands that every frozen tensor is unchanged. */
  lemma {:induction false} VerifyNamesCounts(a: Bytes, b: Bytes, h: Header, dataStart: nat, names: seq<string>,
                                             replaced: set<string>, full: bool)
    requires NoRepeats(names) && AllRangesRead(a, b, h, dataStart, names)
    ensures var r := VerifyNames(a, b, h, dataStart, names, replaced, full);
            && (r.Ok? <==> (full ==> FrozenSame(a, b, h, dataStart, names, replaced)))
            && (r.Ok? ==> r.value == |ChangedAmong(a, b, h, dataStart, names, replaced)|)
  {
    if names == [] {
      assert ChangedAmong(a, b, h, dataStart, names, replaced) == {};
    } else {
      hide RangeSame, ChangedAmong;
      var name, rest := names[0], names[1..];
      assert names == [name] + rest;
      VerifyNamesCounts(a, b, h, dataStart, rest, replaced, full);
      RangeSameNeedsTensor(a, b, h, dataStart, name);
      ChangedHead(a, b, h, dataStart, names, replaced);
      FrozenHead(a, b, h, dataStart, names, replaced);
      hide FrozenSame;
      assert name != "__metadata__" ==> RangeSame(a, b, h, dataStart, name).Ok?;
    }
  }

  lemma ChangedHead(a: Bytes, b: Bytes, h: Header, dataStart: nat, names: seq<string>, replaced: set<string>)
    requires names != [] && NoRepeats(names)
    ensures |ChangedAmong(a, b, h, dataStart, names, replaced)|
            == |ChangedAmong(a, b, h, dataStart, names[1..], replaced)|
               + if names[0] != "__metadata__" && names[0] in replaced
                 && RangeSame(a, b, h, dataStart, names[0]) == Ok(false)
                 then 1 else 0
  {
    hide RangeSame;
    var name, rest := names[0], names[1..];
    assert names == [name] + rest;
    var before := ChangedAmong(a, b, h, dataStart, rest, replaced);
    var now := ChangedAmong(a, b, h, dataStart, names, replaced);
    assert name !in before by {
      assert name !in rest;
    }
    assert now == if name != "__metadata__" && name in replaced && RangeSame(a, b, h, dataStart, name) == Ok(false)
                  then before + {name} else before;
  }

  lemma FrozenHead(a: Bytes, b: Bytes, h: Header, dataStart: nat, names: seq<string>, replaced: set<string>)
    requires names != []
    ensures FrozenSame(a, b, h, dataStart, names, replaced) <==>
            FrozenSame(a, b, h, dataStart, names[1..], replaced)
            && (names[0] != "__metadata__" && names[0] !in replaced ==>
                  RangeSame(a, b, h, dataStart, names[0]) == Ok(true))
  {
    assert names == [names[0]] + names[1..];
  }

  lemma RangeSameNeedsTensor(a: Bytes, b: Bytes, h: Header, dataStart: nat, name: string)
    ensures RangeSame(a, b, h, dataStart, name).Ok? ==> IsTensor(h, name)
  {
  }

  /**
   For a parent whose ranges are in bounds and apart, and any child: the fast path accepts exactly when header and
   size agree; the full scan demands unchanged frozen tensors as well. Both give the same counts.
   */
  lemma VerifyAcceptsIff(parent: Bytes, child: Bytes, replaced: set<string>, parse: Parser)
    requires ParsesObjects(parse) && ReadHeader(parent, parse).Ok?
    requires var (h, dataStart) := ReadHeader(parent, parse).value; WellFormed(h, dataStart, |parent|)
    ensures var (h, dataStart) := ReadHeader(parent, parse).value;
            var same := |child| == |parent| && ReadHeader(child, parse).Ok?
                        && SameHeader(h, ReadHeader(child, parse).value.0)
                        && ReadHeader(child, parse).value.1 == dataStart;
            var fast := Verify(parent, child, replaced, false, parse);
            var scan := Verify(parent, child, replaced, true, parse);
            && (fast.Ok? <==> same)
            && (scan.Ok? <==> same && FrozenSame(parent, child, h, dataStart, h.names, replaced))
            && (scan.Ok? ==> scan == fast)
            && (fast.Ok? ==> fast.value == (|ChangedAmong(parent, child, h, dataStart, h.names, replaced)|,
                                            |FrozenNames(h.names, replaced)|))
  {
    hide ReadHeader, RangeSame, WellFormed, FrozenSame, ChangedAmong, CountFrozen, VerifyNames, FrozenNames, SameHeader;
    var (h, dataStart) := ReadHeader(parent, parse).value;
    HeaderIsObject(parent, parse);
    CountFrozenIs(h.names, replaced);
    RangesCompare(parent, child, h, dataStart);
    VerifyNamesCounts(parent, child, h, dataStart, h.names, replaced, false);
    VerifyNamesCounts(parent, child, h, dataStart, h.names, replaced, true);
  }

  /** The range of the tensor holds the same bytes in both files. */
  ghost predicate SameBytes(a: Bytes, b: Bytes, h: Header, base: nat, name: string) {
    forall start: int, end: int :: HasRange(h, name, start, end) && 0 <= base + start <= end + base <= |a| == |b| ==>
      a[base + start..base + end] == b[base + start..base + end]
  }

  /** Which frozen tensors the full scan finds unchanged, and which replaced ones are counted: byte by byte. */
  lemma ComparesBytes(a: Bytes, b: Bytes, h: Header, base: nat, replaced: set<string>)
    requires IsObject(h) && WellFormed(h, base, |a|) && |a| == |b|
    ensures FrozenSame(a, b, h, base, h.names, replaced) <==>
              forall name :: name in h.names && name != "__metadata__" && name !in replaced ==>
                SameBytes(a, b, h, base, name)
    ensures forall name :: name in ChangedAmong(a, b, h, base, h.names, replaced) <==>
              name in h.names && name != "__metadata__" && name in replaced && !SameBytes(a, b, h, base, name)
  {
    forall name | name in h.names && name != "__metadata__"
      ensures RangeSame(a, b, h, base, name) == Ok(SameBytes(a, b, h, base, name))
    {
      ComparesRange(a, b, h, base, name);
    }
    hide RangeSame, SameBytes, WellFormed;
  }

  lemma ComparesRange(a: Bytes, b: Bytes, h: Header, base: nat, name: string)
    requires WellFormed(h, base, |a|) && |a| == |b| && name in h.entries && name != "__metadata__"
    ensures RangeSame(a, b, h, base, name) == Ok(SameBytes(a, b, h, base, name))
  {
    var start, end := StartOf(h, name), EndOf(h, name);
    assert HasRange(h, name, start, end);
    SliceInside(a, base + start, end - start);
    SliceInside(b, base + start, end - start);
  }

  lemma RangesCompare(parent: Bytes, child: Bytes, h: Header, dataStart: nat)
    requires IsObject(h) && WellFormed(h, dataStart, |parent|)
    ensures forall name :: name in h.names && name != "__metadata__" ==>
              RangeSame(parent, child, h, dataStart, name).Ok?
  {
    forall name | name in h.names && name != "__metadata__" ensures RangeSame(parent, child, h, dataStart, name).Ok? {
      assert name in h.entries;
    }
  }

  lemma HeaderIsObject(data: Bytes, parse: Parser)
    requires ParsesObjects(parse) && ReadHeader(data, parse).Ok?
    ensures IsObject(ReadHeader(data, parse).value.0) && NoRepeats(ReadHeader(data, parse).value.0.names)
  {
  }

  /** The replacements that change a byte, by name. */
  ghost function Differing(parent: Bytes, h: Header, dataStart: nat, rs: seq<Replacement>): set<string> {
    set k | 0 <= k < |rs| && IsTensor(h, rs[k].name) && 0 <= StartOf(h, rs[k].name)
            && rs[k].payload != Slice(parent, dataStart + StartOf(h, rs[k].name), |rs[k].payload|) :: rs[k].name
  }

  ghost function TensorNames(h: Header): set<string> {
    h.entries.Keys - {"__metadata__"}
  }

  lemma FrozenRangeUntouched(before: Bytes, after: Bytes, h: Header, dataStart: nat, rs: seq<Replacement>, name: string)
    requires WellFormed(h, dataStart, |before|) && CheckAll(h, rs) == None && Patched(before, after, h, dataStart, rs)
    requires name in h.entries && name != "__metadata__" && name !in Names(rs)
    ensures RangeSame(before, after, h, dataStart, name) == Ok(true)
  {
    var start, end := dataStart + StartOf(h, name), dataStart + EndOf(h, name);
    forall i | start <= i < end ensures after[i] == before[i] {
      forall k | 0 <= k < |rs| ensures !InRange(h, dataStart, rs[k].name, i) {
        CheckedFits(h, dataStart, |before|, rs, k);
        assert rs[k].name in Names(rs);
        assert Apart(h, name, rs[k].name);
      }
      assert !Replaced(rs, h, dataStart, i);
    }
    SliceInside(before, start, end - start);
    SliceInside(after, start, end - start);
    assert before[start..end] == after[start..end];
  }

  lemma SliceInside(data: Bytes, start: nat, n: nat)
    requires start + n <= |data|
    ensures Slice(data, start, n) == data[start..start + n]
  {
  }

  lemma DifferingIs(before: Bytes, h: Header, dataStart: nat, rs: seq<Replacement>, k: nat)
    requires DistinctNames(rs) && k < |rs| && IsTensor(h, rs[k].name) && 0 <= StartOf(h, rs[k].name)
    ensures rs[k].name in Differing(before, h, dataStart, rs)
            <==> rs[k].payload != Slice(before, dataStart + StartOf(h, rs[k].name), |rs[k].payload|)
  {
    hide Slice;
    if rs[k].name in Differing(before, h, dataStart, rs) {
      var j :| 0 <= j < |rs| && IsTensor(h, rs[j].name) && 0 <= StartOf(h, rs[j].name) && rs[j].name == rs[k].name
               && rs[j].payload != Slice(before, dataStart + StartOf(h, rs[j].name), |rs[j].payload|);
      assert j == k;
    }
  }

  lemma ReplacedRange(before: Bytes, after: Bytes, h: Header, dataStart: nat, rs: seq<Replacement>, k: nat)
    requires WellFormed(h, dataStart, |before|) && CheckAll(h, rs) == None && Patched(before, after, h, dataStart, rs)
    requires DistinctNames(rs) && k < |rs|
    ensures RangeSame(before, after, h, dataStart, rs[k].name) == Ok(rs[k].name !in Differing(before, h, dataStart, rs))
  {
    CheckedFits(h, dataStart, |before|, rs, k);
    PatchedHolds(before, after, h, dataStart, rs, k);
    DifferingIs(before, h, dataStart, rs, k);
    RangeIs(before, after, h, dataStart, rs[k].name, dataStart + StartOf(h, rs[k].name), |rs[k].payload|);
    hide *;
  }

  lemma RangeIs(a: Bytes, b: Bytes, h: Header, dataStart: nat, name: string, start: nat, n: nat)
    requires IsTensor(h, name) && start == dataStart + StartOf(h, name) && n == EndOf(h, name) - StartOf(h, name)
    ensures RangeSame(a, b, h, dataStart, name) == Ok(Slice(a, start, n) == Slice(b, start, n))
  {
    hide Slice;
  }

  lemma PatchedHolds(before: Bytes, after: Bytes, h: Header, dataStart: nat, rs: seq<Replacement>, k: nat)
    requires Patched(before, after, h, dataStart, rs) && k < |rs|
    ensures IsTensor(h, rs[k].name) && 0 <= StartOf(h, rs[k].name)
    ensures Slice(after, dataStart + StartOf(h, rs[k].name), |rs[k].payload|) == rs[k].payload
  {
    hide Replaced, Slice;
    assert Holds(after, h, dataStart, rs[k]);
    SliceInside(after, dataStart + StartOf(h, rs[k].name), |rs[k].payload|);
  }

  /**
   A patched child always passes, fast or full, with the same counts: the changed tensors are exactly the
   replacements that differ from the parent's bytes, and every other tensor is frozen.
   */
  lemma PatchedVerifies(parent: Bytes, rs: seq<Replacement>, full: bool, parse: Parser)
    requires ParsesObjects(parse) && ReadHeader(parent, parse).Ok? && DistinctNames(rs)
    requires var (h, dataStart) := ReadHeader(parent, parse).value;
             WellFormed(h, dataStart, |parent|) && CheckAll(h, rs) == None
    ensures var (h, dataStart) := ReadHeader(parent, parse).value;
            Verify(parent, WriteAll(parent, h, dataStart, rs).0, Names(rs), full, parse)
            == Ok((|Differing(parent, h, dataStart, rs)|, |TensorNames(h)| - |rs|))
  {
    hide Verify, WellFormed, CheckAll, Patched, RangeSame, ReadHeader, WriteAll, IsTensor, Slice;
    var (h, dataStart) := ReadHeader(parent, parse).value;
    PatchKeepsHeader(parent, rs, parse);
    var child := WriteAll(parent, h, dataStart, rs).0;
    PatchedLength(parent, child, h, dataStart, rs);
    HeaderIsObject(parent, parse);
    FrozenStays(parent, child, h, dataStart, rs);
    UnchangedVerifies(parent, child, Names(rs), full, parse);
    ChangedAreDiffering(parent, child, h, dataStart, rs);
    FrozenCount(h, dataStart, |parent|, rs);
    hide FrozenSame, ChangedAmong, Differing, FrozenNames, Names;
  }

  /** A child with the parent's header and frozen bytes passes. */
  lemma UnchangedVerifies(parent: Bytes, child: Bytes, replaced: set<string>, full: bool, parse: Parser)
    requires ParsesObjects(parse) && ReadHeader(parent, parse).Ok?
    requires ReadHeader(child, parse) == ReadHeader(parent, parse)
    requires var (h, dataStart) := ReadHeader(parent, parse).value;
             WellFormed(h, dataStart, |parent|) && FrozenSame(parent, child, h, dataStart, h.names, replaced)
    requires |child| == |parent|
    ensures var (h, dataStart) := ReadHeader(parent, parse).value;
            Verify(parent, child, replaced, full, parse)
            == Ok((|ChangedAmong(parent, child, h, dataStart, h.names, replaced)|, |FrozenNames(h.names, replaced)|))
  {
    var h := ReadHeader(parent, parse).value.0;
    assert SameHeader(h, h);
    hide Verify, WellFormed, ReadHeader, FrozenSame, ChangedAmong, FrozenNames, SameHeader;
    VerifyAcceptsIff(parent, child, replaced, parse);
  }

  lemma FrozenStays(before: Bytes, after: Bytes, h: Header, dataStart: nat, rs: seq<Replacement>)
    requires IsObject(h) && WellFormed(h, dataStart, |before|) && CheckAll(h, rs) == None
    requires Patched(before, after, h, dataStart, rs)
    ensures FrozenSame(before, after, h, dataStart, h.names, Names(rs))
  {
    hide WellFormed, CheckAll, Patched, RangeSame;
    forall name | name in h.names && name != "__metadata__" && name !in Names(rs)
      ensures RangeSame(before, after, h, dataStart, name) == Ok(true)
    {
      FrozenRangeUntouched(before, after, h, dataStart, rs, name);
    }
  }

  lemma PatchedLength(before: Bytes, after: Bytes, h: Header, dataStart: nat, rs: seq<Replacement>)
    requires Patched(before, after, h, dataStart, rs)
    ensures |after| == |before|
  {
  }

  lemma ChangedAreDiffering(before: Bytes, after: Bytes, h: Header, dataStart: nat, rs: seq<Replacement>)
    requires IsObject(h) && WellFormed(h, dataStart, |before|) && CheckAll(h, rs) == None && DistinctNames(rs)
    requires Patched(before, after, h, dataStart, rs)
    ensures ChangedAmong(before, after, h, dataStart, h.names, Names(rs)) == Differing(before, h, dataStart, rs)
  {
    hide WellFormed, CheckAll, Patched, RangeSame, Slice;
    var changed := ChangedAmong(before, after, h, dataStart, h.names, Names(rs));
    var differing := Differing(before, h, dataStart, rs);
    forall k | 0 <= k < |rs| ensures rs[k].name in changed <==> rs[k].name in differing {
      ReplacedRange(before, after, h, dataStart, rs, k);
      CheckedFits(h, dataStart, |before|, rs, k);
      assert rs[k].name in Names(rs);
    }
    forall name ensures name in changed <==> name in differing {
      if name in Names(rs) {
        var k :| 0 <= k < |rs| && rs[k].name == name;
      }
    }
  }

  lemma {:induction false} NamesCount(rs: seq<Replacement>)
    requires DistinctNames(rs)
    ensures |Names(rs)| == |rs|
  {
    if rs == [] {
      assert Names(rs) == {};
    } else {
      var last := |rs| - 1;
      var front := rs[..last];
      NamesCount(front);
      forall name ensures name in Names(rs) <==> name in Names(front) + {rs[last].name} {
        if name in Names(rs) {
          var k :| 0 <= k < |rs| && rs[k].name == name;
          if k < last { assert front[k].name == name; }
        }
        if name in Names(front) {
          var k :| 0 <= k < |front| && front[k].name == name;
          assert rs[k].name == name;
        }
      }
      assert Names(rs) == Names(front) + {rs[last].name};
      assert rs[last].name !in Names(front);
    }
  }

  ghost function FrozenNames(names: seq<string>, replaced: set<string>): set<string> {
    set name | name in names && name !in replaced && name != "__metadata__"
  }

  lemma FrozenNamesHead(names: seq<string>, replaced: set<string>)
    requires names != [] && NoRepeats(names)
    ensures |FrozenNames(names, replaced)|
            == |FrozenNames(names[1..], replaced)|
               + if names[0] !in replaced && names[0] != "__metadata__" then 1 else 0
  {
    var name, rest := names[0], names[1..];
    assert names == [name] + rest;
    var before := FrozenNames(rest, replaced);
    assert name !in before by {
      assert name !in rest;
    }
    assert FrozenNames(names, replaced)
        == if name !in replaced && name != "__metadata__" then before + {name} else before;
  }

  lemma {:induction false} CountFrozenIs(names: seq<string>, replaced: set<string>)
    requires NoRepeats(names)
    ensures CountFrozen(names, replaced) == |FrozenNames(names, replaced)|
  {
    if names == [] {
      assert FrozenNames(names, replaced) == {};
    } else {
      FrozenNamesHead(names, replaced);
      hide FrozenNames;
      CountFrozenIs(names[1..], replaced);
    }
  }

  lemma FrozenCount(h: Header, dataStart: nat, size: nat, rs: seq<Replacement>)
    requires IsObject(h) && NoRepeats(h.names) && WellFormed(h, dataStart, size) && CheckAll(h, rs) == None
    requires DistinctNames(rs)
    ensures |FrozenNames(h.names, Names(rs))| == |TensorNames(h)| - |rs|
  {
    NamesCount(rs);
    ReplacedAreTensors(h, dataStart, size, rs);
    hide Names, WellFormed, CheckAll;
    assert FrozenNames(h.names, Names(rs)) == TensorNames(h) - Names(rs);
    hide *;
    SubsetCount(TensorNames(h), Names(rs));
  }

  lemma SubsetCount(all: set<string>, part: set<string>)
    requires part <= all
    ensures |all - part| == |all| - |part|
  {
    assert all == (all - part) + part;
  }

  lemma ReplacedAreTensors(h: Header, dataStart: nat, size: nat, rs: seq<Replacement>)
    requires WellFormed(h, dataStart, size) && CheckAll(h, rs) == None
    ensures Names(rs) <= TensorNames(h)
  {
    hide WellFormed, CheckAll;
    forall k | 0 <= k < |rs| ensures rs[k].name in TensorNames(h) {
      CheckedFits(h, dataStart, size, rs, k);
    }
  }
}
