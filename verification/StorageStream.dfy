/** The byte stream that `storage_integrity` hashes, and a reader that takes it apart again. */
module StorageStream {
  import opened Ordering
  import opened Sequences
  import Chars = Text

  type Bytes = seq<Chars.Byte>

  /** No object in memory has a length of 2^63 or more. */
  const SIZE_LIMIT := 0x8000_0000_0000_0000
  type Text = s: Bytes | |s| < SIZE_LIMIT
  type Double = d: Bytes | |d| == 8 witness [0, 0, 0, 0, 0, 0, 0, 0]
  type Vector = v: seq<Double> | |v| < SIZE_LIMIT
  type Matrix = m: seq<Vector> | |m| < SIZE_LIMIT
  type Paragraph = p: int | p <= 0 || |Decimal(p)| < SIZE_LIMIT

  type Id = s: string | Chars.IsUuid(s) witness "00000000-0000-0000-0000-000000000000"

  /** A persisted chunk; an identifier that is not a UUID is None. */
  datatype Record = Record(
    objectId: Option<Id>, chunkId: Option<Id>, documentId: Option<Id>,
    user: Text, paragraph: Paragraph, text: Text, late: Matrix, gte: Vector)

  // ----------------------------------------------------------------- numbers as bytes

  function Power(k: nat): nat {
    if k == 0 then 1 else 256 * Power(k - 1)
  }

  function Big(n: nat, k: nat): (b: Bytes)
    ensures |b| == k
    decreases k
  {
    if k == 0 then [] else Big(n / 256, k - 1) + [n % 256]
  }

  function Value(b: Bytes): nat {
    if b == [] then 0 else 256 * Value(b[..|b| - 1]) + b[|b| - 1]
  }

  lemma {:induction false} ValueOfBig(n: nat, k: nat)
    requires n < Power(k)
    ensures Value(Big(n, k)) == n
    decreases k
  {
    if k > 0 {
      ValueOfBig(n / 256, k - 1);
      assert Big(n, k)[..k - 1] == Big(n / 256, k - 1);
    }
  }

  lemma EightBytes()
    ensures Power(8) == 0x1_0000_0000_0000_0000
  {
    assert Power(2) == 0x1_0000 && Power(4) == 0x1_0000_0000 && Power(6) == 0x1_0000_0000_0000;
  }

  function Length(n: nat): Bytes {
    Big(n, 8)
  }

  function Decimal(n: nat): Bytes {
    if n < 10 then [48 + n] else Decimal(n / 10) + [48 + n % 10]
  }

  function Number(b: Bytes): int {
    if b == [] then 0 else 10 * Number(b[..|b| - 1]) + b[|b| - 1] - 48
  }

  lemma {:induction false} NumberOfDecimal(n: nat)
    ensures Number(Decimal(n)) == n
  {
    if n >= 10 {
      NumberOfDecimal(n / 10);
      assert Decimal(n)[..|Decimal(n)| - 1] == Decimal(n / 10);
    }
  }

  function Ascii(s: string): (b: Bytes)
    requires forall i :: 0 <= i < |s| ==> s[i] as int < 128
    ensures |b| == |s| && forall i :: 0 <= i < |s| ==> b[i] == s[i] as int
  {
    seq<Chars.Byte>(|s|, i requires 0 <= i < |s| => s[i] as int)
  }

  function IdBytes(id: Id): Bytes {
    Ascii(id)
  }

  function ReadId(b: Bytes): Option<Id> {
    if exists i :: 0 <= i < |b| && b[i] >= 128 then None
    else
      var s := seq(|b|, i requires 0 <= i < |b| => b[i] as char);
      if Chars.IsUuid(s) then Some(s) else None
  }

  lemma IdBack(id: Id)
    ensures ReadId(IdBytes(id)) == Some(id)
  {
    var b := IdBytes(id);
    assert forall i :: 0 <= i < |b| ==> b[i] < 128;
    assert seq(|b|, i requires 0 <= i < |b| => b[i] as char) == id;
  }

  // ----------------------------------------------------------------- frames

  /** `_frame`: eight bytes of length, big-endian, and the value. */
  function Frame(v: Bytes): Bytes {
    Length(|v|) + v
  }

  function Frames(vs: seq<Bytes>): Bytes {
    if vs == [] then [] else Frame(vs[0]) + Frames(vs[1..])
  }

  function Unframe(b: Bytes): Option<seq<Bytes>>
    decreases |b|
  {
    if b == [] then Some([])
    else if |b| < 8 then None
    else
      var n := Value(b[..8]);
      if |b| < 8 + n then None
      else
        var rest := Unframe(b[8 + n..]);
        if rest.None? then None else Some([b[8..8 + n]] + rest.value)
  }

  predicate Sized(vs: seq<Bytes>) {
    forall i :: 0 <= i < |vs| ==> |vs[i]| < 2 * SIZE_LIMIT
  }

  lemma UnframeFirst(v: Bytes, tail: Bytes)
    requires |v| < 2 * SIZE_LIMIT
    ensures Unframe(tail).Some? ==> Unframe(Frame(v) + tail) == Some([v] + Unframe(tail).value)
  {
    var header := Length(|v|);
    var b := Frame(v) + tail;
    Slices(header, v, tail);
    EightBytes();
    ValueOfBig(|v|, 8);
    assert Value(b[..8]) == |v|;
  }

  /** Framing is uniquely decodable, whatever bytes are framed. */
  lemma {:induction false} UnframeFrames(vs: seq<Bytes>)
    requires Sized(vs)
    ensures Unframe(Frames(vs)) == Some(vs)
    decreases |vs|
  {
    if vs != [] {
      UnframeFrames(vs[1..]);
      UnframeFirst(vs[0], Frames(vs[1..]));
      assert [vs[0]] + vs[1..] == vs;
    }
  }

  lemma FramesOfCons(head: Bytes, tail: seq<Bytes>)
    ensures Frames([head] + tail) == Frame(head) + Frames(tail)
  {
    assert ([head] + tail)[1..] == tail;
  }

  lemma {:induction false} FramesAppend(a: seq<Bytes>, b: seq<Bytes>)
    ensures Frames(a + b) == Frames(a) + Frames(b)
    decreases |a|
  {
    if a == [] {
      assert a + b == b;
    } else {
      var head, tail := [a[0]], a[1..];
      Slices(head, tail, b);
      assert head + tail == a;
      FramesAppend(tail, b);
      FramesOfCons(a[0], tail + b);
      FramesOfCons(a[0], tail);
      Associates(Frame(a[0]), Frames(tail), Frames(b));
    }
  }

  // ----------------------------------------------------------------- the frames of a record

  function RowFrames(row: Vector): seq<Bytes> {
    [Length(|row|)] + row
  }

  function MatrixFrames(rows: seq<Vector>): seq<Bytes> {
    if rows == [] then [] else RowFrames(rows[0]) + MatrixFrames(rows[1..])
  }

  predicate Identified(r: Record) {
    r.objectId.Some? && r.chunkId.Some? && r.documentId.Some? && 0 < r.paragraph
  }

  function HeadFrames(r: Record): seq<Bytes>
    requires Identified(r)
  {
    [IdBytes(r.objectId.value), IdBytes(r.chunkId.value), IdBytes(r.documentId.value),
     r.user, Decimal(r.paragraph), r.text, Length(|r.late|)]
  }

  function RecordFrames(r: Record): seq<Bytes>
    requires Identified(r)
  {
    HeadFrames(r) + MatrixFrames(r.late) + RowFrames(r.gte)
  }

  function AllFrames(rs: seq<Record>): seq<Bytes>
    requires forall i :: 0 <= i < |rs| ==> Identified(rs[i])
  {
    if rs == [] then [] else RecordFrames(rs[0]) + AllFrames(rs[1..])
  }

  const VERSION: Bytes := [119, 105, 122, 97, 114, 100, 45, 115, 116, 111, 114, 97, 103, 101, 45, 118, 49]

  /** Everything the digest is fed for records in this order. */
  function Stream(rs: seq<Record>): Bytes
    requires forall i :: 0 <= i < |rs| ==> Identified(rs[i])
  {
    Frame(VERSION) + Frames(AllFrames(rs))
  }

  lemma AppendNothing(a: seq<Bytes>)
    ensures a + [] == a
  {
  }

  lemma VersionSpelled()
    ensures VERSION == Ascii("wizard-storage-v1")
  {
  }

  /** For one record with one row, the values that are framed, in order. */
  lemma OneRecordStream(r: Record, row: Vector)
    requires Identified(r) && r.late == [row]
    ensures Stream([r]) == Frame(Ascii("wizard-storage-v1"))
      + Frames([Ascii(r.objectId.value), Ascii(r.chunkId.value), Ascii(r.documentId.value), r.user, Decimal(r.paragraph), r.text, Length(1)]
               + ([Length(|row|)] + row) + ([Length(|r.gte|)] + r.gte))
  {
    VersionSpelled();
    AppendNothing(RowFrames(row));
    AppendNothing(RecordFrames(r));
    Cons(row, []);
    Cons(r, []);
    assert MatrixFrames(r.late) == RowFrames(row) + MatrixFrames(r.late[1..]);
    assert AllFrames([r]) == RecordFrames(r) + AllFrames([r][1..]);
  }

  /** Lengths are big-endian, paragraph numbers decimal, and a frame is a length and its bytes. */
  lemma Encodings()
    ensures Length(258) == [0, 0, 0, 0, 0, 0, 1, 2] && Decimal(120) == Ascii("120")
    ensures Frame([7, 9]) == [0, 0, 0, 0, 0, 0, 0, 2, 7, 9]
  {
    assert Big(0, 6) == [0, 0, 0, 0, 0, 0];
    assert Big(1, 7) == Big(0, 6) + [1] && Big(0, 7) == Big(0, 6) + [0];
    assert Decimal(1) == [49] && Decimal(12) == [49, 50];
  }

  // ----------------------------------------------------------------- the reader

  datatype Parsed<+T> = Parsed(value: T, rest: seq<Bytes>)

  function ReadVector(fs: seq<Bytes>): Option<Parsed<Vector>> {
    if fs == [] then None
    else
      var n := Value(fs[0]);
      if |fs| < 1 + n || n >= SIZE_LIMIT then None
      else
        var row := fs[1..1 + n];
        if exists i :: 0 <= i < |row| && |row[i]| != 8 then None
        else Some(Parsed(row, fs[1 + n..]))
  }

  function ReadMatrix(fs: seq<Bytes>, n: nat): Option<Parsed<seq<Vector>>>
    decreases n
  {
    if n == 0 then Some(Parsed([], fs))
    else
      var row := ReadVector(fs);
      if row.None? then None
      else
        var rows := ReadMatrix(row.value.rest, n - 1);
        if rows.None? then None else Some(Parsed([row.value.value] + rows.value.value, rows.value.rest))
  }

  function ReadRecord(fs: seq<Bytes>): Option<Parsed<Record>> {
    if |fs| < 7 || |fs[3]| >= SIZE_LIMIT || |fs[5]| >= SIZE_LIMIT then None
    else if Number(fs[4]) > 0 && |Decimal(Number(fs[4]))| >= SIZE_LIMIT then None
    else
      var late := ReadMatrix(fs[7..], Value(fs[6]));
      if late.None? || |late.value.value| >= SIZE_LIMIT then None
      else
        var gte := ReadVector(late.value.rest);
        if gte.None? then None
        else Some(Parsed(Record(ReadId(fs[0]), ReadId(fs[1]), ReadId(fs[2]), fs[3], Number(fs[4]), fs[5],
                                late.value.value, gte.value.value),
                         gte.value.rest))
  }

  function ReadRecords(fs: seq<Bytes>): Option<seq<Record>>
    decreases |fs|
  {
    if fs == [] then Some([])
    else
      var first := ReadRecord(fs);
      if first.None? || |first.value.rest| >= |fs| then None
      else
        var rest := ReadRecords(first.value.rest);
        if rest.None? then None else Some([first.value.value] + rest.value)
  }

  function ReadStream(b: Bytes): Option<seq<Record>> {
    var fs := Unframe(b);
    if fs.None? || fs.value == [] || fs.value[0] != VERSION then None else ReadRecords(fs.value[1..])
  }

  lemma LengthBack(n: nat)
    requires n < SIZE_LIMIT
    ensures Value(Length(n)) == n
  {
    EightBytes();
    ValueOfBig(n, 8);
  }

  lemma VectorBack(v: Vector, tail: seq<Bytes>)
    ensures ReadVector(RowFrames(v) + tail) == Some(Parsed(v, tail))
  {
    var fs := RowFrames(v) + tail;
    LengthBack(|v|);
    assert fs[0] == Length(|v|) && fs[1..1 + |v|] == v && fs[1 + |v|..] == tail;
  }

  lemma {:induction false} MatrixBack(rows: seq<Vector>, tail: seq<Bytes>)
    ensures ReadMatrix(MatrixFrames(rows) + tail, |rows|) == Some(Parsed(rows, tail))
    decreases |rows|
  {
    if rows == [] {
      assert MatrixFrames(rows) + tail == tail;
    } else {
      var after := MatrixFrames(rows[1..]) + tail;
      assert MatrixFrames(rows) + tail == RowFrames(rows[0]) + after;
      VectorBack(rows[0], after);
      MatrixBack(rows[1..], tail);
      assert [rows[0]] + rows[1..] == rows;
    }
  }

  lemma HeadBack(r: Record)
    requires Identified(r)
    ensures var head := HeadFrames(r);
      && ReadId(head[0]) == r.objectId && ReadId(head[1]) == r.chunkId && ReadId(head[2]) == r.documentId
      && head[3] == r.user && Number(head[4]) == r.paragraph && head[5] == r.text && Value(head[6]) == |r.late|
  {
    LengthBack(|r.late|);
    IdBack(r.objectId.value);
    IdBack(r.chunkId.value);
    IdBack(r.documentId.value);
    NumberOfDecimal(r.paragraph);
  }

  lemma RecordBack(r: Record, tail: seq<Bytes>)
    requires Identified(r)
    ensures ReadRecord(RecordFrames(r) + tail) == Some(Parsed(r, tail))
  {
    var fs := RecordFrames(r) + tail;
    var head := HeadFrames(r);
    var middle, after := MatrixFrames(r.late), RowFrames(r.gte) + tail;
    Slices(head + middle, RowFrames(r.gte), tail);
    Slices(head, middle, after);
    assert fs[7..] == middle + after;
    assert fs[..7] == head;
    assert forall i :: 0 <= i < 7 ==> fs[i] == head[i];
    HeadBack(r);
    MatrixBack(r.late, after);
    VectorBack(r.gte, tail);
  }

  lemma {:induction false} RecordsBack(rs: seq<Record>)
    requires forall i :: 0 <= i < |rs| ==> Identified(rs[i])
    ensures ReadRecords(AllFrames(rs)) == Some(rs)
    decreases |rs|
  {
    if rs != [] {
      var r, rest := rs[0], rs[1..];
      Uncons(rs);
      RecordBack(r, AllFrames(rest));
      RecordsBack(rest);
      assert |AllFrames(rest)| < |AllFrames(rs)|;
    }
  }

  lemma {:induction false} MatrixSized(rows: seq<Vector>)
    ensures Sized(MatrixFrames(rows))
    decreases |rows|
  {
    if rows != [] {
      MatrixSized(rows[1..]);
      assert Sized(RowFrames(rows[0]));
    }
  }

  lemma SizedAppend(a: seq<Bytes>, b: seq<Bytes>)
    requires Sized(a) && Sized(b)
    ensures Sized(a + b)
  {
  }

  lemma RecordSized(r: Record)
    requires Identified(r)
    ensures Sized(RecordFrames(r))
  {
    NumberOfDecimal(r.paragraph);
    assert Sized(HeadFrames(r)) && Sized(RowFrames(r.gte));
    MatrixSized(r.late);
    SizedAppend(HeadFrames(r), MatrixFrames(r.late));
    SizedAppend(HeadFrames(r) + MatrixFrames(r.late), RowFrames(r.gte));
  }

  lemma {:induction false} AllSized(rs: seq<Record>)
    requires forall i :: 0 <= i < |rs| ==> Identified(rs[i])
    ensures Sized(AllFrames(rs))
    decreases |rs|
  {
    if rs != [] {
      AllSized(rs[1..]);
      RecordSized(rs[0]);
      SizedAppend(RecordFrames(rs[0]), AllFrames(rs[1..]));
    }
  }

  /** The reader recovers the records from the stream. */
  lemma StreamBack(rs: seq<Record>)
    requires forall i :: 0 <= i < |rs| ==> Identified(rs[i])
    ensures ReadStream(Stream(rs)) == Some(rs)
  {
    var fs := [VERSION] + AllFrames(rs);
    assert fs[1..] == AllFrames(rs);
    AllSized(rs);
    UnframeFrames(fs);
    RecordsBack(rs);
  }
}
