/** `storage_integrity`: the canonical stream of a set of persisted chunks, or the first fault. */
module StorageIntegrity {
  import opened Ordering
  import opened Sequences
  import opened StorageStream

  datatype Error =
    | MalformedChunkId | DuplicateIds | MalformedIdentity | IdsDiffer | MalformedUser
    | MalformedParagraph | EmptyText | MalformedLate | LateShape | LateValue | GteShape | GteValue

  datatype Integrity = Integrity(chunkIds: seq<Id>, stream: Bytes, count: nat,
                                 lateDimension: Option<nat>, gteDimension: Option<nat>)

  datatype Result = Ok(integrity: Integrity) | Err(error: Error)

  /** IEEE 754: an exponent of all ones is an infinity or not a number. */
  predicate Finite(d: Double) {
    !(d[0] % 128 == 127 && d[1] >= 240)
  }

  predicate AllFinite(v: Vector) {
    forall i :: 0 <= i < |v| ==> Finite(v[i])
  }

  /** The eleven bits after the sign, read as a number, are not all ones. */
  lemma FiniteExactly(d: Double)
    ensures Finite(d) <==> (256 * (d[0] as int) + d[1] as int) / 16 % 2048 != 2047
  {
    ExponentBits(d[0] as int, d[1] as int);
  }

  lemma ExponentBits(a: int, b: int)
    requires 0 <= a < 256 && 0 <= b < 256
    ensures (256 * a + b) / 16 % 2048 == 16 * (a % 128) + b / 16
  {
    var sign, top, low := a / 128, a % 128, b / 16;
    assert 256 * a + b == 16 * (2048 * sign + (16 * top + low)) + b % 16;
    assert (256 * a + b) / 16 == 2048 * sign + (16 * top + low);
  }

  // ----------------------------------------------------------------- the first fault

  function RowsFault(rows: seq<Vector>, late: Option<nat>): Option<Error>
    decreases |rows|
  {
    if rows == [] then None
    else if late.Some? && |rows[0]| != late.value then Some(LateShape)
    else if !AllFinite(rows[0]) then Some(LateValue)
    else RowsFault(rows[1..], Some(|rows[0]|))
  }

  function GteFault(v: Vector, gte: Option<nat>): Option<Error> {
    if gte.Some? && |v| != gte.value then Some(GteShape) else if !AllFinite(v) then Some(GteValue) else None
  }

  function IdentityFault(r: Record): Option<Error> {
    if r.objectId.None? || r.documentId.None? then Some(MalformedIdentity)
    else if r.objectId != r.chunkId then Some(IdsDiffer)
    else if r.user == [] then Some(MalformedUser)
    else if r.paragraph <= 0 then Some(MalformedParagraph)
    else if r.text == [] then Some(EmptyText)
    else if r.late == [] then Some(MalformedLate)
    else None
  }

  function RecordFault(r: Record, late: Option<nat>, gte: Option<nat>): Option<Error> {
    if IdentityFault(r).Some? then IdentityFault(r)
    else if RowsFault(r.late, late).Some? then RowsFault(r.late, late)
    else GteFault(r.gte, gte)
  }

  /** The records are read in order, and the first one fixes both dimensions. */
  function FirstFault(rs: seq<Record>, late: Option<nat>, gte: Option<nat>): Option<Error>
    decreases |rs|
  {
    if rs == [] then None
    else
      var fault := RecordFault(rs[0], late, gte);
      if fault.Some? then fault else FirstFault(rs[1..], Some(|rs[0].late[0]|), Some(|rs[0].gte|))
  }

  // ----------------------------------------------------------------- sorting by chunk id

  function IdOf(r: Record): string {
    if r.chunkId.Some? then r.chunkId.value else ""
  }

  function Keys(rs: seq<Record>): (ks: seq<string>)
    ensures |ks| == |rs|
  {
    seq(|rs|, i requires 0 <= i < |rs| => IdOf(rs[i]))
  }

  function Insert(rs: seq<Record>, r: Record): seq<Record>
    decreases |rs|
  {
    if rs == [] || Less(IdOf(r), IdOf(rs[0])) then [r] + rs else [rs[0]] + Insert(rs[1..], r)
  }

  /** A stable sort. */
  function Sorted(rs: seq<Record>): seq<Record>
    decreases |rs|
  {
    if rs == [] then [] else Insert(Sorted(rs[..|rs| - 1]), rs[|rs| - 1])
  }

  predicate Identifiable(rs: seq<Record>) {
    forall i :: 0 <= i < |rs| ==> rs[i].chunkId.Some?
  }

  predicate DistinctIds(rs: seq<Record>) {
    forall i, j :: 0 <= i < j < |rs| ==> IdOf(rs[i]) != IdOf(rs[j])
  }

  predicate Ascending(rs: seq<Record>) {
    forall i, j :: 0 <= i < j < |rs| ==> !Less(IdOf(rs[j]), IdOf(rs[i]))
  }

  lemma AscendingCons(head: Record, tail: seq<Record>)
    requires Ascending(tail) && forall x :: x in tail ==> !Less(IdOf(x), IdOf(head))
    ensures Ascending([head] + tail)
  {
  }

  lemma SmallestFirst(rs: seq<Record>, r: Record)
    requires rs != [] && Ascending(rs) && Less(IdOf(r), IdOf(rs[0]))
    ensures forall x :: x in rs ==> !Less(IdOf(x), IdOf(r))
  {
    forall j | 0 <= j < |rs| ensures !Less(IdOf(rs[j]), IdOf(r)) {
      if Less(IdOf(rs[j]), IdOf(r)) {
        LessTransitive(IdOf(rs[j]), IdOf(r), IdOf(rs[0]));
        LessTotal(IdOf(rs[j]), IdOf(rs[0]));
      }
    }
  }

  lemma {:induction false} InsertSorts(rs: seq<Record>, r: Record)
    requires Ascending(rs)
    ensures Ascending(Insert(rs, r)) && multiset(Insert(rs, r)) == multiset(rs) + multiset{r}
    decreases |rs|
  {
    if rs == [] {
    } else if Less(IdOf(r), IdOf(rs[0])) {
      SmallestFirst(rs, r);
      AscendingCons(r, rs);
    } else {
      var head, tail := rs[0], rs[1..];
      var inserted := Insert(tail, r);
      InsertSorts(tail, r);
      Uncons(rs);
      forall x | x in inserted ensures !Less(IdOf(x), IdOf(head)) {
        assert x in multiset(inserted);
        assert x == r || x in multiset(tail);
      }
      AscendingCons(head, inserted);
    }
  }

  lemma {:induction false} SortSorts(rs: seq<Record>)
    ensures Ascending(Sorted(rs)) && multiset(Sorted(rs)) == multiset(rs)
    decreases |rs|
  {
    if rs != [] {
      var front, last := rs[..|rs| - 1], rs[|rs| - 1];
      SortSorts(front);
      InsertSorts(Sorted(front), last);
      assert rs == front + [last];
    }
  }

  // ----------------------------------------------------------------- the outcome

  /** Everything the second loop asks of one record, given the two dimensions. */
  ghost predicate Shaped(r: Record, late: nat, gte: nat) {
    && r.objectId.Some? && r.documentId.Some? && r.objectId == r.chunkId
    && r.user != [] && r.paragraph > 0 && r.text != [] && r.late != []
    && (forall j :: 0 <= j < |r.late| ==> |r.late[j]| == late && AllFinite(r.late[j]))
    && |r.gte| == gte && AllFinite(r.gte)
  }

  ghost predicate AllShaped(rs: seq<Record>, late: nat, gte: nat) {
    forall i :: 0 <= i < |rs| ==> Shaped(rs[i], late, gte)
  }

  lemma {:induction false} RowsFaultExactly(rows: seq<Vector>, late: nat)
    ensures RowsFault(rows, Some(late)).None? <==>
      forall j :: 0 <= j < |rows| ==> |rows[j]| == late && AllFinite(rows[j])
    decreases |rows|
  {
    if rows != [] {
      var tail := rows[1..];
      RowsFaultExactly(tail, |rows[0]|);
      assert forall j :: 0 < j < |rows| ==> rows[j] == tail[j - 1];
      assert forall j :: 0 <= j < |tail| ==> tail[j] == rows[j + 1];
    }
  }

  lemma RecordFaultExactly(r: Record, late: Option<nat>, gte: Option<nat>)
    requires r.late != []
    ensures var l := if late.Some? then late.value else |r.late[0]|;
      var g := if gte.Some? then gte.value else |r.gte|;
      RecordFault(r, late, gte).None? <==> Shaped(r, l, g)
  {
    var l := if late.Some? then late.value else |r.late[0]|;
    RowsFaultExactly(r.late, l);
    assert late.None? ==> RowsFault(r.late, late) == RowsFault(r.late, Some(l));
  }

  lemma {:induction false} FirstFaultExactly(rs: seq<Record>, late: nat, gte: nat)
    ensures FirstFault(rs, Some(late), Some(gte)).None? <==> AllShaped(rs, late, gte)
    decreases |rs|
  {
    if rs != [] {
      var tail := rs[1..];
      assert forall i :: 0 < i < |rs| ==> rs[i] == tail[i - 1];
      assert forall i :: 0 <= i < |tail| ==> tail[i] == rs[i + 1];
      if rs[0].late == [] {
        assert !Shaped(rs[0], late, gte);
      } else {
        RecordFaultExactly(rs[0], Some(late), Some(gte));
        if Shaped(rs[0], late, gte) {
          assert |rs[0].late[0]| == late;
          FirstFaultExactly(tail, late, gte);
        }
      }
    }
  }

  /** Reading in order finds no fault exactly when some pair of dimensions suits every record. */
  lemma NoFaultExactly(rs: seq<Record>)
    ensures FirstFault(rs, None, None).None? <==> exists l: nat, g: nat :: AllShaped(rs, l, g)
    ensures FirstFault(rs, None, None).None? && rs != [] ==> rs[0].late != [] && AllShaped(rs, |rs[0].late[0]|, |rs[0].gte|)
  {
    if rs == [] {
      assert AllShaped(rs, 0, 0);
    } else if rs[0].late == [] {
      assert forall l: nat, g: nat :: AllShaped(rs, l, g) ==> Shaped(rs[0], l, g);
    } else {
      var l, g := |rs[0].late[0]|, |rs[0].gte|;
      RecordFaultExactly(rs[0], None, None);
      RecordFaultExactly(rs[0], Some(l), Some(g));
      FirstFaultExactly(rs, l, g);
      forall l2: nat, g2: nat | AllShaped(rs, l2, g2) ensures l2 == l && g2 == g {
        assert Shaped(rs[0], l2, g2);
      }
    }
  }

  /** What a record shows for an error; the dimensions are those that the first record sets. */
  ghost predicate Shows(r: Record, e: Error, late: nat, gte: nat) {
    match e
    case MalformedIdentity => r.objectId.None? || r.documentId.None?
    case IdsDiffer => r.objectId.Some? && r.objectId != r.chunkId
    case MalformedUser => r.user == []
    case MalformedParagraph => r.paragraph <= 0
    case EmptyText => r.text == []
    case MalformedLate => r.late == []
    case LateShape => exists j :: 0 <= j < |r.late| && |r.late[j]| != late
    case LateValue => exists j :: 0 <= j < |r.late| && HasInfinity(r.late[j])
    case GteShape => |r.gte| != gte
    case GteValue => HasInfinity(r.gte)
    case _ => false
  }

  /** Some number is an infinity or not a number. */
  ghost predicate HasInfinity(v: Vector) {
    exists k :: 0 <= k < |v| && (256 * (v[k][0] as int) + v[k][1] as int) / 16 % 2048 == 2047
  }

  lemma HasInfinityExactly(v: Vector)
    ensures HasInfinity(v) <==> !AllFinite(v)
  {
    forall k | 0 <= k < |v| ensures Finite(v[k]) <==> (256 * (v[k][0] as int) + v[k][1] as int) / 16 % 2048 != 2047 {
      FiniteExactly(v[k]);
    }
  }

  /** The length of the first row, as far as there is one. */
  function LateOf(r: Record): nat {
    if r.late == [] then 0 else |r.late[0]|
  }

  lemma {:induction false} RowsShow(rows: seq<Vector>, late: nat)
    requires RowsFault(rows, Some(late)).Some?
    ensures RowsFault(rows, Some(late)) == Some(LateShape) ==> exists j :: 0 <= j < |rows| && |rows[j]| != late
    ensures RowsFault(rows, Some(late)) == Some(LateValue) ==> exists j :: 0 <= j < |rows| && HasInfinity(rows[j])
    ensures RowsFault(rows, Some(late)).value in {LateShape, LateValue}
    decreases |rows|
  {
    HasInfinityExactly(rows[0]);
    if |rows[0]| == late && AllFinite(rows[0]) {
      RowsShow(rows[1..], late);
    }
  }

  lemma RecordShows(r: Record, late: Option<nat>, gte: Option<nat>, l: nat, g: nat)
    requires RecordFault(r, late, gte).Some?
    requires late.Some? ==> l == late.value
    requires late.None? && r.late != [] ==> l == |r.late[0]|
    requires g == if gte.Some? then gte.value else |r.gte|
    ensures Shows(r, RecordFault(r, late, gte).value, l, g)
  {
    if IdentityFault(r).None? {
      assert late.None? ==> RowsFault(r.late, late) == RowsFault(r.late, Some(l));
      if RowsFault(r.late, late).Some? {
        RowsShow(r.late, l);
      } else {
        HasInfinityExactly(r.gte);
      }
    }
  }

  lemma {:induction false} FaultShows(rs: seq<Record>, late: nat, gte: nat)
    requires FirstFault(rs, Some(late), Some(gte)).Some?
    ensures exists i :: 0 <= i < |rs| && Shows(rs[i], FirstFault(rs, Some(late), Some(gte)).value, late, gte)
    decreases |rs|
  {
    var r := rs[0];
    if RecordFault(r, Some(late), Some(gte)).Some? {
      RecordShows(r, Some(late), Some(gte), late, gte);
    } else {
      RecordFaultExactly(r, Some(late), Some(gte));
      assert |r.late[0]| == late;
      FaultShows(rs[1..], late, gte);
    }
  }

  lemma FirstFaultShows(rs: seq<Record>)
    requires FirstFault(rs, None, None).Some?
    ensures exists i :: 0 <= i < |rs| && Shows(rs[i], FirstFault(rs, None, None).value, LateOf(rs[0]), |rs[0].gte|)
  {
    var r := rs[0];
    var l := LateOf(r);
    if RecordFault(r, None, None).Some? {
      RecordShows(r, None, None, l, |r.gte|);
    } else {
      FaultShows(rs[1..], l, |r.gte|);
    }
  }

  lemma ShapedIdentified(rs: seq<Record>)
    requires Identifiable(rs) && FirstFault(rs, None, None).None?
    ensures forall i :: 0 <= i < |rs| ==> Identified(rs[i])
  {
    NoFaultExactly(rs);
    forall i | 0 <= i < |rs| ensures Identified(rs[i]) {
      assert Shaped(rs[i], |rs[0].late[0]|, |rs[0].gte|);
    }
  }

  lemma SortIdentifies(rs: seq<Record>)
    requires Identifiable(rs)
    ensures Identifiable(Sorted(rs))
  {
    SortSorts(rs);
    forall i | 0 <= i < |Sorted(rs)| ensures Sorted(rs)[i].chunkId.Some? {
      assert Sorted(rs)[i] in multiset(rs);
    }
  }

  function ChunkIds(rs: seq<Record>): (ids: seq<Id>)
    requires Identifiable(rs)
    ensures |ids| == |rs|
  {
    seq(|rs|, i requires 0 <= i < |rs| => rs[i].chunkId.value)
  }

  function Outcome(records: seq<Record>): Result {
    if !Identifiable(records) then Err(MalformedChunkId)
    else
      var rs := Sorted(records);
      SortIdentifies(records);
      if !DistinctIds(rs) then Err(DuplicateIds)
      else
        var fault := FirstFault(rs, None, None);
        if fault.Some? then Err(fault.value)
        else
          ShapedIdentified(rs);
          NoFaultExactly(rs);
          Ok(Integrity(ChunkIds(rs), Stream(rs), |rs|,
                       if rs == [] then None else Some(|rs[0].late[0]|),
                       if rs == [] then None else Some(|rs[0].gte|)))
  }

  /** Some record shows the error, the dimensions being those of the record with the least chunk id. */
  ghost predicate Explained(records: seq<Record>, e: Error) {
    exists i, k :: 0 <= i < |records| && 0 <= k < |records| && Least(records, i) && Shows(records[k], e, LateOf(records[i]), |records[i].gte|)
  }

  ghost predicate Least(records: seq<Record>, i: nat) {
    i < |records| && forall j :: 0 <= j < |records| ==> !Less(IdOf(records[j]), IdOf(records[i]))
  }

  lemma SortedLeast(records: seq<Record>, rs: seq<Record>, i: nat)
    requires Ascending(rs) && multiset(rs) == multiset(records) && rs != [] && i < |records| && records[i] == rs[0]
    ensures Least(records, i)
  {
    forall j | 0 <= j < |records| ensures !Less(IdOf(records[j]), IdOf(rs[0])) {
      assert records[j] in multiset(rs);
      var n :| 0 <= n < |rs| && rs[n] == records[j];
      LessTotal(IdOf(rs[0]), IdOf(rs[n]));
    }
  }

  lemma FaultExplained(records: seq<Record>, e: Error)
    requires FirstFault(Sorted(records), None, None) == Some(e)
    ensures Explained(records, e)
  {
    var rs := Sorted(records);
    SortSorts(records);
    FirstFaultShows(rs);
    var n :| 0 <= n < |rs| && Shows(rs[n], e, LateOf(rs[0]), |rs[0].gte|);
    assert rs[n] in multiset(records) && rs[0] in multiset(records);
    var k :| 0 <= k < |records| && records[k] == rs[n];
    var i :| 0 <= i < |records| && records[i] == rs[0];
    SortedLeast(records, rs, i);
  }

  /** An error tells the truth, and an identifier that is malformed or repeated comes before the rest. */
  lemma ErrorsTell(records: seq<Record>)
    ensures Outcome(records) == Err(MalformedChunkId) <==> exists i :: 0 <= i < |records| && records[i].chunkId.None?
    ensures Outcome(records) == Err(DuplicateIds) <==> Identifiable(records) && !DistinctIds(records)
    ensures Outcome(records).Err? && Identifiable(records) && DistinctIds(records) ==> Explained(records, Outcome(records).error)
  {
    if Identifiable(records) {
      SortedSound(records);
      var fault := FirstFault(Sorted(records), None, None);
      if fault.Some? {
        FaultExplained(records, fault.value);
        assert fault.value !in {MalformedChunkId, DuplicateIds};
      }
    }
  }

  // ----------------------------------------------------------------- the order of the records

  lemma SameKeysSameRecords(a: seq<Record>, b: seq<Record>)
    requires Ascending(a) && Ascending(b) && DistinctIds(a)
    requires multiset(a) == multiset(b)
    ensures a == b
  {
    DistinctByCount(a, b);
    KeysAscend(a);
    KeysAscend(b);
    SameElements(a, b);
    SortedUnique(Keys(a), Keys(b));
    forall i | 0 <= i < |a| ensures a[i] == b[i] {
      assert a[i] in multiset(b);
      var j :| 0 <= j < |b| && b[j] == a[i];
      assert Keys(a)[i] == Keys(b)[j] == Keys(a)[j];
    }
    assert |a| == |Keys(a)| == |Keys(b)| == |b|;
  }

  function Drop(rs: seq<Record>, k: nat): (rest: seq<Record>)
    requires k < |rs|
    ensures |rest| == |rs| - 1
    ensures forall j :: 0 <= j < |rest| ==> rest[j] == if j < k then rs[j] else rs[j + 1]
  {
    rs[..k] + rs[k + 1..]
  }

  lemma DropCounts(rs: seq<Record>, k: nat)
    requires k < |rs|
    ensures multiset(Drop(rs, k)) == multiset(rs) - multiset{rs[k]}
  {
    assert rs == rs[..k] + ([rs[k]] + rs[k + 1..]);
  }

  lemma DropDistinct(rs: seq<Record>, k: nat)
    requires k < |rs| && DistinctIds(rs)
    ensures DistinctIds(Drop(rs, k))
    ensures forall r :: r in multiset(Drop(rs, k)) ==> IdOf(r) != IdOf(rs[k])
  {
    var rest := Drop(rs, k);
    forall r | r in multiset(rest) ensures IdOf(r) != IdOf(rs[k]) {
      var j :| 0 <= j < |rest| && rest[j] == r;
    }
  }

  /** Being free of repeated ids does not depend on the order. */
  lemma {:induction false} DistinctByCount(a: seq<Record>, b: seq<Record>)
    requires DistinctIds(a) && multiset(a) == multiset(b)
    ensures DistinctIds(b)
    decreases |b|
  {
    if b != [] {
      var front, last := b[..|b| - 1], b[|b| - 1];
      assert b == front + [last];
      assert last in multiset(a);
      var k :| 0 <= k < |a| && a[k] == last;
      DropCounts(a, k);
      DropDistinct(a, k);
      DistinctByCount(Drop(a, k), front);
      SnocDistinct(front, last);
    }
  }

  lemma SnocDistinct(front: seq<Record>, last: Record)
    requires DistinctIds(front) && forall r :: r in multiset(front) ==> IdOf(r) != IdOf(last)
    ensures DistinctIds(front + [last])
  {
    forall i | 0 <= i < |front| ensures IdOf(front[i]) != IdOf(last) {
      assert front[i] in multiset(front);
    }
  }

  lemma KeysAscend(rs: seq<Record>)
    requires Ascending(rs) && DistinctIds(rs)
    ensures StrictlySorted(Keys(rs))
  {
    forall i, j | 0 <= i < j < |rs| ensures Less(Keys(rs)[i], Keys(rs)[j]) {
      LessTotal(IdOf(rs[i]), IdOf(rs[j]));
    }
  }

  lemma SameElements(a: seq<Record>, b: seq<Record>)
    requires multiset(a) == multiset(b)
    ensures Elements(Keys(a)) == Elements(Keys(b))
  {
    forall x | x in Keys(a) ensures x in Keys(b) {
      var i :| 0 <= i < |a| && Keys(a)[i] == x;
      assert a[i] in multiset(b);
      var j :| 0 <= j < |b| && b[j] == a[i];
      assert Keys(b)[j] == x;
    }
    forall x | x in Keys(b) ensures x in Keys(a) {
      var i :| 0 <= i < |b| && Keys(b)[i] == x;
      assert b[i] in multiset(a);
      var j :| 0 <= j < |a| && a[j] == b[i];
      assert Keys(a)[j] == x;
    }
  }

  /** However the records are listed, the outcome is the same: the bytes, or the error. */
  lemma OrderIsIrrelevant(a: seq<Record>, b: seq<Record>)
    requires multiset(a) == multiset(b)
    ensures Outcome(a) == Outcome(b)
  {
    SortSorts(a);
    SortSorts(b);
    assert forall r :: r in multiset(a) <==> r in multiset(b);
    SameIdentifiable(a, b);
    SameIdentifiable(b, a);
    if DistinctIds(Sorted(a)) {
      SameKeysSameRecords(Sorted(a), Sorted(b));
    } else if DistinctIds(Sorted(b)) {
      DistinctByCount(Sorted(b), Sorted(a));
    }
  }

  lemma SameIdentifiable(a: seq<Record>, b: seq<Record>)
    requires multiset(a) == multiset(b)
    ensures Identifiable(a) ==> Identifiable(b)
  {
    forall i | 0 <= i < |b| && Identifiable(a) ensures b[i].chunkId.Some? {
      assert b[i] in multiset(a);
    }
  }

  // ----------------------------------------------------------------- what the stream determines

  /** The records, sorted by chunk id, are readable from the stream. */
  lemma StreamIsReadable(records: seq<Record>)
    requires Outcome(records).Ok?
    ensures ReadStream(Outcome(records).integrity.stream) == Some(Sorted(records))
  {
    var rs := Sorted(records);
    SortIdentifies(records);
    ShapedIdentified(rs);
    StreamBack(rs);
  }

  /** Two accepted lists give the same bytes exactly when they hold the same records. */
  lemma SameStreamSameRecords(a: seq<Record>, b: seq<Record>)
    requires Outcome(a).Ok? && Outcome(b).Ok?
    ensures Outcome(a).integrity.stream == Outcome(b).integrity.stream <==> multiset(a) == multiset(b)
  {
    StreamIsReadable(a);
    StreamIsReadable(b);
    SortSorts(a);
    SortSorts(b);
    if multiset(a) == multiset(b) {
      OrderIsIrrelevant(a, b);
    }
  }

  lemma SortedSound(records: seq<Record>)
    requires Identifiable(records)
    ensures (exists l: nat, g: nat :: AllShaped(Sorted(records), l, g)) <==> exists l: nat, g: nat :: AllShaped(records, l, g)
    ensures DistinctIds(Sorted(records)) <==> DistinctIds(records)
  {
    var rs := Sorted(records);
    SortSorts(records);
    forall l: nat, g: nat ensures AllShaped(rs, l, g) == AllShaped(records, l, g) {
      SameShaped(rs, records, l, g);
      SameShaped(records, rs, l, g);
    }
    if DistinctIds(rs) {
      DistinctByCount(rs, records);
    } else if DistinctIds(records) {
      DistinctByCount(records, rs);
    }
  }

  /** Exactly what is accepted. */
  lemma AcceptedExactly(records: seq<Record>)
    ensures Outcome(records).Ok? <==>
      Identifiable(records) && DistinctIds(records) && exists l: nat, g: nat :: AllShaped(records, l, g)
  {
    if Identifiable(records) {
      SortedSound(records);
      SortIdentifies(records);
      NoFaultExactly(Sorted(records));
    }
  }

  /** What is reported besides the bytes: the ids in order, their number, and the two dimensions
      that every record has. */
  lemma ReportedExactly(records: seq<Record>)
    requires Outcome(records).Ok?
    ensures var it := Outcome(records).integrity;
      && it.count == |records| && StrictlySorted(it.chunkIds)
      && Elements<string>(it.chunkIds) == Elements(Keys(records))
      && (records == [] <==> it.lateDimension.None?) && (records == [] <==> it.gteDimension.None?)
      && (records != [] ==> AllShaped(records, it.lateDimension.value, it.gteDimension.value))
  {
    var rs := Sorted(records);
    SortSorts(records);
    SortIdentifies(records);
    NoFaultExactly(rs);
    assert |rs| == |multiset(rs)| == |records|;
    SameElements(rs, records);
    KeysAscend(rs);
    assert Keys(rs) == Outcome(records).integrity.chunkIds;
    if rs != [] {
      SameShaped(rs, records, |rs[0].late[0]|, |rs[0].gte|);
    }
  }

  lemma SameShaped(a: seq<Record>, b: seq<Record>, l: nat, g: nat)
    requires multiset(a) == multiset(b)
    ensures AllShaped(a, l, g) ==> AllShaped(b, l, g)
  {
    forall i | 0 <= i < |b| && AllShaped(a, l, g) ensures Shaped(b[i], l, g) {
      assert b[i] in multiset(a);
    }
  }

  // ----------------------------------------------------------------- the computation

  /** A hash object, known here by the bytes it has been fed. */
  class Digest {
    var fed: Bytes

    constructor ()
      ensures fed == []
    {
      fed := [];
    }

    method Update(value: Bytes)
      modifies this
      ensures fed == old(fed) + value
    {
      fed := fed + value;
    }

    method Frame(value: Bytes)
      modifies this
      ensures fed == old(fed) + StorageStream.Frame(value)
    {
      Update(Length(|value|));
      Update(value);
      Associates(old(fed), Length(|value|), value);
    }

    /** The length of a vector and its numbers, up to one that is not finite. */
    method Vector(v: Vector) returns (fault: bool)
      modifies this
      ensures fault <==> !AllFinite(v)
      ensures !fault ==> fed == old(fed) + Frames(RowFrames(v))
    {
      Frame(Length(|v|));
      var i := 0;
      FramesOfCons(Length(|v|), []);
      while i < |v|
        invariant 0 <= i <= |v|
        invariant forall j :: 0 <= j < i ==> Finite(v[j])
        invariant fed == old(fed) + Frames([Length(|v|)] + v[..i])
      {
        if !Finite(v[i]) {
          return true;
        }
        Frame(v[i]);
        VectorNext(old(fed), v, i);
        i := i + 1;
      }
      assert v[..i] == v;
      fault := false;
    }

    method Row(row: Vector, dimension: Option<nat>) returns (fault: Option<Error>)
      modifies this
      ensures fault == RowsFault([row], dimension)
      ensures fault.None? ==> fed == old(fed) + Frames(RowFrames(row))
    {
      if dimension.Some? && |row| != dimension.value {
        return Some(LateShape);
      }
      var bad := Vector(row);
      fault := if bad then Some(LateValue) else None;
    }

    method Matrix(rows: Matrix, dimension: Option<nat>) returns (fault: Option<Error>)
      modifies this
      ensures fault == RowsFault(rows, dimension)
      ensures fault.None? ==> fed == old(fed) + Frames(MatrixFrames(rows))
    {
      var expected: Option<nat> := dimension;
      var i := 0;
      while i < |rows|
        invariant 0 <= i <= |rows|
        invariant RowsFault(rows, dimension) == RowsFault(rows[i..], expected)
        invariant fed == old(fed) + Frames(MatrixFrames(rows[..i]))
      {
        RowAt(rows, i, expected);
        fault := Row(rows[i], expected);
        if fault.Some? {
          return;
        }
        MatrixNext(old(fed), rows, i);
        expected := Some(|rows[i]|);
        i := i + 1;
      }
      assert rows[..i] == rows;
      fault := None;
    }

    method Head(r: Record)
      requires Identified(r)
      modifies this
      ensures fed == old(fed) + Frames(HeadFrames(r))
    {
      var head := HeadFrames(r);
      var i := 0;
      while i < 7
        invariant 0 <= i <= 7 && fed == old(fed) + Frames(head[..i])
      {
        Frame(head[i]);
        FramesNext(old(fed), head, i);
        i := i + 1;
      }
      assert head[..7] == head;
    }

    /** One record's identifiers, text and vectors, in that order. */
    method Record(r: Record, late: Option<nat>, gte: Option<nat>) returns (fault: Option<Error>)
      requires r.chunkId.Some?
      modifies this
      ensures fault == RecordFault(r, late, gte)
      ensures fault.None? ==> Identified(r) && fed == old(fed) + Frames(RecordFrames(r))
    {
      fault := IdentityFault(r);
      if fault.Some? {
        return;
      }
      Head(r);
      fault := Matrix(r.late, late);
      if fault.Some? {
        return;
      }
      if gte.Some? && |r.gte| != gte.value {
        return Some(GteShape);
      }
      var bad := Vector(r.gte);
      fault := if bad then Some(GteValue) else None;
      RecordStep(old(fed), r);
    }
  }

  /** The dimensions once these records have been read. */
  ghost predicate Dimensions(rs: seq<Record>, late: Option<nat>, gte: Option<nat>) {
    if rs == [] then late.None? && gte.None?
    else rs[|rs| - 1].late != [] && late == Some(|rs[|rs| - 1].late[0]|) && gte == Some(|rs[|rs| - 1].gte|)
  }

  /** What the loop over the records has fed the digest when it comes to the i-th. */
  ghost predicate Fed(rs: seq<Record>, i: nat, fed: Bytes) {
    i <= |rs| && (forall j :: 0 <= j < i ==> Identified(rs[j])) && fed == Stream(rs[..i])
  }

  /** And what it knows of the dimensions. */
  ghost predicate Reading(rs: seq<Record>, i: nat, late: Option<nat>, gte: Option<nat>) {
    i <= |rs| && FirstFault(rs, None, None) == FirstFault(rs[i..], late, gte) && Dimensions(rs[..i], late, gte)
  }

  lemma ReadingFault(rs: seq<Record>, i: nat, late: Option<nat>, gte: Option<nat>)
    requires Reading(rs, i, late, gte) && i < |rs| && RecordFault(rs[i], late, gte).Some?
    ensures FirstFault(rs, None, None) == RecordFault(rs[i], late, gte)
  {
    FaultStep(rs, i, late, gte);
  }

  lemma ReadingOn(rs: seq<Record>, i: nat, late: Option<nat>, gte: Option<nat>)
    requires Reading(rs, i, late, gte) && i < |rs| && RecordFault(rs[i], late, gte).None?
    ensures rs[i].late != []
    ensures Reading(rs, i + 1, Some(|rs[i].late[0]|), Some(|rs[i].gte|))
  {
    FaultStep(rs, i, late, gte);
    assert rs[..i + 1][i] == rs[i];
  }

  lemma FedOn(rs: seq<Record>, i: nat, fed: Bytes)
    requires Fed(rs, i, fed) && i < |rs| && Identified(rs[i])
    ensures Fed(rs, i + 1, fed + Frames(RecordFrames(rs[i])))
  {
    assert rs[..i] + [rs[i]] == rs[..i + 1];
    StreamStep(rs[..i], rs[i]);
  }

  method DigestRecords(rs: seq<Record>)
      returns (fault: Option<Error>, fed: Bytes, late: Option<nat>, gte: Option<nat>)
    requires Identifiable(rs)
    ensures fault == FirstFault(rs, None, None)
    ensures fault.None? ==> (forall j :: 0 <= j < |rs| ==> Identified(rs[j])) && fed == Stream(rs)
    ensures fault.None? ==> Dimensions(rs, late, gte)
  {
    var digest := new Digest();
    digest.Frame(VERSION);
    late, gte := None, None;
    assert Frame(VERSION) + [] == Frame(VERSION);
    var i := 0;
    while i < |rs|
      invariant 0 <= i <= |rs| && Reading(rs, i, late, gte) && Fed(rs, i, digest.fed)
    {
      var r := rs[i];
      ghost var before := digest.fed;
      fault := digest.Record(r, late, gte);
      if fault.Some? {
        ReadingFault(rs, i, late, gte);
        fed := digest.fed;
        return;
      }
      ReadingOn(rs, i, late, gte);
      FedOn(rs, i, before);
      late, gte := Some(|r.late[0]|), Some(|r.gte|);
      i := i + 1;
    }
    assert rs[..i] == rs;
    fault, fed := None, digest.fed;
  }

  method StorageIntegrity(records: seq<Record>) returns (result: Result)
    ensures result == Outcome(records)
  {
    if exists i :: 0 <= i < |records| && records[i].chunkId.None? {
      return Err(MalformedChunkId);
    }
    var canonical := Sorted(records);
    SortIdentifies(records);
    KeysDistinct(canonical);
    var ids := Elements(Keys(canonical));
    if |ids| != |canonical| {
      return Err(DuplicateIds);
    }
    var fault, fed, late, gte := DigestRecords(canonical);
    if fault.Some? {
      return Err(fault.value);
    }
    if canonical != [] {
      FirstIsLast(canonical);
    }
    result := Ok(Integrity(ChunkIds(canonical), fed, |canonical|, late, gte));
  }

  lemma FaultStep(rs: seq<Record>, i: nat, late: Option<nat>, gte: Option<nat>)
    requires i < |rs|
    ensures RecordFault(rs[i], late, gte).Some? ==> FirstFault(rs[i..], late, gte) == RecordFault(rs[i], late, gte)
    ensures RecordFault(rs[i], late, gte).None? ==> rs[i].late != []
    ensures RecordFault(rs[i], late, gte).None? ==>
      FirstFault(rs[i..], late, gte) == FirstFault(rs[i + 1..], Some(|rs[i].late[0]|), Some(|rs[i].gte|))
  {
    assert rs[i..][1..] == rs[i + 1..];
  }

  lemma KeysDistinct(rs: seq<Record>)
    ensures |Elements(Keys(rs))| == |rs| <==> DistinctIds(rs)
  {
    var ks := Keys(rs);
    CountsDistinct(ks);
    if DistinctIds(rs) {
      assert Distinct(ks);
    } else {
      var i, j :| 0 <= i < j < |rs| && IdOf(rs[i]) == IdOf(rs[j]);
      assert ks[i] == ks[j];
    }
  }

  lemma FirstIsLast(rs: seq<Record>)
    requires FirstFault(rs, None, None).None? && rs != []
    ensures rs[0].late != [] && rs[|rs| - 1].late != []
    ensures |rs[0].late[0]| == |rs[|rs| - 1].late[0]| && |rs[0].gte| == |rs[|rs| - 1].gte|
  {
    NoFaultExactly(rs);
    assert Shaped(rs[|rs| - 1], |rs[0].late[0]|, |rs[0].gte|);
  }

  lemma StreamStep(rs: seq<Record>, r: Record)
    requires (forall j :: 0 <= j < |rs| ==> Identified(rs[j])) && Identified(r)
    ensures Stream(rs) + Frames(RecordFrames(r)) == Stream(rs + [r])
  {
    AllFramesOfSnoc(rs, r);
    FramesAppend(AllFrames(rs), RecordFrames(r));
    Associates(Frame(VERSION), Frames(AllFrames(rs)), Frames(RecordFrames(r)));
  }

  lemma {:induction false} AllFramesOfSnoc(rs: seq<Record>, r: Record)
    requires (forall j :: 0 <= j < |rs| ==> Identified(rs[j])) && Identified(r)
    ensures AllFrames(rs + [r]) == AllFrames(rs) + RecordFrames(r)
    decreases |rs|
  {
    if rs == [] {
      assert rs + [r] == [r];
      assert [] + RecordFrames(r) == RecordFrames(r) + [];
    } else {
      AllFramesOfSnoc(rs[1..], r);
      var whole := rs + [r];
      assert whole[1..] == rs[1..] + [r] && whole[0] == rs[0];
      Slices(RecordFrames(rs[0]), AllFrames(rs[1..]), RecordFrames(r));
    }
  }

  lemma FramesNext(before: Bytes, vs: seq<Bytes>, i: nat)
    requires i < |vs|
    ensures before + Frames(vs[..i]) + StorageStream.Frame(vs[i]) == before + Frames(vs[..i + 1])
  {
    TakeNext(vs, i);
    FramesOfSnoc(before, vs[..i], vs[i]);
  }

  lemma VectorNext(before: Bytes, v: Vector, i: nat)
    requires i < |v|
    ensures before + Frames([Length(|v|)] + v[..i]) + StorageStream.Frame(v[i]) == before + Frames([Length(|v|)] + v[..i + 1])
  {
    TakeNext(v, i);
    Associates([Length(|v|)], v[..i], [v[i]]);
    FramesOfSnoc(before, [Length(|v|)] + v[..i], v[i]);
  }

  lemma RowAt(rows: seq<Vector>, i: nat, dimension: Option<nat>)
    requires i < |rows|
    ensures var fault := RowsFault([rows[i]], dimension);
      RowsFault(rows[i..], dimension) == if fault.Some? then fault else RowsFault(rows[i + 1..], Some(|rows[i]|))
  {
    FirstRow(rows[i..], dimension);
    assert rows[i..][1..] == rows[i + 1..];
  }

  lemma MatrixNext(before: Bytes, rows: seq<Vector>, i: nat)
    requires i < |rows|
    ensures before + Frames(MatrixFrames(rows[..i])) + Frames(RowFrames(rows[i])) == before + Frames(MatrixFrames(rows[..i + 1]))
  {
    MatrixStep(before, rows[..i], rows[i]);
    assert rows[..i] + [rows[i]] == rows[..i + 1];
  }

  lemma FirstRow(rows: seq<Vector>, dimension: Option<nat>)
    requires rows != []
    ensures var fault := RowsFault([rows[0]], dimension);
      RowsFault(rows, dimension) == if fault.Some? then fault else RowsFault(rows[1..], Some(|rows[0]|))
  {
  }

  lemma RecordStep(before: Bytes, r: Record)
    requires Identified(r)
    ensures before + Frames(HeadFrames(r)) + Frames(MatrixFrames(r.late)) + Frames(RowFrames(r.gte))
         == before + Frames(RecordFrames(r))
  {
    FramesAppend(HeadFrames(r), MatrixFrames(r.late));
    FramesAppend(HeadFrames(r) + MatrixFrames(r.late), RowFrames(r.gte));
    Associates(before, Frames(HeadFrames(r)), Frames(MatrixFrames(r.late)));
    Associates(before, Frames(HeadFrames(r) + MatrixFrames(r.late)), Frames(RowFrames(r.gte)));
  }

  lemma FramesOfSnoc(before: Bytes, vs: seq<Bytes>, v: Bytes)
    ensures before + Frames(vs) + StorageStream.Frame(v) == before + Frames(vs + [v])
  {
    FramesAppend(vs, [v]);
    FramesOfCons(v, []);
    assert [v] + [] == [v];
    Associates(before, Frames(vs), StorageStream.Frame(v));
  }

  lemma MatrixStep(before: Bytes, rows: seq<Vector>, row: Vector)
    ensures before + Frames(MatrixFrames(rows)) + Frames(RowFrames(row)) == before + Frames(MatrixFrames(rows + [row]))
  {
    MatrixOfSnoc(rows, row);
    FramesAppend(MatrixFrames(rows), RowFrames(row));
    Associates(before, Frames(MatrixFrames(rows)), Frames(RowFrames(row)));
  }

  lemma MatrixOfCons(row: Vector, rows: seq<Vector>)
    ensures MatrixFrames([row] + rows) == RowFrames(row) + MatrixFrames(rows)
  {
    Cons(row, rows);
  }

  lemma {:induction false} MatrixOfSnoc(rows: seq<Vector>, row: Vector)
    ensures MatrixFrames(rows + [row]) == MatrixFrames(rows) + RowFrames(row)
    decreases |rows|
  {
    if rows == [] {
      assert rows + [row] == [row] + [];
      MatrixOfCons(row, []);
    } else {
      var first, rest := rows[0], rows[1..];
      Uncons(rows);
      MatrixOfSnoc(rest, row);
      Associates([first], rest, [row]);
      MatrixOfCons(first, rest);
      MatrixOfCons(first, rest + [row]);
      Associates(RowFrames(first), MatrixFrames(rest), RowFrames(row));
    }
  }
}
