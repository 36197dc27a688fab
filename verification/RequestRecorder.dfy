/** RequestRecorder: one row per query, and counters that are always the tally of the rows. */
module RequestRecorder {
  import opened Ordering

  datatype Scope = Individual | Systemic

  datatype Evaluation = EvaluationSucceeded | EvaluationPartial | EvaluationFailed | EvaluationSkipped

  /** What is known of one executed query; None is an unknown evaluation status, and `wellFormed`
      stands for the identifiers, texts, counts and times. */
  datatype Attempt = Attempt(succeeded: bool, scope: Option<Scope>, evaluation: Option<Evaluation>, posted: bool, wellFormed: bool)

  datatype Query = Query(sourceIndex: nat, queryId: string)

  datatype Entry = Attempted(attempt: Attempt) | NotAttempted(reason: string)

  datatype Row = Row(sequence: nat, sourceIndex: nat, entry: Entry, traceSequence: nat)

  datatype TraceStatus = StartAttempted | Active | Deleted

  datatype TraceSession = TraceSession(sequence: nat, firstQueryIndex: nat, status: TraceStatus)

  datatype Tally = Tally(
    attempted: nat, succeeded: nat, failed: nat, posts: nat, individual: nat, systemic: nat,
    evaluated: nat, partial: nat, evaluationFailed: nat, skipped: nat, notAttempted: nat)

  const NOTHING := Tally(0, 0, 0, 0, 0, 0, 0, 0, 0, 0, 0)

  predicate AttemptOk(a: Attempt) {
    a.wellFormed && a.evaluation.Some? && (a.succeeded <==> a.scope.None?)
  }

  function One(b: bool): nat {
    if b then 1 else 0
  }

  function TallyWith(t: Tally, e: Entry): Tally {
    match e
    case NotAttempted(_) => t.(notAttempted := t.notAttempted + 1)
    case Attempted(a) => Tally(
      t.attempted + 1, t.succeeded + One(a.succeeded), t.failed + One(!a.succeeded), t.posts + One(a.posted),
      t.individual + One(a.scope == Some(Individual)), t.systemic + One(a.scope == Some(Systemic)),
      t.evaluated + One(a.evaluation == Some(EvaluationSucceeded)), t.partial + One(a.evaluation == Some(EvaluationPartial)),
      t.evaluationFailed + One(a.evaluation == Some(EvaluationFailed)),
      t.skipped + One(a.evaluation == Some(EvaluationSkipped)), t.notAttempted)
  }

  function TallyOf(rows: seq<Row>): Tally {
    if rows == [] then NOTHING else TallyWith(TallyOf(rows[..|rows| - 1]), rows[|rows| - 1].entry)
  }

  ghost predicate EntriesOk(rows: seq<Row>) {
    forall i :: 0 <= i < |rows| && rows[i].entry.Attempted? ==> AttemptOk(rows[i].entry.attempt)
  }

  ghost predicate Partitioned(t: Tally) {
    && t.attempted == t.succeeded + t.failed && t.failed == t.individual + t.systemic && t.posts <= t.attempted
    && t.attempted == t.evaluated + t.partial + t.evaluationFailed + t.skipped
  }

  lemma AttemptCases(a: Attempt)
    requires AttemptOk(a)
    ensures a.succeeded || a.scope == Some(Individual) || a.scope == Some(Systemic)
    ensures One(a.scope == Some(Individual)) + One(a.scope == Some(Systemic)) == One(!a.succeeded)
    ensures One(a.evaluation == Some(EvaluationSucceeded)) + One(a.evaluation == Some(EvaluationPartial))
      + One(a.evaluation == Some(EvaluationFailed)) + One(a.evaluation == Some(EvaluationSkipped)) == 1
    ensures a.evaluation in {Some(EvaluationSucceeded), Some(EvaluationPartial), Some(EvaluationFailed), Some(EvaluationSkipped)}
  {
    if a.scope.Some? {
      assert a.scope.value.Individual? || a.scope.value.Systemic?;
    }
    match a.evaluation.value
    case EvaluationSucceeded =>
    case EvaluationPartial =>
    case EvaluationFailed =>
    case EvaluationSkipped =>
  }

  /** Every row is in exactly one status, scope and evaluation counter. */
  lemma {:induction false} TallyPartitions(rows: seq<Row>)
    requires EntriesOk(rows)
    ensures Partitioned(TallyOf(rows)) && TallyOf(rows).attempted + TallyOf(rows).notAttempted == |rows|
  {
    if rows != [] {
      var front, last := rows[..|rows| - 1], rows[|rows| - 1].entry;
      TallyPartitions(front);
      if last.Attempted? {
        assert AttemptOk(last.attempt);
        AttemptCases(last.attempt);
      }
    }
  }

  lemma TallyCounts(rows: seq<Row>)
    requires EntriesOk(rows)
    ensures TallyOf(rows).attempted + TallyOf(rows).notAttempted == |rows|
  {
    TallyPartitions(rows);
  }

  // ----------------------------------------------------------------- what each counter counts

  predicate IsAttempted(e: Entry) { e.Attempted? }

  predicate IsSuccess(e: Entry) { e.Attempted? && e.attempt.succeeded }

  predicate IsFailure(e: Entry) { e.Attempted? && !e.attempt.succeeded }

  predicate IsPost(e: Entry) { e.Attempted? && e.attempt.posted }

  predicate IsIndividual(e: Entry) { e.Attempted? && e.attempt.scope == Some(Individual) }

  predicate IsSystemic(e: Entry) { e.Attempted? && e.attempt.scope == Some(Systemic) }

  predicate IsEvaluated(e: Entry) { e.Attempted? && e.attempt.evaluation == Some(EvaluationSucceeded) }

  predicate IsPartial(e: Entry) { e.Attempted? && e.attempt.evaluation == Some(EvaluationPartial) }

  predicate IsEvaluationFailure(e: Entry) { e.Attempted? && e.attempt.evaluation == Some(EvaluationFailed) }

  predicate IsSkipped(e: Entry) { e.Attempted? && e.attempt.evaluation == Some(EvaluationSkipped) }

  predicate IsNotAttempted(e: Entry) { e.NotAttempted? }

  /** The places of the rows with such an entry. */
  function Those(rows: seq<Row>, such: Entry -> bool): set<nat> {
    set i | 0 <= i < |rows| && such(rows[i].entry)
  }

  lemma ThoseGrow(rows: seq<Row>, such: Entry -> bool)
    requires rows != []
    ensures |Those(rows, such)| == |Those(rows[..|rows| - 1], such)| + One(such(rows[|rows| - 1].entry))
  {
    var front, last := rows[..|rows| - 1], |rows| - 1;
    assert Those(rows, such) == Those(front, such) + if such(rows[last].entry) then {last} else {};
  }

  /** Every counter is the number of rows of its kind. */
  lemma {:induction false} TallyMeans(rows: seq<Row>)
    ensures TallyOf(rows).attempted == |Those(rows, IsAttempted)|
    ensures TallyOf(rows).succeeded == |Those(rows, IsSuccess)|
    ensures TallyOf(rows).failed == |Those(rows, IsFailure)|
    ensures TallyOf(rows).posts == |Those(rows, IsPost)|
    ensures TallyOf(rows).individual == |Those(rows, IsIndividual)|
    ensures TallyOf(rows).systemic == |Those(rows, IsSystemic)|
    ensures TallyOf(rows).evaluated == |Those(rows, IsEvaluated)|
    ensures TallyOf(rows).partial == |Those(rows, IsPartial)|
    ensures TallyOf(rows).evaluationFailed == |Those(rows, IsEvaluationFailure)|
    ensures TallyOf(rows).skipped == |Those(rows, IsSkipped)|
    ensures TallyOf(rows).notAttempted == |Those(rows, IsNotAttempted)|
  {
    if rows != [] {
      TallyMeans(rows[..|rows| - 1]);
      ThoseGrow(rows, IsAttempted);
      ThoseGrow(rows, IsSuccess);
      ThoseGrow(rows, IsFailure);
      ThoseGrow(rows, IsPost);
      ThoseGrow(rows, IsIndividual);
      ThoseGrow(rows, IsSystemic);
      ThoseGrow(rows, IsEvaluated);
      ThoseGrow(rows, IsPartial);
      ThoseGrow(rows, IsEvaluationFailure);
      ThoseGrow(rows, IsSkipped);
      ThoseGrow(rows, IsNotAttempted);
    }
  }

  /** An attempt that failed, in itself or in its evaluation. */
  predicate IsTrouble(e: Entry) {
    && e.Attempted?
    && (!e.attempt.succeeded || e.attempt.evaluation == Some(EvaluationFailed) || e.attempt.evaluation == Some(EvaluationPartial))
  }

  ghost predicate HasTrouble(rows: seq<Row>) {
    exists i :: 0 <= i < |rows| && IsTrouble(rows[i].entry)
  }

  /** The failure counters are zero exactly when there is no such attempt. */
  lemma TallyReports(rows: seq<Row>)
    ensures TallyOf(rows).failed > 0 || TallyOf(rows).evaluationFailed > 0 || TallyOf(rows).partial > 0 <==> HasTrouble(rows)
  {
    TallyMeans(rows);
    SomeOfThose(rows, IsFailure);
    SomeOfThose(rows, IsEvaluationFailure);
    SomeOfThose(rows, IsPartial);
    forall i | 0 <= i < |rows|
      ensures IsTrouble(rows[i].entry) <==>
        IsFailure(rows[i].entry) || IsEvaluationFailure(rows[i].entry) || IsPartial(rows[i].entry)
    {
    }
  }

  lemma SomeOfThose(rows: seq<Row>, such: Entry -> bool)
    ensures |Those(rows, such)| > 0 <==> exists i :: 0 <= i < |rows| && such(rows[i].entry)
  {
    if |Those(rows, such)| > 0 {
      var i :| i in Those(rows, such);
    }
    if exists i :: 0 <= i < |rows| && such(rows[i].entry) {
      var i :| 0 <= i < |rows| && such(rows[i].entry);
      assert i in Those(rows, such);
    }
  }

  function Indexes(rows: seq<Row>): set<nat> {
    set r | r in rows :: r.sourceIndex
  }

  ghost predicate OncePerIndex(rows: seq<Row>) {
    forall i, j :: 0 <= i < j < |rows| ==> rows[i].sourceIndex != rows[j].sourceIndex
  }

  class Recorder {
    var attempted: nat
    var succeeded: nat
    var failed: nat
    var queryPosts: nat
    var individualFailed: nat
    var systemicFailed: nat
    var evaluationSucceeded: nat
    var evaluationPartial: nat
    var evaluationFailed: nat
    var evaluationSkipped: nat
    var notAttempted: nat
    var recordedIndexes: set<nat>
    var rows: seq<Row> // the artifact
    var traceSessions: seq<TraceSession>
    var cleanups: map<string, bool>

    ghost function Totals(): Tally
      reads this
    {
      Tally(attempted, succeeded, failed, queryPosts, individualFailed, systemicFailed,
            evaluationSucceeded, evaluationPartial, evaluationFailed, evaluationSkipped, notAttempted)
    }

    ghost predicate Valid()
      reads this
    {
      && Totals() == TallyOf(rows) && recordedIndexes == Indexes(rows)
      && OncePerIndex(rows) && EntriesOk(rows)
    }

    constructor ()
      ensures Valid() && rows == [] && traceSessions == [] && cleanups == map[]
    {
      attempted, succeeded, failed, queryPosts, individualFailed, systemicFailed := 0, 0, 0, 0, 0, 0;
      evaluationSucceeded, evaluationPartial, evaluationFailed, evaluationSkipped, notAttempted := 0, 0, 0, 0, 0;
      recordedIndexes, rows, traceSessions, cleanups := {}, [], [], map[];
    }

    /** A refused attempt changes nothing; an accepted one is counted and appended. */
    method Record(q: Query, a: Attempt) returns (ok: bool)
      requires Valid()
      modifies this
      ensures Valid() && traceSessions == old(traceSessions) && cleanups == old(cleanups)
      ensures ok <==>
        q.sourceIndex !in old(recordedIndexes) && a.wellFormed && a.evaluation.Some? && (a.succeeded <==> a.scope.None?)
      ensures rows == if ok then old(rows) + [Row(old(attempted) + 1, q.sourceIndex, Attempted(a), |traceSessions|)] else old(rows)
    {
      if q.sourceIndex in recordedIndexes || !AttemptOk(a) {
        return false;
      }
      ghost var before := Totals();
      Count(a);
      var row := Row(attempted, q.sourceIndex, Attempted(a), |traceSessions|);
      assert Totals() == TallyWith(before, row.entry);
      Append(row);
      ok := true;
    }

    /** The write to the artifact. */
    method Append(row: Row)
      requires recordedIndexes == Indexes(rows) && OncePerIndex(rows) && EntriesOk(rows)
      requires row.sourceIndex !in recordedIndexes && (row.entry.Attempted? ==> AttemptOk(row.entry.attempt))
      requires Totals() == TallyWith(TallyOf(rows), row.entry)
      modifies this`rows, this`recordedIndexes
      ensures Valid() && rows == old(rows) + [row]
    {
      RowsGrow(rows, row);
      rows := rows + [row];
      recordedIndexes := recordedIndexes + {row.sourceIndex};
    }

    method Count(a: Attempt)
      requires AttemptOk(a)
      modifies this`attempted, this`queryPosts, this`succeeded, this`failed, this`individualFailed, this`systemicFailed
      modifies this`evaluationSucceeded, this`evaluationPartial, this`evaluationFailed, this`evaluationSkipped
      ensures Totals() == TallyWith(old(Totals()), Attempted(a)) && attempted == old(attempted) + 1
    {
      CountStatus(a);
      CountEvaluation(a);
    }

    method CountStatus(a: Attempt)
      requires AttemptOk(a)
      modifies this`attempted, this`queryPosts, this`succeeded, this`failed, this`individualFailed, this`systemicFailed
      ensures attempted == old(attempted) + 1 && queryPosts == old(queryPosts) + One(a.posted)
      ensures succeeded == old(succeeded) + One(a.succeeded) && failed == old(failed) + One(!a.succeeded)
      ensures individualFailed == old(individualFailed) + One(a.scope == Some(Individual))
      ensures systemicFailed == old(systemicFailed) + One(a.scope == Some(Systemic))
    {
      AttemptCases(a);
      attempted := attempted + 1;
      if a.posted {
        queryPosts := queryPosts + 1;
      }
      if a.succeeded {
        succeeded := succeeded + 1;
      } else {
        failed := failed + 1;
        if a.scope == Some(Individual) {
          individualFailed := individualFailed + 1;
        } else {
          systemicFailed := systemicFailed + 1;
        }
      }
    }

    method CountEvaluation(a: Attempt)
      requires AttemptOk(a)
      modifies this`evaluationSucceeded, this`evaluationPartial, this`evaluationFailed, this`evaluationSkipped
      ensures evaluationSucceeded == old(evaluationSucceeded) + One(a.evaluation == Some(EvaluationSucceeded))
      ensures evaluationPartial == old(evaluationPartial) + One(a.evaluation == Some(EvaluationPartial))
      ensures evaluationFailed == old(evaluationFailed) + One(a.evaluation == Some(EvaluationFailed))
      ensures evaluationSkipped == old(evaluationSkipped) + One(a.evaluation == Some(EvaluationSkipped))
    {
      AttemptCases(a);
      if a.evaluation == Some(EvaluationSucceeded) {
        evaluationSucceeded := evaluationSucceeded + 1;
      } else if a.evaluation == Some(EvaluationPartial) {
        evaluationPartial := evaluationPartial + 1;
      } else if a.evaluation == Some(EvaluationFailed) {
        evaluationFailed := evaluationFailed + 1;
      } else {
        evaluationSkipped := evaluationSkipped + 1;
      }
    }

    method CountMissing(ghost reason: string)
      modifies this`notAttempted
      ensures Totals() == TallyWith(old(Totals()), NotAttempted(reason)) && notAttempted == old(notAttempted) + 1
    {
      notAttempted := notAttempted + 1;
    }

    method RecordNotAttempted(q: Query, reason: string) returns (ok: bool)
      requires Valid()
      modifies this
      ensures Valid() && traceSessions == old(traceSessions) && cleanups == old(cleanups)
      ensures ok <==> q.sourceIndex !in old(recordedIndexes) && reason != ""
      ensures rows == if ok then old(rows) + [Row(|old(rows)| + 1, q.sourceIndex, NotAttempted(reason), 0)] else old(rows)
    {
      if reason == "" || q.sourceIndex in recordedIndexes {
        return false;
      }
      TallyCounts(rows);
      CountMissing(reason);
      Append(Row(attempted + notAttempted, q.sourceIndex, NotAttempted(reason), 0));
      ok := true;
    }
  }

  lemma RowsGrow(rows: seq<Row>, row: Row)
    requires OncePerIndex(rows) && EntriesOk(rows) && row.sourceIndex !in Indexes(rows)
    requires row.entry.Attempted? ==> AttemptOk(row.entry.attempt)
    ensures OncePerIndex(rows + [row]) && EntriesOk(rows + [row])
    ensures Indexes(rows + [row]) == Indexes(rows) + {row.sourceIndex}
    ensures TallyOf(rows + [row]) == TallyWith(TallyOf(rows), row.entry)
  {
    assert (rows + [row])[..|rows|] == rows;
    forall i | 0 <= i < |rows| ensures rows[i].sourceIndex in Indexes(rows) {
      assert rows[i] in rows;
    }
    forall x | x in Indexes(rows) ensures x in Indexes(rows + [row]) {
      var r :| r in rows && r.sourceIndex == x;
      assert r in rows + [row];
    }
    assert row in rows + [row];
  }
}
