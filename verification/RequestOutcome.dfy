/** What the dataset query loop is to do in a given world: which turns are taken, what each leaves
    to be recorded, and when the phase raises. */
module RequestOutcome {
  import opened Ordering
  import opened RequestRecorder

  const ROTATION := 64
  const ABORTED := "SYSTEMIC_BATCH_ABORT"

  /** One POST that creates a chat session. */
  datatype SessionStep =
    | SessionCreated(id: string)
    | SessionInterrupted
    | TransportError
    | ContractError(authentication: bool)
    | SessionRaises // anything else, which no handler in the loop catches

  datatype ExecutionStep =
    | Finished(attempt: Attempt)
    | ExecutionInterrupted
    | ExecutionFails
    | ExecutionExits // not an Exception

  datatype CleanupStep = Cleaned | CleanupFails | CleanupInterrupted

  /** All that the loop cannot foresee. */
  datatype World = World(
    startOk: nat -> bool, deleteOk: nat -> bool, shared: SessionStep,
    session: nat -> SessionStep, execution: nat -> ExecutionStep, cleanup: string -> CleanupStep)

  datatype Ending = Completed | BatchFailed | Raised

  function SessionFailure(scope: Scope, posted: bool): Attempt {
    Attempt(false, Some(scope), Some(EvaluationSkipped), posted, true)
  }

  /** What a query's turn leaves to be recorded, and whether it stops the loop. */
  datatype Turn = Turn(attempt: Option<Attempt>, stops: bool)

  /** A session that was not created. */
  function SessionTurn(session: SessionStep): Turn
    requires !session.SessionCreated?
  {
    match session
    case SessionInterrupted => Turn(Some(SessionFailure(Systemic, false)), true)
    case TransportError => Turn(Some(SessionFailure(Individual, false)), false)
    case ContractError(authentication) =>
      Turn(Some(SessionFailure(if authentication then Systemic else Individual, false)), authentication)
    case SessionRaises => Turn(None, true)
  }

  /** A query that was sent, and whose own session, if it has one, is then cleaned up. */
  function ExecutionTurn(execution: ExecutionStep, cleanup: CleanupStep): Turn {
    match execution
    case ExecutionInterrupted => Turn(Some(SessionFailure(Systemic, true)), true)
    case ExecutionExits => Turn(None, true)
    case ExecutionFails =>
      if cleanup.CleanupInterrupted? then Turn(None, true) else Turn(Some(SessionFailure(Systemic, true)), true)
    case Finished(a) =>
      if cleanup.CleanupInterrupted? then Turn(None, true) else Turn(Some(a), a.scope == Some(Systemic))
  }

  function TurnOf(w: World, offset: nat, own: bool): Turn {
    if own && !w.session(offset).SessionCreated? then SessionTurn(w.session(offset))
    else ExecutionTurn(w.execution(offset), if own then w.cleanup(w.session(offset).id) else Cleaned)
  }

  predicate Recorded(t: Turn) {
    t.attempt.Some? && AttemptOk(t.attempt.value)
  }

  /** The loop also stops when the recorder refuses what the turn left. */
  predicate Raises(t: Turn) {
    t.stops || (t.attempt.Some? && !AttemptOk(t.attempt.value))
  }

  /** The first k rows say what the first k turns left. */
  ghost predicate Tells(rows: seq<Row>, w: World, own: bool, k: nat) {
    && k <= |rows|
    && forall i :: 0 <= i < k ==> TurnOf(w, i, own).attempt.Some? && rows[i].entry == Attempted(TurnOf(w, i, own).attempt.value)
  }

  ghost predicate NoneRaises(w: World, own: bool, n: nat) {
    forall i :: 0 <= i < n ==> !Raises(TurnOf(w, i, own))
  }

  /** Rows answer the selection in order, numbered from one. */
  ghost predicate Follows(rows: seq<Row>, selected: seq<Query>) {
    && |rows| <= |selected|
    && forall i :: 0 <= i < |rows| ==> rows[i].sourceIndex == selected[i].sourceIndex && rows[i].sequence == i + 1
  }

  /** The first k rows are attempts, each in the trace session of its 64; the rest were left by the abort. */
  ghost predicate AttemptsFirst(rows: seq<Row>, k: nat) {
    && k <= |rows|
    && forall i :: 0 <= i < |rows| ==>
      if i < k then rows[i].entry.Attempted? && rows[i].traceSequence == i / ROTATION + 1 else rows[i].entry == NotAttempted(ABORTED)
  }

  /** The rows answer the first queries in order, and the first k of them tell what their turns left. */
  ghost predicate RowsTell(rows: seq<Row>, selected: seq<Query>, w: World, own: bool, k: nat) {
    Follows(rows, selected) && AttemptsFirst(rows, k) && Tells(rows, w, own, k)
  }

  lemma {:induction false} AttemptsCount(rows: seq<Row>, k: nat)
    requires AttemptsFirst(rows, k)
    ensures TallyOf(rows).attempted == k && TallyOf(rows).notAttempted == |rows| - k
  {
    if rows != [] {
      var front := rows[..|rows| - 1];
      AttemptsCount(front, if k < |rows| then k else |front|);
    }
  }

  /** How many trace sessions the first n queries start. */
  function Sessions(n: nat): nat {
    if n == 0 then 1 else (n - 1) / ROTATION + 1
  }

  ghost predicate DistinctQueries(selected: seq<Query>) {
    forall i, j :: 0 <= i < j < |selected| ==> selected[i].sourceIndex != selected[j].sourceIndex
  }

  lemma NextIsNew(rows: seq<Row>, selected: seq<Query>)
    requires DistinctQueries(selected) && Follows(rows, selected) && |rows| < |selected|
    ensures selected[|rows|].sourceIndex !in Indexes(rows)
  {
    forall r | r in rows ensures r.sourceIndex != selected[|rows|].sourceIndex {
      var i :| 0 <= i < |rows| && rows[i] == r;
    }
  }

  lemma AppendAttempt(rows: seq<Row>, row: Row, selected: seq<Query>)
    requires Follows(rows, selected) && AttemptsFirst(rows, |rows|) && |rows| < |selected|
    requires row.sourceIndex == selected[|rows|].sourceIndex && row.sequence == |rows| + 1
    requires row.entry.Attempted? && row.traceSequence == Sessions(|rows| + 1)
    ensures Follows(rows + [row], selected) && AttemptsFirst(rows + [row], |rows| + 1)
  {
  }

  lemma AppendTold(rows: seq<Row>, row: Row, w: World, own: bool)
    requires Tells(rows, w, own, |rows|) && TurnOf(w, |rows|, own).attempt.Some?
    requires row.entry == Attempted(TurnOf(w, |rows|, own).attempt.value)
    ensures Tells(rows + [row], w, own, |rows| + 1)
  {
  }

  /** A row that answers the next query with what its turn left. */
  lemma RowAdded(before: seq<Row>, after: seq<Row>, selected: seq<Query>, w: World, own: bool)
    requires RowsTell(before, selected, w, own, |before|)
    requires |before| < |selected| && |after| == |before| + 1 && after[..|after| - 1] == before
    requires var row := after[|after| - 1];
      row.sourceIndex == selected[|before|].sourceIndex && row.sequence == |before| + 1
      && TurnOf(w, |before|, own).attempt.Some? && row.entry == Attempted(TurnOf(w, |before|, own).attempt.value)
      && row.traceSequence == Sessions(|before| + 1)
    ensures RowsTell(after, selected, w, own, |after|)
  {
    var row := after[|after| - 1];
    assert after == before + [row];
    AppendAttempt(before, row, selected);
    AppendTold(before, row, w, own);
  }

  /** A turn that does not stop the loop left a row. */
  lemma GoesOn(w: World, n: nat, own: bool)
    ensures !Raises(TurnOf(w, n, own)) ==> Recorded(TurnOf(w, n, own))
  {
  }

  lemma AppendMissing(rows: seq<Row>, row: Row, selected: seq<Query>, k: nat)
    requires Follows(rows, selected) && AttemptsFirst(rows, k) && |rows| < |selected|
    requires row.sourceIndex == selected[|rows|].sourceIndex && row.sequence == |rows| + 1 && row.entry == NotAttempted(ABORTED)
    ensures Follows(rows + [row], selected) && AttemptsFirst(rows + [row], k)
  {
  }

  /** A new session exactly at every 64th query. */
  lemma SessionsStep(n: nat)
    requires n > 0
    ensures Sessions(n + 1) == Sessions(n) + if n % ROTATION == 0 then 1 else 0
  {
  }

  lemma RotationPoint(n: nat)
    requires n > 0 && n % ROTATION == 0
    ensures n == Sessions(n) * ROTATION
  {
  }

  lemma {:induction false} SessionsGrow(m: nat, n: nat)
    requires m <= n
    ensures Sessions(m) <= Sessions(n)
    ensures m < n && m > 0 && m % ROTATION == 0 ==> Sessions(m) + 1 <= Sessions(n)
  {
  }

  /** Sessions are numbered from one, each begins at its 64th query, and all but the last are deleted. */
  predicate TraceRowOk(t: TraceSession, s: nat, last: bool) {
    t.sequence == s + 1 && t.firstQueryIndex == s * ROTATION && (!last ==> t.status == Deleted)
  }

  // ----------------------------------------------------------------- which turns are taken

  predicate Starts(w: World, continuous: bool) {
    w.startOk(1) && (continuous ==> w.shared.SessionCreated?)
  }

  /** The s-th trace session is deleted and the next one started. */
  predicate RotatesOk(w: World, s: nat) {
    s > 0 && w.deleteOk(s - 1) && w.startOk(s + 1)
  }

  /** The first m trace sessions follow one another. */
  ghost predicate RotationsOk(w: World, m: nat) {
    forall s: nat :: 0 < s < m ==> RotatesOk(w, s)
  }

  /** Nothing stops the loop before it comes to the n-th query. */
  ghost predicate Clear(w: World, continuous: bool, n: nat) {
    Starts(w, continuous) && NoneRaises(w, !continuous, n) && RotationsOk(w, Sessions(n))
  }

  /** The n-th query's turn is taken. */
  ghost predicate Reached(w: World, continuous: bool, n: nat) {
    Starts(w, continuous) && NoneRaises(w, !continuous, n) && RotationsOk(w, Sessions(n + 1))
  }

  /** A turn sends its query unless its own session was not created. */
  predicate Sends(w: World, i: nat, own: bool) {
    own ==> w.session(i).SessionCreated?
  }

  function IdOf(session: SessionStep): string {
    if session.SessionCreated? then session.id else ""
  }

  /** The queries with an attempted row, the first k of n, are those whose turn was taken and left
      a row that the recorder accepts. */
  ghost predicate AttemptsExactly(w: World, continuous: bool, n: nat, k: nat) {
    k <= n && forall i: nat :: i < n ==> (i < k <==> Reached(w, continuous, i) && Recorded(TurnOf(w, i, !continuous)))
  }

  /** The queries sent are those whose turn was taken, with a session to send them in. */
  ghost predicate SentExactly(w: World, continuous: bool, n: nat, sent: set<nat>) {
    forall i: nat :: i in sent <==> i < n && Reached(w, continuous, i) && Sends(w, i, !continuous)
  }

  /** The chat sessions created: one for each query sent, or the shared one. */
  ghost predicate CreatedExactly(w: World, continuous: bool, sent: set<nat>, created: set<string>) {
    if continuous then created == (if Starts(w, true) then {IdOf(w.shared)} else {})
    else forall id :: id in created <==> exists i: nat :: i in sent && IdOf(w.session(i)) == id
  }

  /** Nothing makes the phase raise: no setup, rotation, turn, final deletion or final cleanup. */
  ghost predicate Unhindered(w: World, continuous: bool, n: nat) {
    && Clear(w, continuous, n) && w.deleteOk(Sessions(n) - 1)
    && (continuous ==> w.cleanup(IdOf(w.shared)) != CleanupInterrupted)
  }

  lemma NotStartedClear(w: World, continuous: bool, n: nat)
    ensures !Starts(w, continuous) ==>
      AttemptsExactly(w, continuous, n, 0) && SentExactly(w, continuous, n, {}) && !Clear(w, continuous, n)
    ensures Starts(w, continuous) ==> Clear(w, continuous, 0)
  {
  }

  lemma ClearIsReached(w: World, continuous: bool, n: nat, i: nat)
    requires Clear(w, continuous, n) && i < n
    ensures Reached(w, continuous, i) && Recorded(TurnOf(w, i, !continuous))
  {
    SessionsGrow(i + 1, n);
    assert !Raises(TurnOf(w, i, !continuous));
  }

  ghost predicate SentBefore(w: World, own: bool, n: nat, sent: set<nat>) {
    forall i: nat :: i in sent <==> i < n && Sends(w, i, own)
  }

  /** The queries sent, and the chat sessions created, once the n-th turn is over. */
  function SentWith(w: World, own: bool, n: nat, sent: set<nat>): set<nat> {
    if Sends(w, n, own) then sent + {n} else sent
  }

  function CreatedWith(w: World, own: bool, n: nat, created: set<string>): set<string> {
    if own && Sends(w, n, own) then created + {IdOf(w.session(n))} else created
  }

  lemma SentStep(w: World, own: bool, n: nat, sent: set<nat>)
    requires SentBefore(w, own, n, sent)
    ensures SentBefore(w, own, n + 1, SentWith(w, own, n, sent))
  {
  }

  lemma CreatedStep(w: World, n: nat, sent: set<nat>, created: set<string>)
    requires CreatedExactly(w, false, sent, created)
    ensures CreatedExactly(w, false, SentWith(w, true, n, sent), CreatedWith(w, true, n, created))
  {
    var more := SentWith(w, true, n, sent);
    forall id | id in created ensures exists i: nat :: i in more && IdOf(w.session(i)) == id {
      var i: nat :| i in sent && IdOf(w.session(i)) == id;
      assert i in more;
    }
    assert Sends(w, n, true) ==> n in more;
  }

  /** How the phase leaves its rows, whether or not the abort handler had to complete them. */
  ghost predicate Accounted(rows: seq<Row>, attempted: nat, sent: set<nat>, created: set<string>,
                            selected: seq<Query>, w: World, continuous: bool)
  {
    && |rows| == |selected| && RowsTell(rows, selected, w, !continuous, attempted)
    && AttemptsExactly(w, continuous, |selected|, attempted) && SentExactly(w, continuous, |selected|, sent)
    && CreatedExactly(w, continuous, sent, created)
  }

  lemma LoopEnds(w: World, continuous: bool, n: nat, sent: set<nat>)
    requires Clear(w, continuous, n) && SentBefore(w, !continuous, n, sent)
    ensures AttemptsExactly(w, continuous, n, n) && SentExactly(w, continuous, n, sent)
  {
    forall i: nat | i < n ensures Reached(w, continuous, i) && Recorded(TurnOf(w, i, !continuous)) {
      ClearIsReached(w, continuous, n, i);
    }
  }

  /** The rotation due before the k-th turn failed. */
  lemma RotationStops(w: World, continuous: bool, k: nat, n: nat, sent: set<nat>)
    requires Clear(w, continuous, k) && 0 < k < n && k % ROTATION == 0 && !RotatesOk(w, Sessions(k))
    requires SentBefore(w, !continuous, k, sent)
    ensures AttemptsExactly(w, continuous, n, k) && SentExactly(w, continuous, n, sent) && !Clear(w, continuous, n)
  {
    forall i: nat ensures Reached(w, continuous, i) ==> i < k {
      if i >= k {
        SessionsStep(k);
        SessionsGrow(k + 1, i + 1);
      }
    }
    forall i: nat | i < k ensures Reached(w, continuous, i) && Recorded(TurnOf(w, i, !continuous)) {
      ClearIsReached(w, continuous, k, i);
    }
    SessionsStep(k);
    SessionsGrow(k + 1, n);
  }

  /** The k-th turn was taken and stopped the loop. */
  lemma TurnStops(w: World, continuous: bool, k: nat, n: nat, sent: set<nat>)
    requires Reached(w, continuous, k) && Clear(w, continuous, k) && k < n && Raises(TurnOf(w, k, !continuous))
    requires SentBefore(w, !continuous, k + 1, sent)
    ensures AttemptsExactly(w, continuous, n, k + if Recorded(TurnOf(w, k, !continuous)) then 1 else 0)
    ensures SentExactly(w, continuous, n, sent) && !Clear(w, continuous, n)
  {
    forall i: nat | i < n ensures i < k ==> Reached(w, continuous, i) && Recorded(TurnOf(w, i, !continuous)) {
      if i < k {
        ClearIsReached(w, continuous, k, i);
      }
    }
    forall i: nat ensures i > k ==> !Reached(w, continuous, i) {
      assert Raises(TurnOf(w, k, !continuous));
    }
  }

  /** A query that was sent gets a row saying not attempted exactly when the program is left or its
      own session's cleanup is interrupted before the attempt is recorded, or the recorder refuses
      the attempt. */
  lemma SentUnrecordedExactly(rows: seq<Row>, attempted: nat, sent: set<nat>, created: set<string>, selected: seq<Query>,
                              w: World, continuous: bool, i: nat)
    requires Accounted(rows, attempted, sent, created, selected, w, continuous) && i in sent
    ensures rows[i].entry.NotAttempted? <==>
      var e := w.execution(i);
      || e.ExecutionExits? || (e.Finished? && !AttemptOk(e.attempt))
      || (!continuous && (e.Finished? || e.ExecutionFails?) && w.cleanup(IdOf(w.session(i))).CleanupInterrupted?)
  {
    assert i < attempted <==> Recorded(TurnOf(w, i, !continuous));
  }

  // ----------------------------------------------------------------- the loop, from the world's steps

  /** The loop stops at a query exactly when its session creation was interrupted, refused for
      authentication or raised something else; or when, with a session, its execution was
      interrupted, failed or left the program, its attempt was systemic or is refused by the
      recorder, or its own session's cleanup was interrupted. */
  lemma TurnStopsExactly(w: World, i: nat, own: bool)
    ensures Raises(TurnOf(w, i, own)) <==>
      var s, e := w.session(i), w.execution(i);
      if own && !s.SessionCreated? then
        s == SessionInterrupted || s == SessionRaises || s == ContractError(true)
      else
        || e == ExecutionInterrupted || e == ExecutionFails || e == ExecutionExits
        || e.attempt.scope == Some(Systemic) || (own && w.cleanup(s.id) == CleanupInterrupted)
        || !e.attempt.wellFormed || e.attempt.evaluation.None? || (e.attempt.succeeded <==> e.attempt.scope.Some?)
  {
  }

  /** What an attempted row says of its query: a session that was not created leaves a failed and
      skipped attempt that was never posted, systemic for an interruption or the authentication and
      individual for a transport or another contract error; an execution leaves its own attempt, or
      one that failed systemically after the post. */
  lemma RowTellsSteps(rows: seq<Row>, attempted: nat, sent: set<nat>, created: set<string>, selected: seq<Query>,
                      w: World, continuous: bool, i: nat)
    requires Accounted(rows, attempted, sent, created, selected, w, continuous) && i < attempted
    ensures rows[i].entry.Attempted?
    ensures var a, s, e := rows[i].entry.attempt, w.session(i), w.execution(i);
      if !continuous && !s.SessionCreated? then
        && !a.succeeded && !a.posted && a.evaluation == Some(EvaluationSkipped)
        && a.scope == Some(if s == SessionInterrupted || s == ContractError(true) then Systemic else Individual)
        && (s == SessionInterrupted || s == TransportError || s.ContractError?)
      else if e.Finished? then a == e.attempt
      else
        && !a.succeeded && a.posted && a.evaluation == Some(EvaluationSkipped) && a.scope == Some(Systemic)
        && (e == ExecutionInterrupted || e == ExecutionFails)
  {
    assert rows[i].entry == Attempted(TurnOf(w, i, !continuous).attempt.value);
  }

  /** The first turn is taken once the first trace session has started, with the shared chat session
      if there is one. */
  lemma FirstTurn(w: World, continuous: bool)
    ensures Reached(w, continuous, 0) <==> w.startOk(1) && (continuous ==> w.shared.SessionCreated?)
  {
  }

  /** Before every 64th query the current trace session is deleted and the next one started. */
  predicate RotationOk(w: World, i: nat) {
    i > 0 && i % 64 == 0 ==> w.deleteOk(i / 64 - 1) && w.startOk(i / 64 + 1)
  }

  /** After a turn that does not stop the loop the next one is taken, unless it is a 64th and the
      old trace session is not deleted or a new one not started. */
  lemma NextTurnIsTaken(w: World, continuous: bool, i: nat)
    requires Reached(w, continuous, i)
    ensures Reached(w, continuous, i + 1) <==>
      && !Raises(TurnOf(w, i, !continuous))
      && RotationOk(w, i + 1)
  {
    SessionsStep(i + 1);
    if (i + 1) % 64 == 0 {
      RotationPoint(i + 1);
      assert Sessions(i + 1) == (i + 1) / 64;
      assert RotationsOk(w, Sessions(i + 2)) <==> RotationsOk(w, Sessions(i + 1)) && RotatesOk(w, Sessions(i + 1));
    }
    assert NoneRaises(w, !continuous, i + 1) <==> NoneRaises(w, !continuous, i) && !Raises(TurnOf(w, i, !continuous));
  }

  /** Whatever goes wrong in creating a session, short of an interruption, the authentication or an
      unforeseen exception, costs that query alone: an individual row, and the loop goes on. */
  lemma SessionErrorsAreIndividual(w: World, i: nat)
    requires Reached(w, false, i) && (w.session(i) == TransportError || w.session(i) == ContractError(false))
    ensures Recorded(TurnOf(w, i, true)) && !Sends(w, i, true)
    ensures (i + 1) % 64 != 0 ==> Reached(w, false, i + 1)
  {
    TurnStopsExactly(w, i, true);
    NextTurnIsTaken(w, false, i);
  }

  lemma RotationsExactly(w: World, n: nat)
    ensures RotationsOk(w, Sessions(n)) <==> forall i :: 0 <= i < n ==> RotationOk(w, i)
  {
    if forall i :: 0 <= i < n ==> RotationOk(w, i) {
      forall s: nat | 0 < s < Sessions(n) ensures RotatesOk(w, s) {
        assert RotationOk(w, 64 * s);
      }
    }
    if RotationsOk(w, Sessions(n)) {
      forall i | 0 <= i < n ensures RotationOk(w, i) {
        assert i > 0 && i % 64 == 0 ==> RotatesOk(w, i / 64);
      }
    }
  }

  /** The phase does not raise exactly when every setup, turn, rotation, the last deletion and the
      shared session's cleanup go well. */
  lemma UnhinderedExactly(w: World, continuous: bool, n: nat)
    ensures Unhindered(w, continuous, n) <==>
      && w.startOk(1) && (continuous ==> w.shared.SessionCreated? && w.cleanup(w.shared.id) != CleanupInterrupted)
      && NoneRaises(w, !continuous, n) && (forall i :: 0 <= i < n ==> RotationOk(w, i))
      && w.deleteOk(if n == 0 then 0 else (n - 1) / 64)
  {
    RotationsExactly(w, n);
    assert Sessions(n) - 1 == if n == 0 then 0 else (n - 1) / 64;
  }

  /** How a loop that something stopped leaves its rows. */
  ghost predicate Halted(rows: seq<Row>, sent: set<nat>, created: set<string>, selected: seq<Query>, w: World, continuous: bool) {
    && RowsTell(rows, selected, w, !continuous, |rows|) && !Clear(w, continuous, |selected|)
    && AttemptsExactly(w, continuous, |selected|, |rows|) && SentExactly(w, continuous, |selected|, sent)
    && CreatedExactly(w, continuous, sent, created)
  }

  lemma HaltedByRotation(rows: seq<Row>, sent: set<nat>, created: set<string>, selected: seq<Query>, w: World, continuous: bool)
    requires RowsTell(rows, selected, w, !continuous, |rows|) && CreatedExactly(w, continuous, sent, created)
    requires Clear(w, continuous, |rows|) && 0 < |rows| < |selected| && |rows| % ROTATION == 0
    requires !RotatesOk(w, Sessions(|rows|)) && SentBefore(w, !continuous, |rows|, sent)
    ensures Halted(rows, sent, created, selected, w, continuous)
  {
    RotationStops(w, continuous, |rows|, |selected|, sent);
  }

  lemma HaltedByTurn(rows: seq<Row>, sent: set<nat>, created: set<string>, selected: seq<Query>, w: World, continuous: bool, k: nat)
    requires RowsTell(rows, selected, w, !continuous, |rows|) && CreatedExactly(w, continuous, sent, created)
    requires |rows| == k + if Recorded(TurnOf(w, k, !continuous)) then 1 else 0
    requires Reached(w, continuous, k) && Clear(w, continuous, k) && k < |selected| && Raises(TurnOf(w, k, !continuous))
    requires SentBefore(w, !continuous, k + 1, sent)
    ensures Halted(rows, sent, created, selected, w, continuous)
  {
    TurnStops(w, continuous, k, |selected|, sent);
  }

  /** The abort handler leaves the attempts alone. */
  lemma AccountedByAbort(before: seq<Row>, rows: seq<Row>, sent: set<nat>, created: set<string>, selected: seq<Query>,
                         w: World, continuous: bool)
    requires Halted(before, sent, created, selected, w, continuous)
    requires before <= rows && |rows| == |selected| && Follows(rows, selected) && AttemptsFirst(rows, |before|)
    ensures Accounted(rows, |before|, sent, created, selected, w, continuous)
  {
  }

  lemma AccountedAtEnd(rows: seq<Row>, sent: set<nat>, created: set<string>, selected: seq<Query>, w: World, continuous: bool)
    requires |rows| == |selected| && RowsTell(rows, selected, w, !continuous, |rows|) && CreatedExactly(w, continuous, sent, created)
    requires Clear(w, continuous, |selected|) && SentBefore(w, !continuous, |selected|, sent)
    ensures Accounted(rows, |rows|, sent, created, selected, w, continuous)
  {
    LoopEnds(w, continuous, |selected|, sent);
  }

  /** A trace session could not be started, or the shared chat session not created. */
  lemma HaltedAtOnce(selected: seq<Query>, w: World, continuous: bool)
    requires !Starts(w, continuous)
    ensures Halted([], {}, {}, selected, w, continuous)
  {
    NotStartedClear(w, continuous, |selected|);
  }

  lemma RotationClears(w: World, continuous: bool, k: nat)
    requires Clear(w, continuous, k)
    ensures (k > 0 && k % ROTATION == 0 ==> RotatesOk(w, Sessions(k))) ==> Reached(w, continuous, k)
    ensures Reached(w, continuous, k) && !Raises(TurnOf(w, k, !continuous)) ==> Clear(w, continuous, k + 1)
  {
    if k > 0 {
      SessionsStep(k);
    }
  }
}
