/** The dataset query loop: trace rotation, abort handling and session cleanup, whatever the
    requests, the traces and the operator do. */
module RequestAccounting {
  import opened Ordering
  import opened RequestRecorder
  import opened RequestOutcome

  class Phase {
    const recorder: Recorder
    const world: World
    var trace: Option<nat> // the sequence number of the current trace session
    var deletions: nat
    var pending: set<string>
    ghost var live: set<nat> // sessions that the service may hold
    ghost var created: set<string>
    ghost var lost: set<string> // sessions whose cleanup was interrupted
    ghost var sent: set<nat> // the offsets of the queries sent

    constructor (recorder: Recorder, world: World)
      requires recorder.Valid() && recorder.traceSessions == [] && recorder.cleanups == map[]
      ensures this.recorder == recorder && this.world == world && TraceOk() && CleanupOk()
      ensures NothingYet()
    {
      this.recorder, this.world := recorder, world;
      trace, deletions, pending, live, created, lost, sent := None, 0, {}, {}, {}, {}, {};
    }

    ghost predicate NothingYet()
      reads this
    {
      trace.None? && deletions == 0 && live == {} && pending == {} && created == {} && lost == {} && sent == {}
    }

    /** At most one session may be alive, and it is the current one. */
    ghost predicate TraceOk()
      reads this, recorder
    {
      && live <= (if trace.None? then {} else {trace.value})
      && |recorder.traceSessions| == (if trace.None? then 0 else trace.value)
      && (trace.Some? ==> trace.value > 0)
      && (forall s :: 0 <= s < |recorder.traceSessions| ==>
        TraceRowOk(recorder.traceSessions[s], s, s == |recorder.traceSessions| - 1))
    }

    /** Every session created is pending, cleaned up or lost to an interruption. */
    ghost predicate CleanupOk()
      reads this, recorder
    {
      && created == pending + recorder.cleanups.Keys + lost
      && (forall id :: id in lost ==> world.cleanup(id) == CleanupInterrupted)
      && (forall id :: id in recorder.cleanups ==>
        world.cleanup(id) == if recorder.cleanups[id] then Cleaned else CleanupFails)
    }

    method CloseTrace() returns (raised: bool)
      requires recorder.Valid() && TraceOk()
      modifies this`deletions, this`live, recorder`traceSessions
      ensures TraceOk() && recorder.Valid() && |recorder.traceSessions| == old(|recorder.traceSessions|)
      ensures !raised ==> live == {}
      ensures !raised && trace.Some? ==> recorder.traceSessions[trace.value - 1].status == Deleted
      ensures raised ==> live == old(live)
      ensures raised <==> trace.Some? && !world.deleteOk(old(deletions))
      ensures deletions == if trace.Some? then old(deletions) + 1 else old(deletions)
    {
      if trace.None? {
        return false;
      }
      raised := !world.deleteOk(deletions);
      deletions := deletions + 1;
      if !raised {
        live := {};
        var last := recorder.traceSessions[trace.value - 1];
        recorder.traceSessions := recorder.traceSessions[trace.value - 1 := last.(status := Deleted)];
      }
    }

    /** The service is asked for a session only when it holds none. */
    method Allocate(sequence: nat)
      requires live == {}
      modifies this`live
      ensures live == {sequence}
    {
      live := {sequence};
    }

    method StartTrace(offset: nat) returns (raised: bool)
      requires recorder.Valid() && TraceOk() && offset == |recorder.traceSessions| * ROTATION
      modifies this`deletions, this`live, this`trace, recorder`traceSessions
      ensures TraceOk() && recorder.Valid()
      ensures old(|recorder.traceSessions|) <= |recorder.traceSessions| <= old(|recorder.traceSessions|) + 1
      ensures !raised ==> |recorder.traceSessions| == old(|recorder.traceSessions|) + 1
      ensures raised <==> (old(trace).Some? && !world.deleteOk(old(deletions))) || !world.startOk(old(|recorder.traceSessions|) + 1)
      ensures deletions == if old(trace).Some? then old(deletions) + 1 else old(deletions)
    {
      raised := CloseTrace();
      if raised {
        return;
      }
      var sequence := |recorder.traceSessions| + 1;
      recorder.traceSessions := recorder.traceSessions + [TraceSession(sequence, offset, StartAttempted)];
      trace := Some(sequence);
      Allocate(sequence);
      raised := !world.startOk(sequence);
      if !raised {
        recorder.traceSessions := recorder.traceSessions[sequence - 1 := TraceSession(sequence, offset, Active)];
      }
    }

    method CleanupSession(id: string) returns (raised: bool)
      requires recorder.Valid() && CleanupOk() && id in pending
      modifies this`pending, this`lost, recorder`cleanups
      ensures CleanupOk() && recorder.Valid() && pending == old(pending) - {id}
      ensures raised <==> world.cleanup(id) == CleanupInterrupted
    {
      pending := pending - {id};
      match world.cleanup(id) {
        case Cleaned => recorder.cleanups := recorder.cleanups[id := true];
        case CleanupFails => recorder.cleanups := recorder.cleanups[id := false];
        case CleanupInterrupted => lost := lost + {id};
      }
      raised := world.cleanup(id) == CleanupInterrupted;
    }

    method Remember(id: string)
      requires CleanupOk()
      modifies this`pending, this`created
      ensures CleanupOk() && pending == old(pending) + {id} && created == old(created) + {id}
    {
      pending := pending + {id};
      created := created + {id};
    }

    /** What one query adds to the artifact. */
    twostate predicate Adds(q: Query, a: Attempt, added: bool)
      reads recorder
    {
      if added then
        && |recorder.rows| == old(|recorder.rows|) + 1 && recorder.rows[..|recorder.rows| - 1] == old(recorder.rows)
        && var row := recorder.rows[|recorder.rows| - 1];
          row.sourceIndex == q.sourceIndex && row.sequence == old(recorder.attempted) + 1
          && row.entry == Attempted(a) && row.traceSequence == |recorder.traceSessions|
      else recorder.rows == old(recorder.rows)
    }

    method RecordAttempt(q: Query, a: Attempt) returns (raised: bool)
      requires recorder.Valid()
      modifies recorder
      ensures recorder.Valid() && recorder.traceSessions == old(recorder.traceSessions)
      ensures recorder.cleanups == old(recorder.cleanups)
      ensures Adds(q, a, !raised)
      ensures raised <==> q.sourceIndex in old(recorder.recordedIndexes) || !AttemptOk(a)
    {
      var ok := recorder.Record(q, a);
      raised := !ok;
    }

    /** What is left of a turn is recorded, and the loop goes on or stops. */
    method Conclude(q: Query, t: Turn) returns (raised: bool, ghost added: bool)
      requires recorder.Valid() && q.sourceIndex !in recorder.recordedIndexes
      modifies recorder
      ensures recorder.Valid() && recorder.traceSessions == old(recorder.traceSessions)
      ensures recorder.cleanups == old(recorder.cleanups)
      ensures (added <==> Recorded(t)) && (raised <==> Raises(t))
      ensures added ==> Adds(q, t.attempt.value, true)
      ensures !added ==> recorder.rows == old(recorder.rows)
    {
      if t.attempt.None? {
        return t.stops, false;
      }
      raised := RecordAttempt(q, t.attempt.value);
      added := !raised;
      raised := raised || t.stops;
    }

    method Execute(q: Query, offset: nat, own: Option<string>) returns (t: Turn)
      requires recorder.Valid() && CleanupOk() && (own.Some? ==> own.value in pending)
      modifies this`pending, this`lost, this`sent, recorder`cleanups
      ensures recorder.Valid() && CleanupOk() && sent == old(sent) + {offset} && pending <= old(pending)
      ensures own.None? ==> pending == old(pending)
      ensures own.Some? && !t.stops ==> own.value !in pending
      ensures t == ExecutionTurn(world.execution(offset), if own.Some? then world.cleanup(own.value) else Cleaned)
    {
      var attempt: Attempt;
      sent := sent + {offset};
      match world.execution(offset) {
        case Finished(a) => attempt := a;
        case ExecutionInterrupted =>
          return Turn(Some(SessionFailure(Systemic, true)), true);
        case ExecutionFails => attempt := SessionFailure(Systemic, true);
        case ExecutionExits =>
          return Turn(None, true);
      }
      if own.Some? {
        var raised := CleanupSession(own.value);
        if raised {
          return Turn(None, true);
        }
      }
      t := Turn(Some(attempt), attempt.scope == Some(Systemic));
    }

    /** One turn of the loop: session, execution, cleanup, record. */
    method RunQuery(q: Query, offset: nat, shared: Option<string>) returns (raised: bool, ghost added: bool)
      requires recorder.Valid() && CleanupOk() && q.sourceIndex !in recorder.recordedIndexes
      modifies this`pending, this`created, this`lost, this`sent, recorder
      ensures recorder.Valid() && CleanupOk() && recorder.traceSessions == old(recorder.traceSessions)
      ensures sent == SentWith(world, shared.None?, offset, old(sent))
      ensures created == CreatedWith(world, shared.None?, offset, old(created))
      ensures shared.Some? ==> pending == old(pending)
      ensures shared.None? && old(pending) == {} ==> pending <= (if raised then {IdOf(world.session(offset))} else {})
      ensures var t := TurnOf(world, offset, shared.None?);
        (added <==> Recorded(t)) && (raised <==> Raises(t)) && (added ==> Adds(q, t.attempt.value, true))
      ensures !added ==> recorder.rows == old(recorder.rows)
    {
      var turn: Turn;
      if shared.None? {
        var session := world.session(offset);
        if session.SessionCreated? {
          Remember(session.id);
          turn := Execute(q, offset, Some(session.id));
        } else {
          turn := SessionTurn(session);
        }
      } else {
        turn := Execute(q, offset, None);
      }
      raised, added := Conclude(q, turn);
    }

    /** The chat sessions while the loop runs. */
    ghost predicate ChatsOk(own: bool)
      reads this
    {
      if own then pending == {} && CreatedExactly(world, false, sent, created)
      else world.shared.SessionCreated? && pending == {world.shared.id} && created == {world.shared.id}
    }

    /** The rows, the chat sessions and the queries sent, before the n-th turn is taken. */
    ghost predicate Ready(selected: seq<Query>, n: nat, own: bool)
      reads this, recorder
    {
      && recorder.Valid() && TraceOk() && CleanupOk() && ChatsOk(own)
      && |recorder.rows| == n <= |selected| && DistinctQueries(selected)
      && RowsTell(recorder.rows, selected, world, own, n)
      && SentBefore(world, own, n, sent) && Clear(world, !own, n)
    }

    /** The loop when it comes to the n-th query. */
    ghost predicate Looping(selected: seq<Query>, n: nat, own: bool)
      reads this, recorder
    {
      && Ready(selected, n, own) && |recorder.traceSessions| == Sessions(n) && deletions == Sessions(n) - 1
    }

    /** The loop once something stopped it. */
    ghost predicate Stopped(selected: seq<Query>, own: bool)
      reads this, recorder
    {
      && recorder.Valid() && TraceOk() && CleanupOk() && |recorder.traceSessions| <= Sessions(|selected|)
      && Halted(recorder.rows, sent, created, selected, world, !own) && exists id :: pending <= {id}
    }

    lemma Idle(own: bool)
      requires ChatsOk(own)
      ensures exists id :: pending <= {id}
      ensures !own && Clear(world, true, 0) ==> CreatedExactly(world, true, sent, created)
    {
      assert pending <= {IdOf(world.shared)};
    }

    /** A rotation is due before every 64th query but the first. */
    method RotateTrace(offset: nat) returns (raised: bool)
      requires recorder.Valid() && TraceOk() && |recorder.traceSessions| == Sessions(offset) && deletions == Sessions(offset) - 1
      modifies this`deletions, this`live, this`trace, recorder`traceSessions
      ensures recorder.Valid() && TraceOk()
      ensures raised <==> offset > 0 && offset % ROTATION == 0 && !RotatesOk(world, Sessions(offset))
      ensures |recorder.traceSessions| <= Sessions(offset + 1)
      ensures !raised ==> |recorder.traceSessions| == Sessions(offset + 1) && deletions == Sessions(offset + 1) - 1
    {
      raised := false;
      if offset > 0 {
        SessionsStep(offset);
        if offset % ROTATION == 0 {
          RotationPoint(offset);
          raised := StartTrace(offset);
        }
      }
    }

    method Rotate(selected: seq<Query>, offset: nat, ghost own: bool) returns (raised: bool)
      requires Looping(selected, offset, own) && offset < |selected|
      modifies this`deletions, this`live, this`trace, recorder`traceSessions
      ensures raised ==> Stopped(selected, own)
      ensures !raised ==> Ready(selected, offset, own) && Reached(world, !own, offset)
      ensures !raised ==> |recorder.traceSessions| == Sessions(offset + 1) && deletions == Sessions(offset + 1) - 1
    {
      SessionsGrow(offset + 1, |selected|);
      RotationClears(world, !own, offset);
      Idle(own);
      raised := RotateTrace(offset);
      if raised {
        HaltedByRotation(recorder.rows, sent, created, selected, world, !own);
      }
    }

    /** Rotation and the query's turn. */
    method NextQuery(selected: seq<Query>, offset: nat, shared: Option<string>) returns (raised: bool)
      requires Looping(selected, offset, shared.None?) && offset < |selected|
      modifies this, recorder
      ensures raised ==> Stopped(selected, shared.None?)
      ensures !raised ==> Looping(selected, offset + 1, shared.None?)
    {
      raised := Rotate(selected, offset, shared.None?);
      if raised {
        return;
      }
      raised := TakeTurn(selected, offset, shared);
    }

    /** What a turn does to the chat sessions. */
    method TurnChats(q: Query, offset: nat, shared: Option<string>) returns (raised: bool, ghost added: bool)
      requires recorder.Valid() && CleanupOk() && q.sourceIndex !in recorder.recordedIndexes && ChatsOk(shared.None?)
      requires SentBefore(world, shared.None?, offset, sent)
      modifies this`pending, this`created, this`lost, this`sent, recorder
      ensures recorder.Valid() && CleanupOk() && recorder.traceSessions == old(recorder.traceSessions)
      ensures SentBefore(world, shared.None?, offset + 1, sent) && exists id :: pending <= {id}
      ensures shared.None? ==> CreatedExactly(world, false, sent, created)
      ensures shared.Some? || !raised ==> ChatsOk(shared.None?)
      ensures var t := TurnOf(world, offset, shared.None?);
        (added <==> Recorded(t)) && (raised <==> Raises(t)) && (added ==> Adds(q, t.attempt.value, true))
      ensures !added ==> recorder.rows == old(recorder.rows)
    {
      SentStep(world, shared.None?, offset, sent);
      if shared.None? {
        CreatedStep(world, offset, sent, created);
      }
      raised, added := RunQuery(q, offset, shared);
      assert pending <= {if shared.None? then IdOf(world.session(offset)) else IdOf(world.shared)};
    }

    /** What a turn does to the rows as well. */
    method TurnRows(selected: seq<Query>, offset: nat, shared: Option<string>) returns (raised: bool)
      requires recorder.Valid() && CleanupOk() && ChatsOk(shared.None?) && DistinctQueries(selected)
      requires |recorder.rows| == offset < |selected| && |recorder.traceSessions| == Sessions(offset + 1)
      requires RowsTell(recorder.rows, selected, world, shared.None?, offset) && SentBefore(world, shared.None?, offset, sent)
      modifies this`pending, this`created, this`lost, this`sent, recorder
      ensures recorder.Valid() && CleanupOk() && recorder.traceSessions == old(recorder.traceSessions)
      ensures SentBefore(world, shared.None?, offset + 1, sent) && exists id :: pending <= {id}
      ensures shared.None? ==> CreatedExactly(world, false, sent, created)
      ensures shared.Some? || !raised ==> ChatsOk(shared.None?)
      ensures raised <==> Raises(TurnOf(world, offset, shared.None?))
      ensures |recorder.rows| == offset + if Recorded(TurnOf(world, offset, shared.None?)) then 1 else 0
      ensures RowsTell(recorder.rows, selected, world, shared.None?, |recorder.rows|)
    {
      ghost var before := recorder.rows;
      AttemptsCount(before, offset);
      NextIsNew(before, selected);
      ghost var added: bool;
      raised, added := TurnChats(selected[offset], offset, shared);
      if added {
        RowAdded(before, recorder.rows, selected, world, shared.None?);
      }
    }

    method TakeTurn(selected: seq<Query>, offset: nat, shared: Option<string>) returns (raised: bool)
      requires Ready(selected, offset, shared.None?) && offset < |selected| && Reached(world, shared.Some?, offset)
      requires |recorder.traceSessions| == Sessions(offset + 1) && deletions == Sessions(offset + 1) - 1
      modifies this`pending, this`created, this`lost, this`sent, recorder
      ensures raised ==> Stopped(selected, shared.None?)
      ensures !raised ==> Looping(selected, offset + 1, shared.None?)
    {
      SessionsGrow(offset + 1, |selected|);
      RotationClears(world, shared.Some?, offset);
      GoesOn(world, offset, shared.None?);
      raised := TurnRows(selected, offset, shared);
      if raised {
        HaltedByTurn(recorder.rows, sent, created, selected, world, shared.Some?, offset);
      }
    }

    method QueryLoop(selected: seq<Query>, shared: Option<string>) returns (raised: bool)
      requires Looping(selected, 0, shared.None?)
      modifies this, recorder
      ensures raised ==> Stopped(selected, shared.None?)
      ensures !raised ==> Looping(selected, |selected|, shared.None?)
    {
      var offset := 0;
      raised := false;
      while offset < |selected|
        invariant 0 <= offset <= |selected| && Looping(selected, offset, shared.None?)
      {
        raised := NextQuery(selected, offset, shared);
        if raised {
          return;
        }
        offset := offset + 1;
      }
    }

    /** The abort handler: whatever has no row yet is recorded as not attempted. */
    method RecordRemaining(selected: seq<Query>)
      requires recorder.Valid() && Follows(recorder.rows, selected) && DistinctQueries(selected)
      requires AttemptsFirst(recorder.rows, |recorder.rows|)
      modifies recorder
      ensures recorder.Valid() && Follows(recorder.rows, selected) && |recorder.rows| == |selected|
      ensures AttemptsFirst(recorder.rows, old(|recorder.rows|)) && old(recorder.rows) <= recorder.rows
      ensures recorder.traceSessions == old(recorder.traceSessions) && recorder.cleanups == old(recorder.cleanups)
    {
      ghost var k := |recorder.rows|;
      var i := recorder.attempted + recorder.notAttempted;
      assert i == k by {
        TallyPartitions(recorder.rows);
      }
      while i < |selected|
        invariant k <= i <= |selected| && |recorder.rows| == i
        invariant recorder.Valid() && Follows(recorder.rows, selected) && AttemptsFirst(recorder.rows, k)
        invariant old(recorder.rows) <= recorder.rows
        invariant recorder.traceSessions == old(recorder.traceSessions) && recorder.cleanups == old(recorder.cleanups)
      {
        RecordMissing(selected, k);
        i := i + 1;
      }
    }

    method RecordMissing(selected: seq<Query>, ghost k: nat)
      requires recorder.Valid() && Follows(recorder.rows, selected) && DistinctQueries(selected)
      requires AttemptsFirst(recorder.rows, k) && |recorder.rows| < |selected|
      modifies recorder
      ensures recorder.Valid() && Follows(recorder.rows, selected) && |recorder.rows| == old(|recorder.rows|) + 1
      ensures AttemptsFirst(recorder.rows, k) && old(recorder.rows) <= recorder.rows
      ensures recorder.traceSessions == old(recorder.traceSessions) && recorder.cleanups == old(recorder.cleanups)
    {
      ghost var before := recorder.rows;
      NextIsNew(before, selected);
      TallyPartitions(before);
      var i := recorder.attempted + recorder.notAttempted;
      var ok := recorder.RecordNotAttempted(selected[i], ABORTED);
      AppendMissing(before, recorder.rows[|before|], selected, k);
    }

    /** The sessions still pending, of which there is one at most, are cleaned up in order. */
    method CleanupPending() returns (raised: bool)
      requires recorder.Valid() && CleanupOk() && exists id :: pending <= {id}
      modifies this`pending, this`lost, recorder`cleanups
      ensures recorder.Valid() && CleanupOk() && pending == {}
      ensures raised <==> exists id :: id in old(pending) && world.cleanup(id) == CleanupInterrupted
    {
      ghost var only :| pending <= {only};
      var ids := SortIds(pending);
      AtMostOne(ids, only);
      raised := false;
      var i := 0;
      while i < |ids|
        invariant 0 <= i <= |ids| <= 1 && recorder.Valid() && CleanupOk() && !raised
        invariant pending == if i == 0 then Elements(ids) else {}
        invariant i == 1 ==> world.cleanup(ids[0]) != CleanupInterrupted
      {
        assert Elements(ids) == {ids[0]};
        raised := CleanupSession(ids[i]);
        if raised {
          return;
        }
        i := i + 1;
      }
    }

    /** The shared chat session of the continuous mode. */
    method CreateShared(continuous: bool) returns (raised: bool, shared: Option<string>)
      requires CleanupOk() && pending == {} && created == {} && sent == {}
      modifies this`pending, this`created
      ensures CleanupOk() && (raised <==> continuous && !world.shared.SessionCreated?)
      ensures raised ==> pending == {} && created == {}
      ensures !raised ==> (shared.None? <==> !continuous) && ChatsOk(!continuous)
    {
      raised, shared := false, None;
      if continuous {
        if !world.shared.SessionCreated? {
          return true, None;
        }
        shared := Some(world.shared.id);
        Remember(world.shared.id);
      }
    }

    method StartAndLoop(selected: seq<Query>, continuous: bool) returns (raised: bool)
      requires recorder.Valid() && TraceOk() && CleanupOk() && recorder.rows == [] && NothingYet() && DistinctQueries(selected)
      modifies this, recorder
      ensures raised ==> Stopped(selected, !continuous)
      ensures !raised ==> Looping(selected, |selected|, !continuous)
    {
      SessionsGrow(0, |selected|);
      NotStartedClear(world, continuous, |selected|);
      raised := StartTrace(0);
      if raised {
        HaltedAtOnce(selected, world, continuous);
        assert pending <= {""};
        return;
      }
      var shared: Option<string>;
      raised, shared := CreateShared(continuous);
      if raised {
        HaltedAtOnce(selected, world, continuous);
        assert pending <= {""};
        return;
      }
      raised := QueryLoop(selected, shared);
    }

    /** What holds of the rows and the sessions before the finally clause, however it came there. */
    ghost predicate Settled(selected: seq<Query>, own: bool)
      reads this, recorder
    {
      && recorder.Valid() && TraceOk() && CleanupOk() && |recorder.traceSessions| <= Sessions(|selected|)
      && Accounted(recorder.rows, recorder.attempted, sent, created, selected, world, !own)
    }

    /** The try block and its handler. */
    method AttemptAll(selected: seq<Query>, continuous: bool) returns (failed: bool)
      requires recorder.Valid() && TraceOk() && CleanupOk() && recorder.rows == [] && NothingYet() && DistinctQueries(selected)
      modifies this, recorder
      ensures Settled(selected, !continuous) && (failed <==> !Clear(world, continuous, |selected|))
      ensures !failed ==> ChatsOk(!continuous) && recorder.attempted == |selected|
      ensures !failed ==> |recorder.traceSessions| == Sessions(|selected|) && deletions == Sessions(|selected|) - 1
      ensures exists id :: pending <= {id}
    {
      failed := StartAndLoop(selected, continuous);
      ghost var before := recorder.rows;
      if failed {
        RecordRemaining(selected);
        AccountedByAbort(before, recorder.rows, sent, created, selected, world, continuous);
      } else {
        Idle(!continuous);
        AccountedAtEnd(before, sent, created, selected, world, continuous);
      }
      AttemptsCount(recorder.rows, |before|);
    }

    /** The finally clause: the last trace session, then the chat sessions. */
    method FinallyClose() returns (hindered: bool)
      requires recorder.Valid() && TraceOk() && CleanupOk() && exists id :: pending <= {id}
      modifies this`deletions, this`live, this`pending, this`lost, recorder`traceSessions, recorder`cleanups
      ensures recorder.Valid() && TraceOk() && CleanupOk() && pending == {}
      ensures |recorder.traceSessions| == old(|recorder.traceSessions|)
      ensures !hindered ==> live == {}
      ensures hindered <==>
        (trace.Some? && !world.deleteOk(old(deletions))) || exists id :: id in old(pending) && world.cleanup(id) == CleanupInterrupted
    {
      var open := CloseTrace();
      var interrupted := CleanupPending();
      hindered := open || interrupted;
    }

    lemma CleanedExactly()
      requires CleanupOk() && pending == {}
      ensures forall id :: id in recorder.cleanups <==> id in created && world.cleanup(id) != CleanupInterrupted
      ensures created == recorder.cleanups.Keys <==> forall id :: id in created ==> world.cleanup(id) != CleanupInterrupted
    {
    }

    /** What the recorder reports: an attempt in trouble, or a cleanup that failed. */
    lemma ReportsExactly()
      requires recorder.Valid() && CleanupOk() && pending == {}
      ensures recorder.failed > 0 || recorder.evaluationFailed > 0 || recorder.evaluationPartial > 0 <==> HasTrouble(recorder.rows)
      ensures (exists id :: id in recorder.cleanups && !recorder.cleanups[id])
        <==> exists id :: id in created && world.cleanup(id) == CleanupFails
    {
      TallyReports(recorder.rows);
      forall id ensures id in recorder.cleanups && !recorder.cleanups[id] <==> id in created && world.cleanup(id) == CleanupFails {
      }
    }

    /** The whole phase but for its last report. */
    method AttemptAndClose(selected: seq<Query>, continuous: bool) returns (raised: bool)
      requires recorder.Valid() && TraceOk() && CleanupOk() && recorder.rows == [] && NothingYet()
      requires DistinctQueries(selected)
      modifies this, recorder
      ensures Settled(selected, !continuous) && pending == {}
      ensures raised <==> !Unhindered(world, continuous, |selected|)
      ensures !raised ==> recorder.attempted == |selected| && |recorder.traceSessions| == Sessions(|selected|) && live == {}
    {
      var failed := AttemptAll(selected, continuous);
      ghost var open := pending;
      assert !failed ==> forall id :: id in open <==> continuous && id == IdOf(world.shared);
      var hindered := FinallyClose();
      raised := hindered || failed;
    }

    /** The whole phase.  However it ends, every selected query has exactly one row, in order and
        numbered from one; it is attempted exactly when its turn was taken and left a valid
        attempt, which its row then tells; the counters are the tally of the rows.  Exactly the chat
        sessions of the queries sent, or the shared one, are created, and each is cleaned up or,
        exactly if its cleanup is interrupted, lost.  At the end no trace session is alive unless
        its deletion failed.  The phase raises exactly when something stood in its way, and
        otherwise reports the failures that the recorder knows. */
    method Run(selected: seq<Query>, continuous: bool) returns (ending: Ending)
      requires recorder.Valid() && TraceOk() && CleanupOk() && recorder.rows == [] && NothingYet()
      requires DistinctQueries(selected)
      modifies this, recorder
      ensures Settled(selected, !continuous)
      ensures ending == Raised <==> !Unhindered(world, continuous, |selected|)
      ensures ending == BatchFailed <==>
        Unhindered(world, continuous, |selected|) && (HasTrouble(recorder.rows) || exists id :: id in created && world.cleanup(id) == CleanupFails)
      ensures ending != Raised ==> recorder.attempted == |selected| && |recorder.traceSessions| == Sessions(|selected|)
      ensures ending != Raised ==> live == {}
      ensures pending == {}
      ensures forall id :: id in recorder.cleanups <==> id in created && world.cleanup(id) != CleanupInterrupted
      ensures created == recorder.cleanups.Keys <==> forall id :: id in created ==> world.cleanup(id) != CleanupInterrupted
    {
      var raised := AttemptAndClose(selected, continuous);
      CleanedExactly();
      if raised {
        return Raised;
      }
      ReportsExactly();
      if recorder.failed > 0 || recorder.evaluationFailed > 0 || recorder.evaluationPartial > 0
        || exists id :: id in recorder.cleanups && !recorder.cleanups[id] {
        return BatchFailed;
      }
      ending := Completed;
    }
  }

  lemma AtMostOne(ids: seq<string>, only: string)
    requires StrictlySorted(ids) && Elements(ids) <= {only}
    ensures |ids| <= 1
  {
    if |ids| > 1 {
      assert ids[0] in Elements(ids) && ids[1] in Elements(ids);
      LessTotal(ids[0], ids[1]);
    }
  }

  /** One query whose answer is complete and whose session's cleanup is interrupted: the session is
      neither pending nor among the cleanups, and its query counts as not attempted. */
  method LoseASession(q: Query, id: string, attempt: RequestRecorder.Attempt) returns (p: Phase)
    ensures id in p.created && id !in p.pending && id !in p.recorder.cleanups
    ensures 0 in p.sent && |p.recorder.rows| == 1 && p.recorder.rows[0].entry == NotAttempted("SYSTEMIC_BATCH_ABORT")
  {
    var world := World(s => true, s => true, TransportError, i => SessionCreated(id), i => Finished(attempt),
                       s => CleanupInterrupted);
    var recorder := new Recorder();
    p := new Phase(recorder, world);
    var ending := p.Run([q], false);
    assert Reached(world, false, 0);
    assert !Recorded(TurnOf(world, 0, true));
    assert 0 in p.sent && IdOf(world.session(0)) == id;
  }

  function Window(low: int, n: nat): set<int> {
    if n == 0 then {} else Window(low, n - 1) + {low + n - 1}
  }

  lemma {:induction false} WindowHolds(low: int, n: nat)
    ensures |Window(low, n)| == n && forall i :: i in Window(low, n) <==> low <= i < low + n
  {
    if n > 0 {
      WindowHolds(low, n - 1);
    }
  }

  /** No trace session serves more than 64 queries. */
  lemma SessionsServeAtMost64(rows: seq<Row>, k: nat, s: nat)
    requires AttemptsFirst(rows, k)
    ensures |set i | 0 <= i < k && rows[i].traceSequence == s| <= 64
  {
    var served := set i | 0 <= i < k && rows[i].traceSequence == s;
    var window := Window((s - 1) * ROTATION, ROTATION);
    WindowHolds((s - 1) * ROTATION, ROTATION);
    assert served <= window;
    assert window == served + (window - served);
  }

  function SelectedIndexes(selected: seq<Query>): set<nat> {
    set q | q in selected :: q.sourceIndex
  }

  /** The accounting step of the report: rows of unknown queries are refused, and queries without a
      row get one. */
  method CompleteAccounting(recorder: Recorder, selected: seq<Query>, interrupted: bool) returns (ok: bool)
    requires recorder.Valid()
    modifies recorder
    ensures recorder.Valid()
    ensures ok <==> Indexes(old(recorder.rows)) <= SelectedIndexes(selected)
    ensures ok ==> Indexes(recorder.rows) == SelectedIndexes(selected)
    ensures old(recorder.rows) <= recorder.rows && (!ok ==> recorder.rows == old(recorder.rows))
    ensures forall i :: |old(recorder.rows)| <= i < |recorder.rows| ==>
      recorder.rows[i].entry == NotAttempted(if interrupted then "INTERRUPTED" else "SYSTEMIC_BATCH_ABORT")
  {
    var reason := if interrupted then "INTERRUPTED" else ABORTED;
    if exists x :: x in recorder.recordedIndexes && x !in SelectedIndexes(selected) {
      return false;
    }
    for i := 0 to |selected|
      invariant recorder.Valid() && old(recorder.rows) <= recorder.rows
      invariant Indexes(recorder.rows) <= SelectedIndexes(selected)
      invariant forall j :: 0 <= j < i ==> selected[j].sourceIndex in Indexes(recorder.rows)
      invariant forall j :: |old(recorder.rows)| <= j < |recorder.rows| ==> recorder.rows[j].entry == NotAttempted(reason)
    {
      assert selected[i] in selected;
      EnsureRow(recorder, selected[i], reason);
    }
    ok := true;
  }

  method EnsureRow(recorder: Recorder, q: Query, reason: string)
    requires recorder.Valid() && reason != ""
    modifies recorder
    ensures recorder.Valid() && old(recorder.rows) <= recorder.rows
    ensures Indexes(recorder.rows) == Indexes(old(recorder.rows)) + {q.sourceIndex}
    ensures forall j :: |old(recorder.rows)| <= j < |recorder.rows| ==> recorder.rows[j].entry == NotAttempted(reason)
  {
    if q.sourceIndex !in recorder.recordedIndexes {
      ghost var before := recorder.rows;
      var done := recorder.RecordNotAttempted(q, reason);
      GrowsBy(before, recorder.rows[|before|]);
    }
  }

  lemma GrowsBy(rows: seq<Row>, row: Row)
    ensures Indexes(rows + [row]) == Indexes(rows) + {row.sourceIndex}
  {
    forall x | x in Indexes(rows) ensures x in Indexes(rows + [row]) {
      var r :| r in rows && r.sourceIndex == x;
      assert r in rows + [row];
    }
    assert row in rows + [row];
  }
}
