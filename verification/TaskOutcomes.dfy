/** What the record of a task tells: over every run, how its work ended, for whom and what it was. */
module TaskOutcomes {
  import opened Ordering
  import opened TaskQueue

  /** The record of a task whose work ended so. */
  predicate Tells(r: Record, o: Outcome) {
    match o
    case Succeeds => r.status == Succeeded && r.errorCode == None
    case Raises => r.status == Failed && r.errorCode == Some("TASK_FAILED")
    case IsCancelled => r.status == Failed && r.errorCode == Some("TASK_CANCELLED")
    case Fatal => r.status == Running && r.errorCode == None
  }

  predicate Unfinished(r: Record) {
    r.status in {Queued, Running}
  }

  predicate PlainAt(q: Q, id: Id) {
    id in q.records && Unfinished(q.records[id]) ==> q.records[id].errorCode == None
  }

  /** No error is recorded before the work has ended. */
  ghost predicate Plain(q: Q) {
    forall id :: PlainAt(q, id)
  }

  // ----------------------------------------------------------------- one event

  /** The task whose record an event may change. */
  function Touched(q: Q, e: Event): Option<Id>
    requires Enabled(q, e)
  {
    match e
    case Enqueued(_, _, id, _) => Some(id)
    case Took(w) => var item := Get(q.queues, q.loop[w].user)[0]; if item.Task? then Some(item.id) else None
    case Ended(w, _) => Some(q.loop[w].state.id)
    case _ => None
  }

  lemma TookLeavesAlone(q: Q, w: nat, id: Id)
    requires Enabled(q, Took(w)) && Touched(q, Took(w)) != Some(id)
    ensures var q' := Apply(q, Took(w)); (id in q'.records <==> id in q.records) && (id in q.records ==> q'.records[id] == q.records[id])
  {
  }

  lemma EndedLeavesAlone(q: Q, w: nat, o: Outcome, id: Id)
    requires Enabled(q, Ended(w, o)) && Touched(q, Ended(w, o)) != Some(id)
    ensures var q' := Apply(q, Ended(w, o)); id in q'.records ==> id in q.records && q'.records[id] == q.records[id]
  {
  }

  /** Every other record stays as it is, or is evicted. */
  lemma LeavesAlone(q: Q, e: Event, id: Id)
    requires Enabled(q, e) && Touched(q, e) != Some(id)
    ensures var q' := Apply(q, e); id in q'.records ==> id in q.records && q'.records[id] == q.records[id]
  {
    match e
    case Took(w) => TookLeavesAlone(q, w, id);
    case Ended(w, o) => EndedLeavesAlone(q, w, o, id);
    case _ =>
  }

  lemma EnqueuedRecord(q: Q, e: Event)
    requires e.Enqueued? && Enabled(q, e)
    ensures var q' := Apply(q, e); e.id in q'.records && q'.records[e.id] == Record(e.user, e.operation, Queued, None)
  {
  }

  lemma TookRecord(q: Q, w: nat)
    requires Inv(q) && Enabled(q, Took(w)) && q.queues[q.loop[w].user][0].Task?
    ensures var q', id := Apply(q, Took(w)), q.queues[q.loop[w].user][0].id;
      id in q.records && id in q'.records && q'.records[id] == q.records[id].(status := Running) && q.records[id].status == Queued
  {
    LookupSucceeds(q, w);
  }

  /** The worker's task, once its work ended: unless it is evicted at once, its record says how. */
  lemma EndedRecord(q: Q, w: nat, o: Outcome)
    requires Inv(q) && Enabled(q, Ended(w, o)) && PlainAt(q, q.loop[w].state.id)
    ensures var q', id := Apply(q, Ended(w, o)), q.loop[w].state.id;
      id in q.records && (id in q'.records ==>
        Tells(q'.records[id], o) && q'.records[id].user == q.records[id].user && q'.records[id].operation == q.records[id].operation)
  {
    RunningRecord(q, w, o);
  }

  lemma StaysPlain(q: Q, e: Event, id: Id)
    requires Inv(q) && Plain(q) && Enabled(q, e)
    ensures PlainAt(Apply(q, e), id)
  {
    assert PlainAt(q, id);
    if Touched(q, e) != Some(id) {
      LeavesAlone(q, e, id);
    } else {
      match e
      case Enqueued(_, _, _, _) => EnqueuedRecord(q, e);
      case Took(w) => TookRecord(q, w);
      case Ended(w, o) => EndedRecord(q, w, o);
    }
  }

  lemma StepStaysPlain(q: Q, e: Event)
    requires Inv(q) && Plain(q) && Enabled(q, e)
    ensures Plain(Apply(q, e))
  {
    forall id ensures PlainAt(Apply(q, e), id) {
      StaysPlain(q, e, id);
    }
  }

  lemma StepKeepsAll(q: Q, e: Event)
    requires Inv(q) && Plain(q) && Enabled(q, e)
    ensures Inv(Apply(q, e)) && Plain(Apply(q, e))
  {
    StepKeeps(q, e);
    StepStaysPlain(q, e);
  }

  // ----------------------------------------------------------------- a run's events

  /** The event between two states of a run. */
  ghost predicate Happens(qs: seq<Q>, i: nat, e: Event) {
    i + 1 < |qs| && Enabled(qs[i], e) && qs[i + 1] == Apply(qs[i], e)
  }

  lemma NextIn(qs: seq<Q>, max: nat, i: nat)
    requires Run(qs) && qs[0] == Initial(max) && i + 1 < |qs|
    ensures Next(qs[i], qs[i + 1]) && Inv(qs[i])
  {
    EveryInterleaving(qs, i, max);
    assert Linked(qs, i);
  }

  lemma NextStaysPlain(q: Q, q': Q)
    requires Inv(q) && Plain(q) && Next(q, q')
    ensures Plain(q')
  {
    var e :| Enabled(q, e) && q' == Apply(q, e);
    StepStaysPlain(q, e);
  }

  lemma PlainIn(qs: seq<Q>, max: nat, i: nat)
    requires Run(qs) && qs[0] == Initial(max) && i + 1 < |qs| && Plain(qs[i])
    ensures Plain(qs[i + 1])
  {
    NextIn(qs, max, i);
    NextStaysPlain(qs[i], qs[i + 1]);
  }

  lemma {:induction false} AlwaysPlain(qs: seq<Q>, max: nat, n: nat)
    requires Run(qs) && qs[0] == Initial(max) && n < |qs|
    ensures Plain(qs[n])
    decreases n
  {
    if n > 0 {
      AlwaysPlain(qs, max, n - 1);
      PlainIn(qs, max, n - 1);
    }
  }

  predicate IsOver(q: Q, id: Id) {
    id in q.completed || id in q.lost
  }

  /** The task's work is over, and its record, while it lasts, says that it ended so. */
  predicate EndedAs(q: Q, id: Id, o: Outcome) {
    IsOver(q, id) && (id in q.records ==> Tells(q.records[id], o))
  }

  lemma TookIsFresh(q: Q, w: nat, id: Id)
    requires Inv(q) && Enabled(q, Took(w)) && IsOver(q, id)
    ensures Touched(q, Took(w)) != Some(id)
  {
    if q.queues[q.loop[w].user][0].Task? {
      InvView(q, q.loop[w].user);
      HeadIsWaiting(q, w);
      InvTask(q, q.queues[q.loop[w].user][0].id);
    }
  }

  lemma TookHistory(q: Q, w: nat)
    requires Enabled(q, Took(w))
    ensures var q' := ApplyTook(q, w); q'.owner == q.owner && q'.completed == q.completed && q'.lost == q.lost
  {
  }

  lemma EndedHistory(q: Q, w: nat, o: Outcome, id: Id)
    requires Enabled(q, Ended(w, o))
    ensures var q' := ApplyEnded(q, w, o); q'.owner == q.owner && (IsOver(q, id) ==> IsOver(q', id))
  {
  }

  lemma OverStays(q: Q, e: Event, id: Id)
    requires Enabled(q, e) && IsOver(q, id)
    ensures IsOver(Apply(q, e), id)
  {
    match e
    case Took(w) => TookHistory(q, w);
    case Ended(w, o) => EndedHistory(q, w, o, id);
    case _ =>
  }

  /** A task that is over is touched by no event any more. */
  lemma OverIsOver(q: Q, e: Event, id: Id)
    requires Inv(q) && Enabled(q, e) && IsOver(q, id)
    ensures Touched(q, e) != Some(id)
  {
    InvView(q, "");
    match e
    case Enqueued(_, _, x, _) => assert id in q.owner;
    case Took(w) => TookIsFresh(q, w, id);
    case Ended(w, o) => RunningIsKnown(q, w, o);
    case _ =>
  }

  lemma EndedAsStays(q: Q, e: Event, id: Id, o: Outcome)
    requires Inv(q) && Enabled(q, e) && EndedAs(q, id, o)
    ensures EndedAs(Apply(q, e), id, o)
  {
    OverIsOver(q, e, id);
    OverStays(q, e, id);
    LeavesAlone(q, e, id);
  }

  lemma EndedAsNext(q: Q, q': Q, id: Id, o: Outcome)
    requires Inv(q) && Next(q, q') && EndedAs(q, id, o)
    ensures EndedAs(q', id, o)
  {
    var e :| Enabled(q, e) && q' == Apply(q, e);
    EndedAsStays(q, e, id, o);
  }

  lemma EndsAs(q: Q, w: nat, o: Outcome)
    requires Inv(q) && Plain(q) && Enabled(q, Ended(w, o))
    ensures EndedAs(Apply(q, Ended(w, o)), q.loop[w].state.id, o)
  {
    assert PlainAt(q, q.loop[w].state.id);
    EndedRecord(q, w, o);
  }

  lemma EndedAsIn(qs: seq<Q>, max: nat, i: nat, id: Id, o: Outcome)
    requires Run(qs) && qs[0] == Initial(max) && i + 1 < |qs| && EndedAs(qs[i], id, o)
    ensures EndedAs(qs[i + 1], id, o)
  {
    NextIn(qs, max, i);
    EndedAsNext(qs[i], qs[i + 1], id, o);
  }

  lemma {:induction false} EndedAsForever(qs: seq<Q>, max: nat, i: nat, j: nat, id: Id, o: Outcome)
    requires Run(qs) && qs[0] == Initial(max) && i <= j < |qs| && EndedAs(qs[i], id, o)
    ensures EndedAs(qs[j], id, o)
    decreases j
  {
    if i < j {
      EndedAsForever(qs, max, i, j - 1, id, o);
      EndedAsIn(qs, max, j - 1, id, o);
    }
  }

  /** In every run, from the moment the work of a task ended and for as long as its record is kept,
      the record says how it ended: succeeded without an error exactly if the work returned,
      TASK_FAILED exactly if it raised, TASK_CANCELLED exactly if it was cancelled.  The worker
      lives on exactly after work that returned or raised. */
  lemma RecordTellsOutcome(qs: seq<Q>, max: nat, i: nat, j: nat, w: nat, o: Outcome)
    requires Run(qs) && qs[0] == Initial(max) && i < j < |qs| && Happens(qs, i, Ended(w, o))
    ensures var id := qs[i].loop[w].state.id; id in qs[j].records ==>
      var r := qs[j].records[id];
      && (r.status == Succeeded && r.errorCode == None <==> o == Succeeds)
      && (r.status == Failed && r.errorCode == Some("TASK_FAILED") <==> o == Raises)
      && (r.status == Failed && r.errorCode == Some("TASK_CANCELLED") <==> o == IsCancelled)
      && (r.status == Running && r.errorCode == None <==> o == Fatal)
    ensures qs[i + 1].loop[w].Live() <==> o in {Succeeds, Raises}
  {
    EveryInterleaving(qs, i, max);
    AlwaysPlain(qs, max, i);
    EndsAs(qs[i], w, o);
    EndedAsForever(qs, max, i + 1, j, qs[i].loop[w].state.id, o);
    WorkerLivesOn(qs[i], w, o);
  }

  lemma WorkerLivesOn(q: Q, w: nat, o: Outcome)
    requires Enabled(q, Ended(w, o))
    ensures Apply(q, Ended(w, o)).loop[w].Live() <==> o in {Succeeds, Raises}
    ensures Apply(q, Ended(w, o)).loop[w].user == q.loop[w].user
  {
  }

  lemma FinishedStep(q: Q, e: Event, id: Id)
    requires Inv(q) && Plain(q) && Enabled(q, e)
    requires var q' := Apply(q, e); id in q'.records && !Unfinished(q'.records[id])
    ensures if e.Ended? && q.loop[e.w].state.id == id then Tells(Apply(q, e).records[id], e.outcome)
            else id in q.records && q.records[id] == Apply(q, e).records[id]
  {
    if Touched(q, e) != Some(id) {
      LeavesAlone(q, e, id);
    } else {
      match e
      case Enqueued(_, _, _, _) => EnqueuedRecord(q, e);
      case Took(w) => TookRecord(q, w);
      case Ended(w, o) => EndsAs(q, w, o);
    }
  }

  ghost predicate EndsNow(q: Q, q': Q, id: Id, w: nat, o: Outcome) {
    Enabled(q, Ended(w, o)) && q' == Apply(q, Ended(w, o)) && q.loop[w].state.id == id
  }

  lemma FinishedNext(q: Q, q': Q, id: Id) returns (now: bool, w: nat, o: Outcome)
    requires Inv(q) && Plain(q) && Next(q, q') && id in q'.records && !Unfinished(q'.records[id])
    ensures if now then EndsNow(q, q', id, w, o) && Tells(q'.records[id], o)
            else id in q.records && q.records[id] == q'.records[id]
  {
    var e :| Enabled(q, e) && q' == Apply(q, e);
    FinishedStep(q, e, id);
    now := e.Ended? && q.loop[e.w].state.id == id;
    w, o := if now then e.w else 0, if now then e.outcome else Fatal;
  }

  lemma FinishedIn(qs: seq<Q>, max: nat, i: nat, id: Id) returns (now: bool, w: nat, o: Outcome)
    requires Run(qs) && qs[0] == Initial(max) && i + 1 < |qs|
    requires id in qs[i + 1].records && !Unfinished(qs[i + 1].records[id])
    ensures if now then EndsNow(qs[i], qs[i + 1], id, w, o) && Tells(qs[i + 1].records[id], o)
            else id in qs[i].records && qs[i].records[id] == qs[i + 1].records[id]
  {
    NextIn(qs, max, i);
    AlwaysPlain(qs, max, i);
    now, w, o := FinishedNext(qs[i], qs[i + 1], id);
  }

  /** Conversely a finished record has its reason: the work of its task ended so, earlier in the run. */
  lemma {:induction false} FinishedHasEnded(qs: seq<Q>, max: nat, j: nat, id: Id) returns (i: nat, w: nat, o: Outcome)
    requires Run(qs) && qs[0] == Initial(max) && j < |qs|
    requires id in qs[j].records && !Unfinished(qs[j].records[id])
    ensures i < j && EndsNow(qs[i], qs[i + 1], id, w, o) && Tells(qs[j].records[id], o)
    decreases j
  {
    var now: bool;
    now, w, o := FinishedIn(qs, max, j - 1, id);
    if now {
      i := j - 1;
    } else {
      i, w, o := FinishedHasEnded(qs, max, j - 1, id);
    }
  }

  // ----------------------------------------------------------------- what was asked

  predicate AskedAs(q: Q, id: Id, user: User, operation: string) {
    id in q.owner && (id in q.records ==> q.records[id].user == user && q.records[id].operation == operation)
  }

  lemma OwnerStays(q: Q, e: Event, id: Id)
    requires Enabled(q, e) && id in q.owner
    ensures id in Apply(q, e).owner
  {
    match e
    case Took(w) => TookHistory(q, w);
    case Ended(w, o) => EndedHistory(q, w, o, id);
    case _ =>
  }

  lemma AskedAsStays(q: Q, e: Event, id: Id, user: User, operation: string)
    requires Inv(q) && PlainAt(q, id) && Enabled(q, e) && AskedAs(q, id, user, operation)
    ensures AskedAs(Apply(q, e), id, user, operation)
  {
    OwnerStays(q, e, id);
    if Touched(q, e) != Some(id) {
      LeavesAlone(q, e, id);
    } else if e.Took? {
      TookRecord(q, e.w);
    } else {
      EndedRecord(q, e.w, e.outcome);
    }
  }

  lemma AskedAsNext(q: Q, q': Q, id: Id, user: User, operation: string)
    requires Inv(q) && Plain(q) && Next(q, q') && AskedAs(q, id, user, operation)
    ensures AskedAs(q', id, user, operation)
  {
    var e :| Enabled(q, e) && q' == Apply(q, e);
    assert PlainAt(q, id);
    AskedAsStays(q, e, id, user, operation);
  }

  lemma AskedFirst(q: Q, e: Event)
    requires e.Enqueued? && Enabled(q, e)
    ensures AskedAs(Apply(q, e), e.id, e.user, e.operation)
  {
    EnqueuedRecord(q, e);
  }

  lemma AskedAsIn(qs: seq<Q>, max: nat, i: nat, id: Id, user: User, operation: string)
    requires Run(qs) && qs[0] == Initial(max) && i + 1 < |qs| && AskedAs(qs[i], id, user, operation)
    ensures AskedAs(qs[i + 1], id, user, operation)
  {
    NextIn(qs, max, i);
    AlwaysPlain(qs, max, i);
    AskedAsNext(qs[i], qs[i + 1], id, user, operation);
  }

  lemma {:induction false} AskedAsForever(qs: seq<Q>, max: nat, i: nat, j: nat, id: Id, user: User, operation: string)
    requires Run(qs) && qs[0] == Initial(max) && i <= j < |qs| && AskedAs(qs[i], id, user, operation)
    ensures AskedAs(qs[j], id, user, operation)
    decreases j
  {
    if i < j {
      AskedAsForever(qs, max, i, j - 1, id, user, operation);
      AskedAsIn(qs, max, j - 1, id, user, operation);
    }
  }

  /** A record, while it lasts, names the user and the operation that were enqueued. */
  lemma RecordNamesTask(qs: seq<Q>, max: nat, i: nat, j: nat, e: Event)
    requires Run(qs) && qs[0] == Initial(max) && i < j < |qs| && e.Enqueued? && Happens(qs, i, e)
    ensures e.id in qs[j].records ==> qs[j].records[e.id].user == e.user && qs[j].records[e.id].operation == e.operation
  {
    AskedFirst(qs[i], e);
    AskedAsForever(qs, max, i + 1, j, e.id, e.user, e.operation);
  }
}
