/** The per-user FIFO task queue as a state machine.  Each event is one stretch of code between
    two suspension points of the event loop, so a sequence of events is an interleaving of
    callers, workers, cancellations and the closing coroutine. */
module TaskQueue {
  import opened Ordering

  type Id = string
  type User = string

  datatype Status = Queued | Running | Succeeded | Failed

  datatype Record = Record(user: User, operation: string, status: Status, errorCode: Option<string>)

  datatype Item = Task(id: Id) | Stop

  /** Idle awaits the queue, Busy awaits a task's work; the rest are ways to be done. */
  datatype WorkerState = Idle | Busy(id: Id) | Returned | Cancelled | Crashed

  datatype Coroutine = Coroutine(user: User, state: WorkerState) {
    predicate Live() { state.Idle? || state.Busy? }
  }

  datatype Phase = Open | Draining | Stopping | Closed

  /** How a task's work ended.  Fatal is a BaseException that is not a cancellation. */
  datatype Outcome = Succeeds | Raises | IsCancelled | Fatal

  datatype Q = Q(
    records: map<Id, Record>,
    order: seq<Id>,
    queues: map<User, seq<Item>>,
    unfinished: map<User, nat>,
    workers: map<User, nat>,
    accepting: bool,
    phase: Phase,
    max: nat,
    // every worker coroutine ever created, and the history
    loop: map<nat, Coroutine>,
    owner: map<Id, User>,
    enqueued: map<User, seq<Id>>,
    started: map<User, seq<Id>>,
    completed: seq<Id>,
    // tasks whose worker died of a fatal exception while running them
    lost: set<Id>)

  datatype Event =
    | Enqueued(user: User, operation: string, id: Id, spawn: nat)
    | Took(w: nat)
    | Ended(w: nat, outcome: Outcome)
    | IdleCancelled(w: nat)
    | CloseBegan
    | CloseStopped
    | CloseReturned

  function TaskIds(items: seq<Item>): seq<Id> {
    if items == [] then []
    else (if items[0].Task? then [items[0].id] else []) + TaskIds(items[1..])
  }

  function Get<T>(m: map<User, seq<T>>, u: User): seq<T> {
    if u in m then m[u] else []
  }

  function Count(m: map<User, nat>, u: User): nat {
    if u in m then m[u] else 0
  }

  function Last(s: seq<Id>, n: nat): seq<Id> {
    if |s| <= n then s else s[|s| - n..]
  }

  /** What `_retain_completed` drops: everything older than the last `max` completions. */
  function Dropped(order: seq<Id>, max: nat): set<Id> {
    if |order| <= max then {} else Elements(order[..|order| - max])
  }

  predicate NeedsWorker(q: Q, user: User) {
    user !in q.workers || q.workers[user] !in q.loop || !q.loop[q.workers[user]].Live()
  }

  predicate Enabled(q: Q, e: Event) {
    match e
    case Enqueued(user, _, id, spawn) => q.accepting && id !in q.owner && spawn !in q.loop
    case Took(w) => w in q.loop && q.loop[w].state.Idle? && Get(q.queues, q.loop[w].user) != []
    case Ended(w, _) => w in q.loop && q.loop[w].state.Busy?
    case IdleCancelled(w) => w in q.loop && q.loop[w].state.Idle?
    case CloseBegan => q.phase == Open
    case CloseStopped => q.phase == Draining && forall u :: u in q.queues ==> Count(q.unfinished, u) == 0
    case CloseReturned =>
      q.phase == Stopping && forall u :: u in q.workers ==> q.workers[u] in q.loop && q.loop[q.workers[u]].state.Returned?
  }

  function ApplyEnqueued(q: Q, user: User, operation: string, id: Id, spawn: nat): Q {
    q.(records := q.records[id := Record(user, operation, Queued, None)],
       queues := q.queues[user := Get(q.queues, user) + [Task(id)]],
       unfinished := q.unfinished[user := Count(q.unfinished, user) + 1],
       workers := if NeedsWorker(q, user) then q.workers[user := spawn] else q.workers,
       loop := if NeedsWorker(q, user) then q.loop[spawn := Coroutine(user, Idle)] else q.loop,
       owner := q.owner[id := user],
       enqueued := q.enqueued[user := Get(q.enqueued, user) + [id]])
  }

  function ApplyTook(q: Q, w: nat): Q
    requires Enabled(q, Took(w))
  {
    var user := q.loop[w].user;
    var item, rest := q.queues[user][0], q.queues[user][1..];
    if item.Stop? then
      q.(queues := q.queues[user := rest],
         loop := q.loop[w := Coroutine(user, Returned)],
         unfinished := q.unfinished[user := Less1(Count(q.unfinished, user))])
    else
      q.(queues := q.queues[user := rest],
         loop := q.loop[w := Coroutine(user, Busy(item.id))],
         records := if item.id in q.records then q.records[item.id := q.records[item.id].(status := Running)] else q.records,
         started := q.started[user := Get(q.started, user) + [item.id]])
  }

  function Less1(n: nat): nat {
    if n == 0 then 0 else n - 1
  }

  function EndState(o: Outcome): WorkerState {
    match o case Succeeds => Idle case Raises => Idle case IsCancelled => Cancelled case Fatal => Crashed
  }

  function EndRecord(r: Record, o: Outcome): Record {
    match o
    case Succeeds => r.(status := Succeeded)
    case Raises => r.(status := Failed, errorCode := Some("TASK_FAILED"))
    case IsCancelled => r.(status := Failed, errorCode := Some("TASK_CANCELLED"))
    case Fatal => r
  }

  function ApplyEnded(q: Q, w: nat, o: Outcome): Q
    requires Enabled(q, Ended(w, o))
  {
    var user, id := q.loop[w].user, q.loop[w].state.id;
    var records := if id in q.records then q.records[id := EndRecord(q.records[id], o)] else q.records;
    var ended := q.(
      loop := q.loop[w := Coroutine(user, EndState(o))],
      unfinished := q.unfinished[user := Less1(Count(q.unfinished, user))]);
    if o.Fatal? then ended.(records := records, lost := q.lost + {id})
    else
      ended.(records := records - Dropped(q.order + [id], q.max),
             order := Last(q.order + [id], q.max),
             completed := q.completed + [id])
  }

  function Apply(q: Q, e: Event): Q
    requires Enabled(q, e)
  {
    match e
    case Enqueued(user, operation, id, spawn) => ApplyEnqueued(q, user, operation, id, spawn)
    case Took(w) => ApplyTook(q, w)
    case Ended(w, o) => ApplyEnded(q, w, o)
    case IdleCancelled(w) => q.(loop := q.loop[w := q.loop[w].(state := Cancelled)])
    case CloseBegan => q.(accepting := false, phase := Draining)
    case CloseStopped =>
      q.(queues := map u | u in q.queues :: q.queues[u] + [Stop],
         unfinished := map u | u in q.unfinished :: q.unfinished[u] + (if u in q.queues then 1 else 0),
         phase := Stopping)
    case CloseReturned => q.(queues := map[], unfinished := map[], workers := map[], phase := Closed)
  }

  function Initial(max: nat): Q {
    Q(map[], [], map[], map[], map[], true, Open, max, map[], map[], map[], map[], [], {})
  }

  ghost predicate Run(qs: seq<Q>) {
    qs != [] && forall i :: Linked(qs, i)
  }

  ghost predicate Linked(qs: seq<Q>, i: int) {
    0 <= i < |qs| - 1 ==> Next(qs[i], qs[i + 1])
  }

  ghost predicate Next(q: Q, q': Q) {
    exists e :: Enabled(q, e) && q' == Apply(q, e)
  }

  // ----------------------------------------------------------------- the invariant

  /** Everything that concerns one user. */
  datatype View = View(
    items: seq<Item>,
    unfinished: nat,
    worker: Option<WorkerState>,
    enqueued: seq<Id>,
    started: seq<Id>)
  {
    predicate IsBusy() { worker.Some? && worker.value.Busy? }

    predicate Running(id: Id) { worker == Some(Busy(id)) }

    predicate Waiting(id: Id) { id in TaskIds(items) }
  }

  function ViewOf(q: Q, u: User): View {
    View(Get(q.queues, u), Count(q.unfinished, u),
         if u in q.workers && q.workers[u] in q.loop then Some(q.loop[q.workers[u]].state) else None,
         Get(q.enqueued, u), Get(q.started, u))
  }

  predicate SameFor(q: Q, q': Q, u: User) {
    && Get(q'.queues, u) == Get(q.queues, u) && Count(q'.unfinished, u) == Count(q.unfinished, u)
    && Get(q'.enqueued, u) == Get(q.enqueued, u) && Get(q'.started, u) == Get(q.started, u)
    && (u in q'.workers <==> u in q.workers)
    && (u in q.workers ==>
      q'.workers[u] == q.workers[u] && (q.workers[u] in q'.loop <==> q.workers[u] in q.loop)
      && (q.workers[u] in q.loop ==> q'.loop[q.workers[u]] == q.loop[q.workers[u]]))
  }

  lemma SameView(q: Q, q': Q, u: User)
    requires SameFor(q, q', u)
    ensures ViewOf(q', u) == ViewOf(q, u)
  {
  }

  /** Tasks start in exactly the order they were enqueued, the rest still wait in that order, and
      a busy worker runs the last one started. */
  predicate ViewOk(v: View) {
    && v.unfinished == |v.items| + (if v.IsBusy() then 1 else 0)
    && (v.worker.None? ==> v.items == [])
    && v.enqueued == v.started + TaskIds(v.items)
    && Distinct(v.enqueued)
    && (v.IsBusy() ==> v.started != [] && v.started[|v.started| - 1] == v.worker.value.id)
  }

  /** An accepted task is in exactly one place. */
  predicate PlaceOk(v: View, completed: seq<Id>, lost: set<Id>, id: Id) {
    && id in v.enqueued
    && (v.Waiting(id) ==> !v.Running(id) && id !in completed && id !in lost)
    && (v.Running(id) ==> id !in completed && id !in lost)
    && (id in completed ==> id !in lost)
    && (v.Waiting(id) || v.Running(id) || id in completed || id in lost)
  }

  /** The record table: a task has a record until it is completed and dropped from the retained
      ones, and the record's status says where that task is. */
  predicate RecordOk(v: View, records: map<Id, Record>, order: seq<Id>, completed: seq<Id>, lost: set<Id>, u: User, id: Id) {
    && (id in records <==> id !in completed || id in order)
    && (id in records ==>
      && records[id].user == u
      && (records[id].status == Queued <==> v.Waiting(id))
      && (records[id].status == Running <==> v.Running(id) || id in lost))
  }

  predicate TaskOk(q: Q, id: Id)
    requires id in q.owner
  {
    var v := ViewOf(q, q.owner[id]);
    PlaceOk(v, q.completed, q.lost, id) && RecordOk(v, q.records, q.order, q.completed, q.lost, q.owner[id], id)
  }

  /** Every user's registered worker is a coroutine of that user, and no other coroutine of that
      user is live: at most one live worker per user. */
  predicate Registered(workers: map<User, nat>, loop: map<nat, Coroutine>) {
    && (forall u :: u in workers ==> workers[u] in loop && loop[workers[u]].user == u)
    && (forall w {:trigger loop[w].Live()} :: w in loop && loop[w].Live() ==>
      loop[w].user in workers && workers[loop[w].user] == w)
  }

  predicate LoopOk(q: Q) {
    q.workers.Keys == q.queues.Keys == q.unfinished.Keys && Registered(q.workers, q.loop)
  }

  /** A live worker may change state, and a new one may replace a dead one. */
  lemma RegisteredKept(workers: map<User, nat>, loop: map<nat, Coroutine>, w: nat, state: WorkerState)
    requires Registered(workers, loop) && w in loop && loop[w].Live()
    ensures Registered(workers, loop[w := Coroutine(loop[w].user, state)])
  {
    var loop' := loop[w := Coroutine(loop[w].user, state)];
    forall x | x in loop' && loop'[x].Live() ensures loop'[x].user in workers && workers[loop'[x].user] == x {
      assert loop[x].Live();
    }
  }

  lemma RegisteredSpawned(workers: map<User, nat>, loop: map<nat, Coroutine>, u: User, w: nat)
    requires Registered(workers, loop) && w !in loop
    requires u in workers ==> !loop[workers[u]].Live()
    ensures Registered(workers[u := w], loop[w := Coroutine(u, Idle)])
  {
    var loop' := loop[w := Coroutine(u, Idle)];
    forall x | x in loop' && loop'[x].Live()
      ensures loop'[x].user in workers[u := w] && workers[u := w][loop'[x].user] == x
    {
      assert x != w ==> loop[x].Live();
    }
  }

  /** A live coroutine is the registered worker of its user, and of nobody else. */
  lemma OwnWorker(q: Q, w: nat)
    requires LoopOk(q) && w in q.loop && q.loop[w].Live()
    ensures var user := q.loop[w].user;
      user in q.workers && q.workers[user] == w && user in q.queues && user in q.unfinished
  {
  }

  lemma OtherWorker(q: Q, w: nat, u: User)
    requires LoopOk(q) && w in q.loop && u in q.workers && u != q.loop[w].user
    ensures q.workers[u] != w
  {
  }

  /** Only stop items are left for this user. */
  predicate Drained(q: Q, u: User) {
    u in q.queues ==> TaskIds(q.queues[u]) == [] && !ViewOf(q, u).IsBusy()
  }

  /** Once close has drained every queue, only stop items are left. */
  ghost predicate PhaseOk(q: Q) {
    && (q.accepting <==> q.phase == Open)
    && (q.phase in {Stopping, Closed} ==> forall u :: Drained(q, u))
    && (q.phase == Closed ==> q.queues == map[])
  }

  ghost predicate HistoryOk(q: Q) {
    && q.records.Keys <= q.owner.Keys && Elements(q.completed) <= q.owner.Keys && q.lost <= q.owner.Keys
    && (forall u, id :: id in Get(q.enqueued, u) ==> id in q.owner && q.owner[id] == u)
    && Distinct(q.completed)
    && q.order == Last(q.completed, q.max)
  }

  ghost predicate Inv(q: Q) {
    && LoopOk(q) && PhaseOk(q) && HistoryOk(q)
    && (forall u :: ViewOk(ViewOf(q, u)))
    && (forall id :: id in q.owner ==> TaskOk(q, id))
  }

  lemma InvView(q: Q, u: User)
    requires Inv(q)
    ensures LoopOk(q) && PhaseOk(q) && HistoryOk(q) && ViewOk(ViewOf(q, u))
  {
  }

  lemma InvTask(q: Q, x: Id)
    requires Inv(q) && x in q.owner
    ensures TaskOk(q, x) && ViewOk(ViewOf(q, q.owner[x]))
  {
  }

  lemma {:induction false} TaskIdsAppend(items: seq<Item>, item: Item)
    ensures TaskIds(items + [item]) == TaskIds(items) + (if item.Task? then [item.id] else [])
  {
    if items != [] {
      assert (items + [item])[1..] == items[1..] + [item];
      TaskIdsAppend(items[1..], item);
    }
  }

  // ---------------------------------------------------------------- enqueue

  lemma EnqueuedOthers(q: Q, e: Event, u: User)
    requires LoopOk(q) && e.Enqueued? && Enabled(q, e) && u != e.user
    ensures SameFor(q, Apply(q, e), u)
  {
  }

  lemma EnqueuedView(q: Q, e: Event, u: User)
    requires LoopOk(q) && e.Enqueued? && Enabled(q, e)
    ensures var v, v' := ViewOf(q, u), ViewOf(Apply(q, e), u);
      && (u != e.user ==> v' == v)
      && (u == e.user ==>
        && v' == v.(items := v.items + [Task(e.id)], unfinished := v.unfinished + 1,
                    enqueued := v.enqueued + [e.id], worker := v'.worker)
        && (v'.worker == v.worker || (v'.worker == Some(Idle) && !v.IsBusy()))
        && v'.worker.Some?)
  {
    if u != e.user {
      EnqueuedOthers(q, e, u);
      SameView(q, Apply(q, e), u);
    }
  }

  lemma AppendOk(v: View, v': View, id: Id)
    requires ViewOk(v) && id !in v.enqueued
    requires v' == v.(items := v.items + [Task(id)], unfinished := v.unfinished + 1,
                      enqueued := v.enqueued + [id], worker := v'.worker)
    requires v'.worker.Some? && (v'.worker == v.worker || (v'.worker == Some(Idle) && !v.IsBusy()))
    ensures ViewOk(v')
    ensures forall x :: v'.Waiting(x) <==> v.Waiting(x) || x == id
    ensures forall x :: v'.Running(x) <==> v.Running(x)
  {
    TaskIdsAppend(v.items, Task(id));
    assert TaskIds(v'.items) == TaskIds(v.items) + [id];
    assert v'.enqueued == v.started + (TaskIds(v.items) + [id]);
  }

  lemma UnknownIsNowhere(q: Q, id: Id, u: User)
    requires HistoryOk(q) && ViewOk(ViewOf(q, u)) && id !in q.owner
    ensures id !in q.completed && id !in q.records && id !in q.lost && id !in q.order
    ensures id !in ViewOf(q, u).enqueued && !ViewOf(q, u).Waiting(id) && !ViewOf(q, u).Running(id)
  {
    var v := ViewOf(q, u);
    if v.IsBusy() {
      assert v.worker.value.id in v.enqueued;
    }
  }

  lemma EnqueuedOwn(q: Q, e: Event)
    requires HistoryOk(q) && LoopOk(q) && e.Enqueued? && Enabled(q, e) && ViewOk(ViewOf(q, e.user))
    ensures TaskOk(Apply(q, e), e.id)
  {
    EnqueuedView(q, e, e.user);
    UnknownIsNowhere(q, e.id, e.user);
    AppendOk(ViewOf(q, e.user), ViewOf(Apply(q, e), e.user), e.id);
  }

  lemma EnqueuedOther(q: Q, e: Event, x: Id)
    requires LoopOk(q) && e.Enqueued? && Enabled(q, e) && x in q.owner && TaskOk(q, x) && x != e.id
    requires ViewOk(ViewOf(q, q.owner[x])) && e.id !in ViewOf(q, q.owner[x]).enqueued
    ensures TaskOk(Apply(q, e), x)
  {
    var u := q.owner[x];
    EnqueuedView(q, e, u);
    if u == e.user {
      AppendOk(ViewOf(q, u), ViewOf(Apply(q, e), u), e.id);
    }
  }

  lemma EnqueuedTask(q: Q, e: Event, x: Id)
    requires Inv(q) && e.Enqueued? && Enabled(q, e) && x in Apply(q, e).owner
    ensures TaskOk(Apply(q, e), x)
  {
    if x == e.id {
      assert ViewOk(ViewOf(q, e.user));
      EnqueuedOwn(q, e);
    } else {
      assert TaskOk(q, x) && ViewOk(ViewOf(q, q.owner[x]));
      UnknownIsNowhere(q, e.id, q.owner[x]);
      EnqueuedOther(q, e, x);
    }
  }

  lemma EnqueuedUser(q: Q, e: Event, u: User)
    requires LoopOk(q) && HistoryOk(q) && ViewOk(ViewOf(q, u)) && e.Enqueued? && Enabled(q, e)
    ensures ViewOk(ViewOf(Apply(q, e), u))
  {
    EnqueuedView(q, e, u);
    UnknownIsNowhere(q, e.id, u);
    if u == e.user {
      AppendOk(ViewOf(q, u), ViewOf(Apply(q, e), u), e.id);
    }
  }

  lemma EnqueuedLoopNew(q: Q, e: Event)
    requires LoopOk(q) && e.Enqueued? && Enabled(q, e) && NeedsWorker(q, e.user)
    ensures LoopOk(Apply(q, e))
  {
    RegisteredSpawned(q.workers, q.loop, e.user, e.spawn);
  }

  lemma EnqueuedLoopOld(q: Q, e: Event)
    requires LoopOk(q) && e.Enqueued? && Enabled(q, e) && !NeedsWorker(q, e.user)
    ensures LoopOk(Apply(q, e))
  {
  }

  lemma EnqueuedLoop(q: Q, e: Event)
    requires LoopOk(q) && e.Enqueued? && Enabled(q, e)
    ensures LoopOk(Apply(q, e))
  {
    if NeedsWorker(q, e.user) {
      EnqueuedLoopNew(q, e);
    } else {
      EnqueuedLoopOld(q, e);
    }
  }

  lemma EnqueuedHistory(q: Q, e: Event)
    requires HistoryOk(q) && e.Enqueued? && Enabled(q, e)
    ensures HistoryOk(Apply(q, e))
  {
    var q' := Apply(q, e);
    forall u, id | id in Get(q'.enqueued, u) ensures id in q'.owner && q'.owner[id] == u {
      assert id in Get(q.enqueued, u) || (id == e.id && u == e.user);
    }
  }

  lemma EnqueuedKeeps(q: Q, e: Event)
    requires Inv(q) && e.Enqueued? && Enabled(q, e)
    ensures Inv(Apply(q, e))
  {
    EnqueuedLoop(q, e);
    EnqueuedHistory(q, e);
    assert PhaseOk(Apply(q, e));
    forall u ensures ViewOk(ViewOf(Apply(q, e), u)) {
      EnqueuedUser(q, e, u);
    }
    forall x | x in Apply(q, e).owner ensures TaskOk(Apply(q, e), x) {
      EnqueuedTask(q, e, x);
    }
  }

  // ------------------------------------------------------------- a worker takes an item

  lemma TookOthersStop(q: Q, w: nat, u: User)
    requires Enabled(q, Took(w)) && u != q.loop[w].user && (u in q.workers ==> q.workers[u] != w)
    requires Get(q.queues, q.loop[w].user)[0].Stop?
    ensures SameFor(q, Apply(q, Took(w)), u)
  {
  }

  lemma TookOthersTask(q: Q, w: nat, u: User)
    requires Enabled(q, Took(w)) && u != q.loop[w].user && (u in q.workers ==> q.workers[u] != w)
    requires Get(q.queues, q.loop[w].user)[0].Task?
    ensures SameFor(q, Apply(q, Took(w)), u)
  {
  }

  lemma TookOwnStop(q: Q, w: nat)
    requires Enabled(q, Took(w)) && q.loop[w].user in q.workers && q.workers[q.loop[w].user] == w
    requires q.loop[w].user in q.queues && q.queues[q.loop[w].user][0].Stop?
    ensures var v, v' := ViewOf(q, q.loop[w].user), ViewOf(Apply(q, Took(w)), q.loop[w].user);
      && v.worker == Some(Idle) && v.items != [] && v.items[0] == Stop
      && v' == v.(items := v.items[1..], worker := Some(Returned), unfinished := Less1(v.unfinished))
  {
  }

  lemma TookOwnTask(q: Q, w: nat)
    requires Enabled(q, Took(w)) && q.loop[w].user in q.workers && q.workers[q.loop[w].user] == w
    requires q.loop[w].user in q.queues && q.queues[q.loop[w].user][0].Task?
    ensures var v, v', id := ViewOf(q, q.loop[w].user), ViewOf(Apply(q, Took(w)), q.loop[w].user), q.queues[q.loop[w].user][0].id;
      && v.worker == Some(Idle) && v.items != [] && v.items[0] == Task(id)
      && v' == v.(items := v.items[1..], worker := Some(Busy(id)), started := v.started + [id])
  {
  }

  lemma TookView(q: Q, w: nat, u: User)
    requires LoopOk(q) && Enabled(q, Took(w))
    ensures var v, v', item := ViewOf(q, u), ViewOf(Apply(q, Took(w)), u), q.queues[q.loop[w].user][0];
      && (u != q.loop[w].user ==> v' == v)
      && (u == q.loop[w].user && item.Stop? ==>
        v.worker == Some(Idle) && v.items != [] && v.items[0] == item
        && v' == v.(items := v.items[1..], worker := Some(Returned),
                    unfinished := Less1(v.unfinished)))
      && (u == q.loop[w].user && item.Task? ==>
        v.worker == Some(Idle) && v.items != [] && v.items[0] == item
        && v' == v.(items := v.items[1..], worker := Some(Busy(item.id)), started := v.started + [item.id]))
  {
    OwnWorker(q, w);
    if u != q.loop[w].user {
      if u in q.workers {
        OtherWorker(q, w, u);
      }
      if q.queues[q.loop[w].user][0].Stop? {
        TookOthersStop(q, w, u);
      } else {
        TookOthersTask(q, w, u);
      }
      SameView(q, Apply(q, Took(w)), u);
    } else if q.queues[u][0].Stop? {
      TookOwnStop(q, w);
    } else {
      TookOwnTask(q, w);
    }
  }

  lemma TakeOk(v: View, v': View, id: Id)
    requires ViewOk(v) && v.worker == Some(Idle) && v.items != [] && v.items[0] == Task(id)
    requires v' == v.(items := v.items[1..], worker := Some(Busy(id)), started := v.started + [id])
    ensures ViewOk(v')
    ensures v.Waiting(id) && v'.Running(id) && !v'.Waiting(id)
    ensures forall x :: x != id ==> (v'.Waiting(x) <==> v.Waiting(x))
    ensures forall x :: x != id ==> !v.Running(x) && !v'.Running(x)
  {
    var rest := TaskIds(v.items[1..]);
    assert TaskIds(v.items) == [id] + rest;
    assert v'.enqueued == v.started + [id] + rest;
    assert v.enqueued[|v.started|] == id;
    forall k | 0 <= k < |rest| ensures rest[k] != id {
      assert v.enqueued[|v.started| + 1 + k] == rest[k];
    }
  }

  lemma StopOk(v: View, v': View)
    requires ViewOk(v) && v.worker == Some(Idle) && v.items != [] && v.items[0] == Stop
    requires v' == v.(items := v.items[1..], worker := Some(Returned), unfinished := v.unfinished - 1)
    ensures ViewOk(v')
    ensures forall x :: (v'.Waiting(x) <==> v.Waiting(x)) && !v.Running(x) && !v'.Running(x)
  {
    assert TaskIds(v.items) == TaskIds(v.items[1..]);
  }

  lemma TookUser(q: Q, w: nat, u: User)
    requires LoopOk(q) && ViewOk(ViewOf(q, u)) && Enabled(q, Took(w))
    ensures ViewOk(ViewOf(Apply(q, Took(w)), u))
  {
    TookView(q, w, u);
    var item := q.queues[q.loop[w].user][0];
    if u == q.loop[w].user {
      if item.Stop? {
        StopOk(ViewOf(q, u), ViewOf(Apply(q, Took(w)), u));
      } else {
        TakeOk(ViewOf(q, u), ViewOf(Apply(q, Took(w)), u), item.id);
      }
    }
  }

  lemma TookTask(q: Q, w: nat, x: Id)
    requires LoopOk(q) && HistoryOk(q) && Enabled(q, Took(w)) && x in q.owner && TaskOk(q, x)
    requires ViewOk(ViewOf(q, q.owner[x])) && ViewOk(ViewOf(q, q.loop[w].user))
    ensures TaskOk(Apply(q, Took(w)), x)
  {
    if q.queues[q.loop[w].user][0].Stop? {
      TookStop(q, w, x);
    } else {
      HeadIsWaiting(q, w);
      if q.owner[x] == q.loop[w].user {
        TookOwn(q, w, x);
      } else {
        TookOther(q, w, x);
      }
    }
  }

  lemma TookOwn(q: Q, w: nat, x: Id)
    requires LoopOk(q) && Enabled(q, Took(w)) && x in q.owner && TaskOk(q, x)
    requires q.owner[x] == q.loop[w].user && ViewOk(ViewOf(q, q.owner[x]))
    requires q.queues[q.loop[w].user][0].Task?
    ensures TaskOk(Apply(q, Took(w)), x)
  {
    var u := q.owner[x];
    OwnWorker(q, w);
    TookOwnTask(q, w);
    TakeOk(ViewOf(q, u), ViewOf(Apply(q, Took(w)), u), q.queues[u][0].id);
  }

  lemma TookOther(q: Q, w: nat, x: Id)
    requires LoopOk(q) && Enabled(q, Took(w)) && x in q.owner && TaskOk(q, x) && q.owner[x] != q.loop[w].user
    requires q.queues[q.loop[w].user][0].Task? && q.queues[q.loop[w].user][0].id in q.owner
    requires q.owner[q.queues[q.loop[w].user][0].id] == q.loop[w].user
    ensures TaskOk(Apply(q, Took(w)), x)
  {
    TookView(q, w, q.owner[x]);
    assert x != q.queues[q.loop[w].user][0].id;
  }

  lemma TookStop(q: Q, w: nat, x: Id)
    requires LoopOk(q) && Enabled(q, Took(w)) && x in q.owner && TaskOk(q, x)
    requires ViewOk(ViewOf(q, q.owner[x])) && q.queues[q.loop[w].user][0].Stop?
    ensures TaskOk(Apply(q, Took(w)), x)
  {
    var u := q.owner[x];
    TookView(q, w, u);
    if u == q.loop[w].user {
      StopOk(ViewOf(q, u), ViewOf(Apply(q, Took(w)), u));
    }
  }

  /** The head of a user's queue is a waiting task of that user. */
  lemma HeadIsWaiting(q: Q, w: nat)
    requires LoopOk(q) && HistoryOk(q) && Enabled(q, Took(w)) && ViewOk(ViewOf(q, q.loop[w].user))
    requires q.queues[q.loop[w].user][0].Task?
    ensures var id := q.queues[q.loop[w].user][0].id;
      id in q.owner && q.owner[id] == q.loop[w].user && ViewOf(q, q.loop[w].user).Waiting(id)
  {
    var v := ViewOf(q, q.loop[w].user);
    assert TaskIds(v.items)[0] == v.items[0].id;
    assert v.items[0].id in v.enqueued;
  }

  /** The coroutine w changes its state; the tables keep their users. */
  lemma LoopKept(q: Q, q': Q, w: nat, state: WorkerState)
    requires LoopOk(q) && w in q.loop && q.loop[w].Live()
    requires q'.workers == q.workers && q'.loop == q.loop[w := Coroutine(q.loop[w].user, state)]
    requires q'.queues.Keys == q.queues.Keys && q'.unfinished.Keys == q.unfinished.Keys
    ensures LoopOk(q')
  {
    RegisteredKept(q.workers, q.loop, w, state);
  }

  lemma TookLoopStop(q: Q, w: nat)
    requires LoopOk(q) && Enabled(q, Took(w)) && q.queues[q.loop[w].user][0].Stop?
    ensures LoopOk(Apply(q, Took(w)))
  {
    OwnWorker(q, w);
    var q' := Apply(q, Took(w));
    assert q'.queues.Keys == q.queues.Keys && q'.unfinished.Keys == q.unfinished.Keys;
    LoopKept(q, q', w, Returned);
  }

  lemma TookLoopTask(q: Q, w: nat)
    requires LoopOk(q) && Enabled(q, Took(w)) && q.queues[q.loop[w].user][0].Task?
    ensures LoopOk(Apply(q, Took(w)))
  {
    OwnWorker(q, w);
    var q' := Apply(q, Took(w));
    assert q'.queues.Keys == q.queues.Keys;
    LoopKept(q, q', w, Busy(q.queues[q.loop[w].user][0].id));
  }

  lemma TookLoop(q: Q, w: nat)
    requires LoopOk(q) && Enabled(q, Took(w))
    ensures LoopOk(Apply(q, Took(w)))
  {
    if q.queues[q.loop[w].user][0].Stop? {
      TookLoopStop(q, w);
    } else {
      TookLoopTask(q, w);
    }
  }

  lemma TookDrained(q: Q, w: nat, u: User)
    requires LoopOk(q) && Enabled(q, Took(w)) && Drained(q, u)
    ensures Drained(Apply(q, Took(w)), u)
  {
    TookView(q, w, u);
  }

  lemma TookPhase(q: Q, w: nat)
    requires LoopOk(q) && PhaseOk(q) && Enabled(q, Took(w))
    ensures PhaseOk(Apply(q, Took(w)))
  {
    if q.phase in {Stopping, Closed} {
      forall u ensures Drained(Apply(q, Took(w)), u) {
        TookDrained(q, w, u);
      }
    }
  }

  lemma TookHistory(q: Q, w: nat)
    requires LoopOk(q) && HistoryOk(q) && Enabled(q, Took(w)) && ViewOk(ViewOf(q, q.loop[w].user))
    ensures HistoryOk(Apply(q, Took(w)))
  {
    if q.queues[q.loop[w].user][0].Task? {
      HeadIsWaiting(q, w);
    }
  }

  lemma TookAccepted(q: Q, w: nat, x: Id)
    requires Inv(q) && Enabled(q, Took(w)) && x in Apply(q, Took(w)).owner
    ensures TaskOk(Apply(q, Took(w)), x)
  {
    InvTask(q, x);
    InvView(q, q.loop[w].user);
    TookTask(q, w, x);
  }

  lemma TookKeeps(q: Q, w: nat)
    requires Inv(q) && Enabled(q, Took(w))
    ensures Inv(Apply(q, Took(w)))
  {
    TookLoop(q, w);
    TookPhase(q, w);
    assert ViewOk(ViewOf(q, q.loop[w].user));
    TookHistory(q, w);
    forall x | x in Apply(q, Took(w)).owner ensures TaskOk(Apply(q, Took(w)), x) {
      TookAccepted(q, w, x);
    }
    forall u ensures ViewOk(ViewOf(Apply(q, Took(w)), u)) {
      TookUser(q, w, u);
    }
  }

  /** A worker's lookup of what it takes never misses: unfinished records are not evicted. */
  lemma LookupSucceeds(q: Q, w: nat)
    requires Inv(q) && Enabled(q, Took(w)) && q.queues[q.loop[w].user][0].Task?
    ensures var id := q.queues[q.loop[w].user][0].id;
      id in q.records && q.records[id].status == Queued && q.records[id].user == q.loop[w].user
  {
    HeadIsWaiting(q, w);
    assert TaskOk(q, q.queues[q.loop[w].user][0].id);
  }

  // ------------------------------------------------------------------- a task ends

  lemma EndedOthers(q: Q, w: nat, o: Outcome, u: User)
    requires LoopOk(q) && Enabled(q, Ended(w, o)) && u != q.loop[w].user
    ensures ViewOf(Apply(q, Ended(w, o)), u) == ViewOf(q, u)
  {
    if u in q.workers {
      assert q.loop[q.workers[u]].user == u;
    }
  }

  lemma EndedView(q: Q, w: nat, o: Outcome, u: User)
    requires LoopOk(q) && Enabled(q, Ended(w, o))
    ensures var v, v' := ViewOf(q, u), ViewOf(Apply(q, Ended(w, o)), u);
      && (u != q.loop[w].user ==> v' == v)
      && (u == q.loop[w].user ==>
        v.worker == Some(q.loop[w].state)
        && v' == v.(worker := Some(EndState(o)), unfinished := Less1(v.unfinished)))
  {
    if u != q.loop[w].user {
      EndedOthers(q, w, o, u);
    } else {
      assert q.loop[w].Live();
    }
  }

  lemma EndedUser(q: Q, w: nat, o: Outcome, u: User)
    requires LoopOk(q) && ViewOk(ViewOf(q, u)) && Enabled(q, Ended(w, o))
    ensures ViewOk(ViewOf(Apply(q, Ended(w, o)), u))
  {
    EndedView(q, w, o, u);
  }

  /** Retention drops a prefix of the completions: each one is either kept or dropped. */
  lemma Retention(completed: seq<Id>, order: seq<Id>, max: nat, id: Id)
    requires order == Last(completed, max) && Distinct(completed) && id !in completed
    ensures Distinct(completed + [id])
    ensures Last(order + [id], max) == Last(completed + [id], max)
    ensures forall x :: x in order + [id] ==> (x in Last(order + [id], max) <==> x !in Dropped(order + [id], max))
    ensures forall x :: x in Last(order + [id], max) || x in Dropped(order + [id], max) ==> x in order + [id]
  {
    var longer := order + [id];
    forall i, j | 0 <= i < j < |longer| ensures longer[i] != longer[j] {
      if j < |order| {
        assert order[i] == completed[|completed| - |order| + i] && order[j] == completed[|completed| - |order| + j];
      } else {
        assert order[i] == completed[|completed| - |order| + i];
      }
    }
    if |longer| > max {
      assert longer == longer[..|longer| - max] + longer[|longer| - max..];
    }
  }

  lemma RunningIsKnown(q: Q, w: nat, o: Outcome)
    requires Inv(q) && Enabled(q, Ended(w, o))
    ensures var id, u := q.loop[w].state.id, q.loop[w].user;
      && id in q.owner && q.owner[id] == u && ViewOf(q, u).Running(id)
      && id !in q.completed && id !in q.lost && id in q.records
  {
    var id, u := q.loop[w].state.id, q.loop[w].user;
    EndedView(q, w, o, u);
    assert ViewOk(ViewOf(q, u));
    assert id in ViewOf(q, u).enqueued;
    assert TaskOk(q, id);
  }

  lemma RunningRecord(q: Q, w: nat, o: Outcome)
    requires Inv(q) && Enabled(q, Ended(w, o))
    ensures q.loop[w].state.id in q.records && q.records[q.loop[w].state.id].status == Running
  {
    RunningIsKnown(q, w, o);
    assert TaskOk(q, q.loop[w].state.id);
  }

  /** What completing one task means for every accepted task of the same or another user. */
  lemma CompletedTask(
    v: View, v': View, records: map<Id, Record>, order: seq<Id>, completed: seq<Id>, lost: set<Id>, max: nat,
    u: User, id: Id, r: Record, x: Id)
    requires order == Last(completed, max) && Distinct(completed) && id !in completed && id !in lost
    requires PlaceOk(v, completed, lost, x) && RecordOk(v, records, order, completed, lost, u, x)
    requires v'.items == v.items && v'.enqueued == v.enqueued
    requires forall y :: y != id ==> (v'.Running(y) <==> v.Running(y))
    requires x == id ==> v.Running(id) && !v'.Running(id) && id in records
    requires r.user == (if id in records then records[id].user else r.user) && r.status in {Succeeded, Failed}
    ensures PlaceOk(v', completed + [id], lost, x)
    ensures RecordOk(v', records[id := r] - Dropped(order + [id], max), Last(order + [id], max), completed + [id], lost, u, x)
  {
    Retention(completed, order, max, id);
    if x in order {
      LastWithin(completed, max, x);
    }
    assert x in completed + [id] <==> x in completed || x == id;
    assert x in order + [id] <==> x in order || x == id;
  }

  lemma LostTask(v: View, v': View, records: map<Id, Record>, order: seq<Id>, completed: seq<Id>, lost: set<Id>, u: User, id: Id, x: Id)
    requires id !in completed && id !in lost
    requires PlaceOk(v, completed, lost, x) && RecordOk(v, records, order, completed, lost, u, x)
    requires v'.items == v.items && v'.enqueued == v.enqueued
    requires forall y :: y != id ==> (v'.Running(y) <==> v.Running(y))
    requires x == id ==> v.Running(id) && !v'.Running(id)
    ensures PlaceOk(v', completed, lost + {id}, x)
    ensures RecordOk(v', records, order, completed, lost + {id}, u, x)
  {
  }

  lemma EndedTask(q: Q, w: nat, o: Outcome, x: Id)
    requires LoopOk(q) && HistoryOk(q) && Enabled(q, Ended(w, o)) && x in q.owner && TaskOk(q, x)
    requires var id, u := q.loop[w].state.id, q.loop[w].user;
      id in q.owner && q.owner[id] == u && id !in q.completed && id !in q.lost && id in q.records
    ensures TaskOk(Apply(q, Ended(w, o)), x)
  {
    var id, u := q.loop[w].state.id, q.owner[x];
    var v, v' := ViewOf(q, u), ViewOf(Apply(q, Ended(w, o)), u);
    EndedView(q, w, o, u);
    if o.Fatal? {
      LostTask(v, v', q.records, q.order, q.completed, q.lost, u, id, x);
      assert q.records[id := q.records[id]] == q.records;
    } else {
      CompletedTask(v, v', q.records, q.order, q.completed, q.lost, q.max, u, id, EndRecord(q.records[id], o), x);
    }
  }

  lemma LastWithin(s: seq<Id>, n: nat, x: Id)
    requires x in Last(s, n)
    ensures x in s
  {
  }

  lemma EndedLoop(q: Q, w: nat, o: Outcome)
    requires LoopOk(q) && Enabled(q, Ended(w, o))
    ensures LoopOk(Apply(q, Ended(w, o)))
  {
    OwnWorker(q, w);
    var q' := Apply(q, Ended(w, o));
    assert q'.unfinished.Keys == q.unfinished.Keys;
    LoopKept(q, q', w, EndState(o));
  }

  lemma EndedDrained(q: Q, w: nat, o: Outcome, u: User)
    requires LoopOk(q) && Enabled(q, Ended(w, o)) && Drained(q, u)
    ensures Drained(Apply(q, Ended(w, o)), u)
  {
    EndedView(q, w, o, u);
  }

  lemma EndedPhase(q: Q, w: nat, o: Outcome)
    requires LoopOk(q) && PhaseOk(q) && Enabled(q, Ended(w, o))
    ensures PhaseOk(Apply(q, Ended(w, o)))
  {
    if q.phase in {Stopping, Closed} {
      forall u ensures Drained(Apply(q, Ended(w, o)), u) {
        EndedDrained(q, w, o, u);
      }
    }
  }

  lemma EndedHistory(q: Q, w: nat, o: Outcome)
    requires HistoryOk(q) && Enabled(q, Ended(w, o))
    requires var id := q.loop[w].state.id; id in q.owner && id !in q.completed
    ensures HistoryOk(Apply(q, Ended(w, o)))
  {
    Retention(q.completed, q.order, q.max, q.loop[w].state.id);
  }

  lemma EndedAccepted(q: Q, w: nat, o: Outcome, x: Id)
    requires Inv(q) && Enabled(q, Ended(w, o)) && x in Apply(q, Ended(w, o)).owner
    ensures TaskOk(Apply(q, Ended(w, o)), x)
  {
    RunningIsKnown(q, w, o);
    assert TaskOk(q, x);
    EndedTask(q, w, o, x);
  }

  lemma EndedKeeps(q: Q, w: nat, o: Outcome)
    requires Inv(q) && Enabled(q, Ended(w, o))
    ensures Inv(Apply(q, Ended(w, o)))
  {
    RunningIsKnown(q, w, o);
    EndedLoop(q, w, o);
    EndedPhase(q, w, o);
    EndedHistory(q, w, o);
    forall x | x in Apply(q, Ended(w, o)).owner ensures TaskOk(Apply(q, Ended(w, o)), x) {
      EndedAccepted(q, w, o, x);
    }
    forall u ensures ViewOk(ViewOf(Apply(q, Ended(w, o)), u)) {
      EndedUser(q, w, o, u);
    }
  }

  // ----------------------------------------------- cancellation of an idle worker, closing

  lemma IdleCancelledView(q: Q, w: nat, u: User)
    requires LoopOk(q) && Enabled(q, IdleCancelled(w))
    ensures var v, v' := ViewOf(q, u), ViewOf(Apply(q, IdleCancelled(w)), u);
      v' == v || (v.worker == Some(Idle) && v' == v.(worker := Some(Cancelled)))
  {
    assert q.loop[w].Live();
  }

  lemma CloseStoppedView(q: Q, u: User)
    requires LoopOk(q) && Enabled(q, CloseStopped)
    ensures var v, v' := ViewOf(q, u), ViewOf(Apply(q, CloseStopped), u);
      if u in q.queues then v' == v.(items := v.items + [Stop], unfinished := v.unfinished + 1) else v' == v
  {
  }

  lemma CloseReturnedView(q: Q, u: User)
    requires LoopOk(q) && Enabled(q, CloseReturned)
    ensures var v, v' := ViewOf(q, u), ViewOf(Apply(q, CloseReturned), u);
      && v' == v.(items := [], unfinished := 0, worker := None)
      && !v.IsBusy()
  {
  }

  /** Leaves a user's waiting and running tasks as they are. */
  predicate SamePlaces(v: View, v': View) {
    && v'.enqueued == v.enqueued && v'.started == v.started
    && TaskIds(v'.items) == TaskIds(v.items)
    && v'.IsBusy() == v.IsBusy() && (v.IsBusy() ==> v'.worker == v.worker)
  }

  lemma QuietTask(q: Q, q': Q, x: Id)
    requires x in q.owner && TaskOk(q, x)
    requires q'.owner == q.owner && q'.records == q.records && q'.order == q.order
    requires q'.completed == q.completed && q'.lost == q.lost
    requires SamePlaces(ViewOf(q, q.owner[x]), ViewOf(q', q.owner[x]))
    ensures TaskOk(q', x)
  {
    var v, v' := ViewOf(q, q.owner[x]), ViewOf(q', q.owner[x]);
    assert v'.Running(x) <==> v.Running(x);
  }

  lemma CloseStoppedUser(q: Q, u: User)
    requires LoopOk(q) && ViewOk(ViewOf(q, u)) && Enabled(q, CloseStopped)
    ensures SamePlaces(ViewOf(q, u), ViewOf(Apply(q, CloseStopped), u)) && ViewOk(ViewOf(Apply(q, CloseStopped), u))
  {
    CloseStoppedView(q, u);
    TaskIdsAppend(ViewOf(q, u).items, Stop);
    assert TaskIds(ViewOf(q, u).items) + [] == TaskIds(ViewOf(q, u).items);
  }

  lemma CloseReturnedUser(q: Q, u: User)
    requires LoopOk(q) && PhaseOk(q) && ViewOk(ViewOf(q, u)) && Enabled(q, CloseReturned)
    ensures SamePlaces(ViewOf(q, u), ViewOf(Apply(q, CloseReturned), u)) && ViewOk(ViewOf(Apply(q, CloseReturned), u))
  {
    CloseReturnedView(q, u);
    assert Drained(q, u);
  }

  lemma QuietUser(q: Q, e: Event, u: User)
    requires LoopOk(q) && PhaseOk(q) && ViewOk(ViewOf(q, u)) && Enabled(q, e)
    requires e.IdleCancelled? || e.CloseBegan? || e.CloseStopped? || e.CloseReturned?
    ensures SamePlaces(ViewOf(q, u), ViewOf(Apply(q, e), u)) && ViewOk(ViewOf(Apply(q, e), u))
  {
    match e
    case IdleCancelled(w) => IdleCancelledView(q, w, u);
    case CloseStopped => CloseStoppedUser(q, u);
    case CloseReturned => CloseReturnedUser(q, u);
    case CloseBegan => assert ViewOf(Apply(q, e), u) == ViewOf(q, u);
  }

  lemma QuietLoop(q: Q, e: Event)
    requires LoopOk(q) && Enabled(q, e)
    requires e.IdleCancelled? || e.CloseBegan? || e.CloseStopped? || e.CloseReturned?
    ensures LoopOk(Apply(q, e))
  {
    match e
    case IdleCancelled(w) =>
      assert q.loop[w].Live();
      RegisteredKept(q.workers, q.loop, w, Cancelled);
    case CloseReturned =>
      assert forall u :: u in q.workers ==> !q.loop[q.workers[u]].Live();
    case _ =>
  }

  lemma QuietDrained(q: Q, e: Event, u: User)
    requires LoopOk(q) && PhaseOk(q) && Enabled(q, e) && ViewOk(ViewOf(q, u))
    requires e.IdleCancelled? || e.CloseBegan? || e.CloseStopped? || e.CloseReturned?
    ensures Apply(q, e).phase in {Stopping, Closed} ==> Drained(Apply(q, e), u)
  {
    QuietUser(q, e, u);
    if e.CloseStopped? && u in q.queues {
      assert Count(q.unfinished, u) == 0;
    }
    if q.phase in {Stopping, Closed} {
      assert Drained(q, u);
    }
  }

  lemma QuietPhase(q: Q, e: Event)
    requires LoopOk(q) && PhaseOk(q) && Enabled(q, e) && forall u :: ViewOk(ViewOf(q, u))
    requires e.IdleCancelled? || e.CloseBegan? || e.CloseStopped? || e.CloseReturned?
    ensures PhaseOk(Apply(q, e))
  {
    if Apply(q, e).phase in {Stopping, Closed} {
      forall u ensures Drained(Apply(q, e), u) {
        assert ViewOk(ViewOf(q, u));
        QuietDrained(q, e, u);
      }
    }
  }

  lemma QuietAccepted(q: Q, e: Event, x: Id)
    requires Inv(q) && Enabled(q, e) && x in Apply(q, e).owner
    requires e.IdleCancelled? || e.CloseBegan? || e.CloseStopped? || e.CloseReturned?
    ensures TaskOk(Apply(q, e), x)
  {
    assert TaskOk(q, x) && ViewOk(ViewOf(q, q.owner[x]));
    QuietUser(q, e, q.owner[x]);
    QuietTask(q, Apply(q, e), x);
  }

  lemma QuietKeeps(q: Q, e: Event)
    requires Inv(q) && Enabled(q, e)
    requires e.IdleCancelled? || e.CloseBegan? || e.CloseStopped? || e.CloseReturned?
    ensures Inv(Apply(q, e))
  {
    QuietLoop(q, e);
    QuietPhase(q, e);
    assert HistoryOk(Apply(q, e));
    forall u ensures ViewOk(ViewOf(Apply(q, e), u)) {
      assert ViewOk(ViewOf(q, u));
      QuietUser(q, e, u);
    }
    forall x | x in Apply(q, e).owner ensures TaskOk(Apply(q, e), x) {
      QuietAccepted(q, e, x);
    }
  }

  lemma StepKeeps(q: Q, e: Event)
    requires Inv(q) && Enabled(q, e)
    ensures Inv(Apply(q, e))
  {
    match e
    case Enqueued(_, _, _, _) => EnqueuedKeeps(q, e);
    case Took(w) => TookKeeps(q, w);
    case Ended(w, o) => EndedKeeps(q, w, o);
    case _ => QuietKeeps(q, e);
  }

  // ------------------------------------------------------------------------ theorems

  lemma {:induction false} EveryInterleaving(qs: seq<Q>, n: nat, max: nat)
    requires Run(qs) && qs[0] == Initial(max) && n < |qs|
    ensures Inv(qs[n])
    decreases n
  {
    if n > 0 {
      EveryInterleaving(qs, n - 1, max);
      assert Linked(qs, n - 1);
      var e :| Enabled(qs[n - 1], e) && qs[n] == Apply(qs[n - 1], e);
      StepKeeps(qs[n - 1], e);
    }
  }

  /** Each user has at most one live worker, hence at most one running task. */
  lemma OneLiveWorkerPerUser(q: Q, w: nat, w': nat)
    requires Inv(q) && w in q.loop && w' in q.loop && q.loop[w].user == q.loop[w'].user
    requires q.loop[w].Live() && q.loop[w'].Live()
    ensures w == w'
  {
  }

  /** A user's tasks start in exactly the order they were accepted, none skipped or repeated. */
  lemma StartedInOrder(q: Q, u: User)
    requires Inv(q)
    ensures Get(q.started, u) <= Get(q.enqueued, u)
    ensures Distinct(Get(q.enqueued, u))
  {
    assert ViewOk(ViewOf(q, u));
  }

  lemma EarlierHaveStarted(v: View, id: Id, i: nat, j: nat)
    requires ViewOk(v) && v.worker == Some(Idle) && v.items != [] && v.items[0] == Task(id)
    requires i < j < |v.enqueued| && v.enqueued[j] == id
    ensures !v.Waiting(v.enqueued[i]) && !v.Running(v.enqueued[i])
  {
    var ids := TaskIds(v.items);
    assert ids[0] == id && v.enqueued[|v.started|] == id;
    forall k | 0 <= k < |ids| ensures ids[k] != v.enqueued[i] {
      assert v.enqueued[|v.started| + k] == ids[k];
    }
  }

  lemma PlaceOf(q: Q, u: User, i: nat)
    requires Inv(q) && i < |Get(q.enqueued, u)|
    ensures var id := Get(q.enqueued, u)[i];
      ViewOf(q, u).Waiting(id) || ViewOf(q, u).Running(id) || id in q.completed || id in q.lost
  {
    assert Get(q.enqueued, u)[i] in Get(q.enqueued, u);
    assert TaskOk(q, Get(q.enqueued, u)[i]);
  }

  lemma HeadView(q: Q, w: nat)
    requires Inv(q) && Enabled(q, Took(w))
    ensures var v := ViewOf(q, q.loop[w].user);
      ViewOk(v) && v.worker == Some(Idle) && v.items == q.queues[q.loop[w].user] && v.items != []
  {
    TookView(q, w, q.loop[w].user);
  }

  /** When a worker takes a task, every task its user enqueued before has ended. */
  lemma StartsAfterPredecessors(q: Q, w: nat, i: nat, j: nat)
    requires Inv(q) && Enabled(q, Took(w))
    requires i < j < |Get(q.enqueued, q.loop[w].user)|
    requires q.queues[q.loop[w].user][0] == Task(Get(q.enqueued, q.loop[w].user)[j])
    ensures var before := Get(q.enqueued, q.loop[w].user)[i]; before in q.completed || before in q.lost
  {
    HeadView(q, w);
    PlaceOf(q, q.loop[w].user, i);
    EarlierHaveStarted(ViewOf(q, q.loop[w].user), Get(q.enqueued, q.loop[w].user)[j], i, j);
  }

  /** The record table holds exactly the tasks that wait, run or were lost, and the retained ones,
      which are the last `max` completions; the four kinds never overlap. */
  lemma RecordTable(q: Q, id: Id)
    requires Inv(q) && id in q.owner
    ensures var v := ViewOf(q, q.owner[id]);
      && (id in q.records <==> v.Waiting(id) || v.Running(id) || id in q.lost || id in q.order)
      && q.order == Last(q.completed, q.max)
      && (v.Waiting(id) ==> !v.Running(id) && id !in q.lost && id !in q.order)
      && (v.Running(id) ==> id !in q.lost && id !in q.order)
      && (id in q.lost ==> id !in q.order)
  {
    assert TaskOk(q, id);
    if id in q.order {
      LastWithin(q.completed, q.max, id);
    }
  }

  /** The task was completed or lost, and its record, if it still has one, says which. */
  predicate IsOver(q: Q, id: Id) {
    && (id in q.completed || id in q.lost)
    && (id in q.lost <==> id in q.records && q.records[id].status == Running)
    && (id in q.records ==> q.records[id].status != Queued)
  }

  lemma ClosedTask(q: Q, id: Id)
    requires Inv(q) && Enabled(q, CloseReturned) && id in q.owner
    ensures IsOver(q, id)
  {
    InvTask(q, id);
    CloseReturnedView(q, q.owner[id]);
    assert Drained(q, q.owner[id]);
  }

  /** When close returns normally every accepted task has ended, and all remaining records are
      terminal exactly when no worker ever died of a fatal exception. */
  lemma CloseDrains(q: Q)
    requires Inv(q) && Enabled(q, CloseReturned)
    ensures forall id :: id in q.owner ==> id in q.completed || id in q.lost
    ensures (forall id :: id in q.records ==> q.records[id].status in {Succeeded, Failed}) <==> q.lost == {}
  {
    forall id | id in q.owner ensures IsOver(q, id) {
      ClosedTask(q, id);
    }
    forall id | id in q.lost ensures id in q.records && q.records[id].status == Running {
      assert id in q.owner && IsOver(q, id);
    }
  }

  /** A worker killed with items behind it blocks close for good: once accepting has stopped, no
      event revives the worker or empties that queue. */
  predicate Abandoned(q: Q, u: User) {
    && q.phase == Draining && u in q.queues && q.queues[u] != []
    && u in q.workers && q.workers[u] in q.loop && !q.loop[q.workers[u]].Live()
  }

  lemma NotTheWorker(q: Q, u: User, w: nat)
    requires LoopOk(q) && Abandoned(q, u) && w in q.loop && q.loop[w].Live()
    ensures q.loop[w].user != u && w != q.workers[u]
  {
    OwnWorker(q, w);
  }

  /** Only the user's own worker could take from the queue or come to life again. */
  /** Only the user's own worker could take from the queue or come to life again. */
  lemma AbandonedByTaking(q: Q, u: User, w: nat)
    requires Abandoned(q, u) && Enabled(q, Took(w)) && q.loop[w].user != u && w != q.workers[u]
    ensures Abandoned(Apply(q, Took(w)), u)
  {
    if q.queues[q.loop[w].user][0].Stop? {
      TookOthersStop(q, w, u);
    } else {
      TookOthersTask(q, w, u);
    }
  }

  lemma AbandonedByEnding(q: Q, u: User, w: nat, o: Outcome)
    requires Abandoned(q, u) && Enabled(q, Ended(w, o)) && q.loop[w].user != u && w != q.workers[u]
    ensures Abandoned(Apply(q, Ended(w, o)), u)
  {
  }

  lemma AbandonedByCancelling(q: Q, u: User, w: nat)
    requires Abandoned(q, u) && Enabled(q, IdleCancelled(w)) && q.loop[w].user != u && w != q.workers[u]
    ensures Abandoned(Apply(q, IdleCancelled(w)), u)
  {
  }

  lemma AbandonedStep(q: Q, u: User, e: Event)
    requires Inv(q) && Abandoned(q, u) && Enabled(q, e)
    ensures Abandoned(Apply(q, e), u) && !e.CloseStopped?
  {
    assert ViewOk(ViewOf(q, u));
    if e.Took? || e.Ended? || e.IdleCancelled? {
      NotTheWorker(q, u, e.w);
    }
    match e
    case Took(w) => AbandonedByTaking(q, u, w);
    case Ended(w, o) => AbandonedByEnding(q, u, w, o);
    case IdleCancelled(w) => AbandonedByCancelling(q, u, w);
    case _ =>
  }

  /** Whatever happens afterwards, that queue stays abandoned and close stays where it is. */
  lemma {:induction false} AbandonedForever(qs: seq<Q>, max: nat, u: User, i: nat, j: nat)
    requires Run(qs) && qs[0] == Initial(max) && i <= j < |qs| && Abandoned(qs[i], u)
    ensures Abandoned(qs[j], u) && qs[j].phase == Draining && qs[j].queues[u] != []
    decreases j
  {
    if i < j {
      AbandonedForever(qs, max, u, i, j - 1);
      EveryInterleaving(qs, j - 1, max);
      assert Linked(qs, j - 1);
      var e :| Enabled(qs[j - 1], e) && qs[j] == Apply(qs[j - 1], e);
      AbandonedStep(qs[j - 1], u, e);
    }
  }

  lemma Extended(qs: seq<Q>, e: Event)
    requires Run(qs) && Enabled(qs[|qs| - 1], e)
    ensures Run(qs + [Apply(qs[|qs| - 1], e)])
  {
    var longer := qs + [Apply(qs[|qs| - 1], e)];
    forall i ensures Linked(longer, i) {
      assert Linked(qs, i);
    }
  }

  lemma FirstRun() returns (qs: seq<Q>)
    ensures Run(qs) && qs[0] == Initial(1)
    ensures var q := qs[|qs| - 1];
      && q.queues == map["u" := [Task("a")]] && q.unfinished == map["u" := 1] && q.workers == map["u" := 0]
      && q.loop == map[0 := Coroutine("u", Idle)] && q.accepting && q.phase == Open && q.max == 1
      && q.records == map["a" := Record("u", "save", Queued, None)] && q.order == []
      && q.owner == map["a" := "u"]
  {
    qs := [Initial(1)];
    forall i ensures Linked(qs, i) {
    }
    Extended(qs, Enqueued("u", "save", "a", 0));
    assert Get(qs[|qs| - 1].queues, "u") + [Task("a")] == [Task("a")];
    qs := qs + [Apply(qs[|qs| - 1], Enqueued("u", "save", "a", 0))];
  }

  lemma RunningRun() returns (qs: seq<Q>)
    ensures Run(qs) && qs[0] == Initial(1)
    ensures var q := qs[|qs| - 1];
      && q.queues == map["u" := []] && q.unfinished == map["u" := 1] && q.workers == map["u" := 0]
      && q.loop == map[0 := Coroutine("u", Busy("a"))] && q.accepting && q.phase == Open && q.max == 1
      && q.records == map["a" := Record("u", "save", Running, None)] && q.order == []
      && q.owner == map["a" := "u"]
  {
    qs := FirstRun();
    Extended(qs, Took(0));
    qs := qs + [Apply(qs[|qs| - 1], Took(0))];
  }

  lemma LostRun() returns (qs: seq<Q>)
    ensures Run(qs) && qs[0] == Initial(1)
    ensures var q := qs[|qs| - 1];
      && q.queues == map["u" := []] && q.unfinished == map["u" := 0] && q.workers == map["u" := 0]
      && q.loop == map[0 := Coroutine("u", Crashed)] && q.accepting && q.phase == Open && q.max == 1
      && q.records == map["a" := Record("u", "save", Running, None)] && q.order == []
      && q.owner == map["a" := "u"]
  {
    qs := RunningRun();
    Extended(qs, Ended(0, Fatal));
    qs := qs + [Apply(qs[|qs| - 1], Ended(0, Fatal))];
  }

  lemma TakenRun() returns (qs: seq<Q>)
    ensures Run(qs) && qs[0] == Initial(1)
    ensures var q := qs[|qs| - 1];
      && q.queues == map["u" := []] && q.unfinished == map["u" := 1] && q.workers == map["u" := 1]
      && q.loop == map[0 := Coroutine("u", Crashed), 1 := Coroutine("u", Busy("b"))] && q.phase == Open
      && "a" in q.records && q.records["a"].status == Running && q.order == [] && q.max == 1
  {
    qs := LostRun();
    Extended(qs, Enqueued("u", "save", "b", 1));
    qs := qs + [Apply(qs[|qs| - 1], Enqueued("u", "save", "b", 1))];
    Extended(qs, Took(1));
    qs := qs + [Apply(qs[|qs| - 1], Took(1))];
  }

  lemma ReplacedRun() returns (qs: seq<Q>)
    ensures Run(qs) && qs[0] == Initial(1)
    ensures var q := qs[|qs| - 1];
      && q.queues == map["u" := []] && q.unfinished == map["u" := 0] && q.workers == map["u" := 1]
      && q.loop == map[0 := Coroutine("u", Crashed), 1 := Coroutine("u", Idle)] && q.phase == Open
      && "a" in q.records && q.records["a"].status == Running
  {
    qs := TakenRun();
    Extended(qs, Ended(1, Succeeds));
    qs := qs + [Apply(qs[|qs| - 1], Ended(1, Succeeds))];
  }

  lemma StoppingRun() returns (qs: seq<Q>)
    ensures Run(qs) && qs[0] == Initial(1)
    ensures var q := qs[|qs| - 1];
      && q.queues == map["u" := [Stop]] && q.workers == map["u" := 1] && q.phase == Stopping
      && q.loop == map[0 := Coroutine("u", Crashed), 1 := Coroutine("u", Idle)]
      && "a" in q.records && q.records["a"].status == Running
  {
    qs := ReplacedRun();
    Extended(qs, CloseBegan);
    qs := qs + [Apply(qs[|qs| - 1], CloseBegan)];
    Extended(qs, CloseStopped);
    assert qs[|qs| - 1].queues["u"] + [Stop] == [Stop];
    qs := qs + [Apply(qs[|qs| - 1], CloseStopped)];
  }

  /** A worker died of a fatal exception, a later enqueue replaced it, and close returned normally
      although that first task's record still says running. */
  lemma CloseMayLeaveARunningRecord() returns (qs: seq<Q>)
    ensures Run(qs) && qs[0] == Initial(1)
    ensures var q := qs[|qs| - 1];
      q.phase == Closed && "a" in q.records && q.records["a"].status == Running
  {
    qs := StoppingRun();
    Extended(qs, Took(1));
    qs := qs + [Apply(qs[|qs| - 1], Took(1))];
    Extended(qs, CloseReturned);
    qs := qs + [Apply(qs[|qs| - 1], CloseReturned)];
  }
}
