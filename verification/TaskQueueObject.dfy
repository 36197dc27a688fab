/** InMemoryTaskQueue: the object whose fields the coroutines share.  Its methods are the
    stretches of code between suspension points; `Model` is the state the theorems are about. */
module TaskQueueObject {
  import opened Ordering
  import opened TaskOutcomes
  import opened TaskQueue

  class InMemoryTaskQueue {
    var records: map<Id, Record>
    var completedOrder: seq<Id>
    var queues: map<User, seq<Item>>
    var unfinished: map<User, nat>
    var workers: map<User, nat>
    var accepting: bool
    var phase: Phase
    const maxCompletedRecords: nat
    // the event loop's coroutines, and the history
    var coroutines: map<nat, Coroutine>
    ghost var owner: map<Id, User>
    ghost var enqueued: map<User, seq<Id>>
    ghost var started: map<User, seq<Id>>
    ghost var completed: seq<Id>
    ghost var lost: set<Id>

    ghost function Model(): Q
      reads this
    {
      Q(records, completedOrder, queues, unfinished, workers, accepting, phase, maxCompletedRecords,
        coroutines, owner, enqueued, started, completed, lost)
    }

    ghost predicate Valid()
      reads this
    {
      Inv(Model()) && Plain(Model())
    }

    constructor (max: nat)
      requires max > 0
      ensures Valid() && Model() == Initial(max)
    {
      records, completedOrder, queues, unfinished, workers := map[], [], map[], map[], map[];
      accepting, phase, maxCompletedRecords, coroutines := true, Open, max, map[];
      owner, enqueued, started, completed, lost := map[], map[], map[], [], {};
      new;
      forall u ensures ViewOk(ViewOf(Initial(max), u)) {
      }
    }

    method StartWorker(user: User, spawn: nat) returns (needed: bool)
      requires user in workers ==> workers[user] in coroutines
      modifies this`workers, this`coroutines
      ensures needed == NeedsWorker(old(Model()), user)
      ensures workers == if needed then old(workers)[user := spawn] else old(workers)
      ensures coroutines == if needed then old(coroutines)[spawn := Coroutine(user, Idle)] else old(coroutines)
    {
      needed := user !in workers || !coroutines[workers[user]].Live();
      if needed {
        workers := workers[user := spawn];
        coroutines := coroutines[spawn := Coroutine(user, Idle)];
      }
    }

    method Put(user: User, operation: string, taskId: Id)
      requires queues.Keys == unfinished.Keys
      modifies this`records, this`queues, this`unfinished, this`owner, this`enqueued
      ensures records == old(records)[taskId := Record(user, operation, Queued, None)]
      ensures queues == old(queues)[user := Get(old(queues), user) + [Task(taskId)]]
      ensures unfinished == old(unfinished)[user := Count(old(unfinished), user) + 1]
      ensures owner == old(owner)[taskId := user]
      ensures enqueued == old(enqueued)[user := Get(old(enqueued), user) + [taskId]]
    {
      records := records[taskId := Record(user, operation, Queued, None)];
      queues := queues[user := (if user in queues then queues[user] else []) + [Task(taskId)]];
      unfinished := unfinished[user := (if user in unfinished then unfinished[user] else 0) + 1];
      owner := owner[taskId := user];
      enqueued := enqueued[user := Get(enqueued, user) + [taskId]];
    }

    method Accept(user: User, operation: string, taskId: Id, spawn: nat)
      requires queues.Keys == unfinished.Keys && (user in workers ==> workers[user] in coroutines)
      modifies this
      ensures Model() == ApplyEnqueued(old(Model()), user, operation, taskId, spawn)
    {
      ghost var q := Model();
      var needed := StartWorker(user, spawn);
      assert Model() == q.(workers := workers, loop := coroutines);
      Put(user, operation, taskId);
    }

    /** Fresh task ids and coroutine handles come from outside. */
    method Enqueue(user: User, operation: string, taskId: Id, spawn: nat) returns (r: Option<Id>)
      requires Valid() && taskId !in owner && spawn !in coroutines
      modifies this
      ensures Valid()
      ensures !old(accepting) ==> r == None && Model() == old(Model())
      ensures old(accepting) ==>
        r == Some(taskId) && Model() == Apply(old(Model()), Enqueued(user, operation, taskId, spawn))
    {
      if !accepting {
        return None;
      }
      StepKeepsAll(Model(), Enqueued(user, operation, taskId, spawn));
      Accept(user, operation, taskId, spawn);
      return Some(taskId);
    }

    method TakeStop(w: nat)
      requires Enabled(Model(), Took(w)) && coroutines[w].user in unfinished && queues[coroutines[w].user][0].Stop?
      modifies this`queues, this`coroutines, this`unfinished
      ensures Model() == Apply(old(Model()), Took(w))
    {
      var user := coroutines[w].user;
      queues := queues[user := queues[user][1..]];
      coroutines := coroutines[w := Coroutine(user, Returned)];
      unfinished := unfinished[user := Less1(unfinished[user])];
    }

    method StartTask(w: nat, user: User, id: Id)
      requires id in records
      modifies this`coroutines, this`records, this`started
      ensures records == old(records)[id := old(records)[id].(status := Running)]
      ensures coroutines == old(coroutines)[w := Coroutine(user, Busy(id))]
      ensures started == old(started)[user := Get(old(started), user) + [id]]
    {
      records := records[id := records[id].(status := Running)];
      coroutines := coroutines[w := Coroutine(user, Busy(id))];
      started := started[user := Get(started, user) + [id]];
    }

    method TakeTask(w: nat)
      requires Enabled(Model(), Took(w)) && queues[coroutines[w].user][0].Task?
      requires queues[coroutines[w].user][0].id in records
      modifies this`queues, this`coroutines, this`records, this`started
      ensures Model() == Apply(old(Model()), Took(w))
    {
      var user := coroutines[w].user;
      var id := queues[user][0].id;
      queues := queues[user := queues[user][1..]];
      StartTask(w, user, id);
    }

    /** `await queue.get()` returned: stop, or mark a record running and call its work. */
    method WorkerTakes(w: nat)
      requires Valid() && Enabled(Model(), Took(w))
      modifies this
      ensures Valid() && Model() == Apply(old(Model()), Took(w))
    {
      OwnWorker(Model(), w);
      StepKeepsAll(Model(), Took(w));
      if queues[coroutines[w].user][0].Stop? {
        TakeStop(w);
      } else {
        LookupSucceeds(Model(), w);
        TakeTask(w);
      }
    }

    /** The bounded history: append, then forget the oldest until it fits. */
    method RetainCompleted(id: Id)
      modifies this`completedOrder, this`records
      ensures completedOrder == Last(old(completedOrder) + [id], maxCompletedRecords)
      ensures records == old(records) - Dropped(old(completedOrder) + [id], maxCompletedRecords)
    {
      ghost var all := completedOrder + [id];
      completedOrder := completedOrder + [id];
      ghost var popped := 0;
      while |completedOrder| > maxCompletedRecords
        invariant popped <= |all| && completedOrder == all[popped..]
        invariant popped == 0 || |all| - popped >= maxCompletedRecords
        invariant records == old(records) - Elements(all[..popped])
      {
        var expired := completedOrder[0];
        completedOrder := completedOrder[1..];
        records := records - {expired};
        assert all[..popped + 1] == all[..popped] + [expired];
        assert Elements(all[..popped + 1]) == Elements(all[..popped]) + {expired};
        popped := popped + 1;
      }
    }

    /** The record's final status; a fatal exception leaves it running. */
    method Settle(id: Id, outcome: Outcome)
      requires id in records && records[id].status == Running
      modifies this`records
      ensures records == old(records)[id := EndRecord(old(records)[id], outcome)]
    {
      match outcome {
        case IsCancelled =>
          records := records[id := records[id].(status := Failed, errorCode := Some("TASK_CANCELLED"))];
        case Raises =>
          records := records[id := records[id].(status := Failed, errorCode := Some("TASK_FAILED"))];
        case Succeeds =>
          records := records[id := records[id].(status := Succeeded)];
        case Fatal =>
          assert records == records[id := records[id]];
      }
    }

    /** A terminal record enters the bounded history; another's task is lost. */
    method Retire(id: Id)
      requires id in records
      modifies this`completedOrder, this`records, this`completed, this`lost
      ensures var kept := old(records)[id].status in {Succeeded, Failed};
        && completedOrder == (if kept then Last(old(completedOrder) + [id], maxCompletedRecords) else old(completedOrder))
        && records == (if kept then old(records) - Dropped(old(completedOrder) + [id], maxCompletedRecords) else old(records))
        && completed == (if kept then old(completed) + [id] else old(completed))
        && lost == (if kept then old(lost) else old(lost) + {id})
    {
      if records[id].status in {Succeeded, Failed} {
        RetainCompleted(id);
        completed := completed + [id];
      } else {
        lost := lost + {id};
      }
    }

    method Finish(id: Id, outcome: Outcome)
      requires id in records && records[id].status == Running
      modifies this`records, this`completedOrder, this`completed, this`lost
      ensures lost == (if outcome.Fatal? then old(lost) + {id} else old(lost))
      ensures completed == (if outcome.Fatal? then old(completed) else old(completed) + [id])
      ensures completedOrder ==
        (if outcome.Fatal? then old(completedOrder) else Last(old(completedOrder) + [id], maxCompletedRecords))
      ensures records == old(records)[id := EndRecord(old(records)[id], outcome)]
        - (if outcome.Fatal? then {} else Dropped(old(completedOrder) + [id], maxCompletedRecords))
    {
      Settle(id, outcome);
      Retire(id);
    }

    /** The finally block around the work, and what is left of the worker. */
    method Leave(w: nat, user: User, outcome: Outcome)
      requires user in unfinished
      modifies this`unfinished, this`coroutines
      ensures unfinished == old(unfinished)[user := Less1(old(unfinished)[user])]
      ensures coroutines == old(coroutines)[w := Coroutine(user, EndState(outcome))]
    {
      unfinished := unfinished[user := Less1(unfinished[user])];
      coroutines := coroutines[w := Coroutine(user, EndState(outcome))];
    }

    method End(w: nat, outcome: Outcome)
      requires Enabled(Model(), Ended(w, outcome)) && coroutines[w].user in unfinished
      requires coroutines[w].state.id in records && records[coroutines[w].state.id].status == Running
      modifies this`records, this`completedOrder, this`completed, this`lost, this`unfinished, this`coroutines
      ensures Model() == Apply(old(Model()), Ended(w, outcome))
    {
      var user, id := coroutines[w].user, coroutines[w].state.id;
      ghost var q := Model();
      Finish(id, outcome);
      assert Model() == q.(records := records, order := completedOrder, completed := completed, lost := lost);
      Leave(w, user, outcome);
    }

    /** `await work` finished, one way or another, and the finally blocks ran. */
    method WorkerEnds(w: nat, outcome: Outcome)
      requires Valid() && Enabled(Model(), Ended(w, outcome))
      modifies this
      ensures Valid() && Model() == Apply(old(Model()), Ended(w, outcome))
      // Unless it is evicted at once, the record says how the work ended.
      ensures var id := old(coroutines[w].state.id); id in records ==>
        && (records[id].status == Succeeded <==> outcome == Succeeds) && (records[id].status == Running <==> outcome == Fatal)
        && records[id].errorCode == (if outcome == Raises then Some("TASK_FAILED")
                                     else if outcome == IsCancelled then Some("TASK_CANCELLED") else None)
      ensures coroutines[w].Live() <==> outcome in {Succeeds, Raises}
    {
      WorkerLivesOn(Model(), w, outcome);
      assert PlainAt(Model(), coroutines[w].state.id);
      EndedRecord(Model(), w, outcome);
      RunningRecord(Model(), w, outcome);
      assert coroutines[w].Live();
      StepKeepsAll(Model(), Ended(w, outcome));
      End(w, outcome);
    }

    /** A cancellation delivered while the worker awaits its queue. */
    method WorkerCancelled(w: nat)
      requires Valid() && Enabled(Model(), IdleCancelled(w))
      modifies this
      ensures Valid() && Model() == Apply(old(Model()), IdleCancelled(w))
    {
      ghost var before := Model();
      coroutines := coroutines[w := coroutines[w].(state := Cancelled)];
      StepKeepsAll(before, IdleCancelled(w));
    }

    /** A snapshot is returned exactly for a recorded task of that user. */
    method GetTask(taskId: Id, user: User) returns (r: Option<Record>)
      requires Valid()
      ensures r.Some? <==> taskId in owner && owner[taskId] == user && (taskId in completed ==> taskId in completedOrder)
      ensures r.Some? ==> r.value == records[taskId]
    {
      assert taskId in owner ==> TaskOk(Model(), taskId);
      return if taskId in records && records[taskId].user == user then Some(records[taskId]) else None;
    }

    method CloseBegins()
      requires Valid() && phase == Open
      modifies this
      ensures Valid() && Model() == Apply(old(Model()), CloseBegan)
    {
      ghost var before := Model();
      accepting, phase := false, Draining;
      StepKeepsAll(before, CloseBegan);
    }

    method PutStop(u: User)
      requires u in queues && u in unfinished
      modifies this`queues, this`unfinished
      ensures queues == old(queues)[u := old(queues)[u] + [Stop]]
      ensures unfinished == old(unfinished)[u := old(unfinished)[u] + 1]
    {
      queues := queues[u := queues[u] + [Stop]];
      unfinished := unfinished[u := unfinished[u] + 1];
    }

    method TellOne(u: User, users: set<User>, ghost q: map<User, seq<Item>>, ghost n: map<User, nat>)
      requires users <= q.Keys && q.Keys == n.Keys && Told(q, queues, n, unfinished, users) && u in users
      modifies this`queues, this`unfinished
      ensures Told(q, queues, n, unfinished, users - {u})
    {
      ToldNext(q, queues, n, unfinished, users, u);
      PutStop(u);
    }

    method PutStops()
      requires queues.Keys == unfinished.Keys
      modifies this`queues, this`unfinished
      ensures queues == map u | u in old(queues) :: old(queues)[u] + [Stop]
      ensures unfinished == map u | u in old(unfinished) :: old(unfinished)[u] + 1
    {
      ghost var q, n := queues, unfinished;
      var users := queues.Keys;
      while users != {}
        invariant users <= q.Keys && q.Keys == n.Keys && Told(q, queues, n, unfinished, users)
        decreases |users|
      {
        var u :| u in users;
        TellOne(u, users, q, n);
        users := users - {u};
      }
      ToldAll(q, queues, n, unfinished);
    }

    method DrainAndStop()
      requires queues.Keys == unfinished.Keys
      modifies this
      ensures Model() == old(Model()).(
        queues := map u | u in old(queues) :: old(queues)[u] + [Stop],
        unfinished := map u | u in old(unfinished) :: old(unfinished)[u] + 1,
        phase := Stopping)
    {
      PutStops();
      phase := Stopping;
    }

    /** Every queue's join returned: ask each worker to stop. */
    method CloseStops()
      requires Valid() && Enabled(Model(), CloseStopped)
      modifies this
      ensures Valid() && Model() == Apply(old(Model()), CloseStopped)
    {
      StoppedShape(Model());
      StepKeepsAll(Model(), CloseStopped);
      DrainAndStop();
    }

    method Clear()
      requires Enabled(Model(), CloseReturned)
      modifies this`queues, this`unfinished, this`workers, this`phase
      ensures Model() == Apply(old(Model()), CloseReturned)
    {
      queues, unfinished, workers, phase := map[], map[], map[], Closed;
    }

    /** Every worker returned normally: close is done. */
    method CloseReturns()
      requires Valid() && Enabled(Model(), CloseReturned)
      modifies this
      ensures Valid() && Model() == Apply(old(Model()), CloseReturned)
      ensures forall id :: id in owner ==> id in completed || id in lost
    {
      CloseDrains(Model());
      StepKeepsAll(Model(), CloseReturned);
      Clear();
    }
  }

  lemma StoppedShape(q: Q)
    requires LoopOk(q) && Enabled(q, CloseStopped)
    ensures Apply(q, CloseStopped) == q.(
      queues := map u | u in q.queues :: q.queues[u] + [Stop],
      unfinished := map u | u in q.unfinished :: q.unfinished[u] + 1,
      phase := Stopping)
  {
  }

  /** All but these users' queues have been told to stop. */
  ghost predicate Told(q: map<User, seq<Item>>, q': map<User, seq<Item>>, n: map<User, nat>, n': map<User, nat>, users: set<User>) {
    && q'.Keys == q.Keys && n'.Keys == n.Keys
    && (forall u :: u in q' ==> q'[u] == if u in users then q[u] else q[u] + [Stop])
    && (forall u :: u in n' ==> n'[u] == if u in users then n[u] else n[u] + 1)
  }

  lemma ToldNext(q: map<User, seq<Item>>, q': map<User, seq<Item>>, n: map<User, nat>, n': map<User, nat>, users: set<User>, u: User)
    requires q.Keys == n.Keys && users <= q.Keys && Told(q, q', n, n', users) && u in users
    ensures Told(q, q'[u := q'[u] + [Stop]], n, n'[u := n'[u] + 1], users - {u})
  {
  }

  lemma ToldAll(q: map<User, seq<Item>>, q': map<User, seq<Item>>, n: map<User, nat>, n': map<User, nat>)
    requires Told(q, q', n, n', {})
    ensures q' == map u | u in q :: q[u] + [Stop]
    ensures n' == map u | u in n :: n[u] + 1
  {
  }
}
