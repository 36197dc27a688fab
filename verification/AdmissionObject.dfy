/** The bridge's job path: the pending flag, the lock descriptor, and the times that are reported. */
module AdmissionObject {
  import opened Ordering
  import A = Admission

  class Bridge {
    var pending: set<A.Process>
    var jobs: map<A.Job, A.JobState>
    var descriptions: map<A.Job, A.Description>

    ghost function Model(): A.Host
      reads this
    {
      A.Host(pending, jobs, descriptions)
    }

    ghost predicate Valid()
      reads this
    {
      A.Inv(Model())
    }

    constructor ()
      ensures Valid() && Model() == A.EMPTY
    {
      pending, jobs, descriptions := {}, map[], map[];
      new;
      A.EmptyOk();
    }

    /** The section under the job lock, and the executor's answer. */
    method SubmitLocalEvaluation(launcher: A.Process, job: A.Job, executorAccepts: bool) returns (accepted: bool)
      requires Valid() && job !in jobs && job !in descriptions
      modifies this
      ensures Valid() && (accepted <==> launcher !in old(pending) && executorAccepts)
      ensures launcher in old(pending) ==> Model() == old(Model())
      ensures accepted ==> Model() == A.Apply(old(Model()), A.Submit(launcher, job))
      ensures launcher !in old(pending) && !executorAccepts ==> pending == old(pending) && descriptions == old(descriptions)
    {
      if launcher in pending {
        return false;
      }
      A.StepKeeps(Model(), A.Submit(launcher, job));
      pending := pending + {launcher};
      jobs := jobs[job := A.JobState(launcher, A.Queued, 0)];
      if !executorAccepts {
        A.StepKeeps(Model(), A.Abandon(job));
        ghost var before := Model();
        pending := pending - {launcher};
        jobs := jobs[job := A.JobState(launcher, A.Done, 1)];
        assert Model() == A.Apply(before, A.Abandon(job));
        return false;
      }
      accepted := true;
    }

    method OpenLock(job: A.Job)
      requires Valid() && A.InPhase(Model(), job, A.Queued)
      modifies this
      ensures Valid() && Model() == A.Apply(old(Model()), A.Open(job))
    {
      A.StepKeeps(Model(), A.Open(job));
      descriptions := descriptions[job := A.Description({jobs[job].launcher}, false)];
      jobs := jobs[job := jobs[job].(phase := A.Waiting)];
    }

    /** One turn of the polling loop: cancelled, locked, or blocked for now. */
    method PollLock(job: A.Job, cancelled: bool) returns (locked: bool)
      requires Valid() && A.InPhase(Model(), job, A.Waiting)
      modifies this
      ensures Valid()
      ensures Model() == A.Apply(old(Model()), if cancelled then A.GiveUp(job) else A.TryLock(job))
      ensures locked <==> !cancelled && forall i :: !A.Holding(old(Model()), i)
    {
      assert A.JobOk(Model(), job);
      A.StepKeeps(Model(), if cancelled then A.GiveUp(job) else A.TryLock(job));
      if cancelled {
        ReleaseEvaluationLock(job);
        ClearPending(job);
        return false;
      }
      if exists i :: i in descriptions && i != job && descriptions[i].locked && descriptions[i].owners != {} {
        return false;
      }
      descriptions := descriptions[job := descriptions[job].(locked := true)];
      jobs := jobs[job := jobs[job].(phase := A.Admitted)];
      locked := true;
    }

    /** Closing, not unlocking: whoever inherited the descriptor keeps the lock. */
    method ReleaseEvaluationLock(job: A.Job)
      requires job in jobs
      modifies this`descriptions
      ensures descriptions == if job in old(descriptions)
        then old(descriptions)[job := A.Close(old(descriptions)[job], jobs[job].launcher)] else old(descriptions)
    {
      if job in descriptions {
        descriptions := descriptions[job := A.Description(descriptions[job].owners - {jobs[job].launcher}, descriptions[job].locked)];
      }
    }

    method ClearPending(job: A.Job)
      requires job in jobs
      modifies this`pending, this`jobs
      ensures pending == old(pending) - {old(jobs)[job].launcher}
      ensures jobs == old(jobs)[job := old(jobs)[job].(phase := A.Done, cleared := old(jobs)[job].cleared + 1)]
    {
      pending := pending - {jobs[job].launcher};
      jobs := jobs[job := jobs[job].(phase := A.Done, cleared := jobs[job].cleared + 1)];
    }

    /** The finally clause of an admitted job. */
    method FinishJob(job: A.Job)
      requires Valid() && A.InPhase(Model(), job, A.Admitted)
      modifies this
      ensures Valid() && Model() == A.Apply(old(Model()), A.Finish(job))
    {
      A.StepKeeps(Model(), A.Finish(job));
      ReleaseEvaluationLock(job);
      ClearPending(job);
    }
  }

  // ----------------------------------------------------------------- the reported times

  /** `perf_counter`: successive readings of one clock. */
  class Clock {
    const readings: nat -> real
    var taken: nat

    constructor (readings: nat -> real)
      ensures this.readings == readings && taken == 0
    {
      this.readings, taken := readings, 0;
    }

    method Now() returns (now: real)
      modifies this
      ensures taken == old(taken) + 1 && now == readings(old(taken))
    {
      now := readings(taken);
      taken := taken + 1;
    }
  }

  ghost predicate Monotone(clock: nat -> real) {
    forall i, j :: i <= j ==> clock(i) <= clock(j)
  }

  datatype Status = Succeeded | Partial | Failed

  datatype Observation = Observation(status: Status, errorCode: string, duration: real, queueWait: real, execution: real)

  /** How the job goes once it runs. */
  datatype Course =
    | LockRaises(cancelled: bool)
    | CancelledWaiting
    | CancelledAtAdmission
    | PayloadRaises(cancelled: bool)
    | CancelledBeforeStart
    | DeadlinePassed
    | WorkerTimesOut
    | CancelledMeanwhile
    | WorkerFails(cancelled: bool) // it raises, or its result is invalid
    | Answers(status: Status, errorCode: string)

  function FailureCode(cancelled: bool): string {
    if cancelled then "EVALUATION_CANCELLED" else "EVALUATION_PROCESS_FAILED"
  }

  /** The lock, the payload or the worker raises. */
  predicate Fails(c: Course) {
    c.LockRaises? || c.PayloadRaises? || c.WorkerFails?
  }

  /** The cancellation is what ends the job, or it is set when something raises. */
  predicate Cancelled(c: Course) {
    || c.CancelledWaiting? || c.CancelledAtAdmission? || c.CancelledBeforeStart? || c.CancelledMeanwhile?
    || (Fails(c) && c.cancelled)
  }

  predicate BeforeAdmission(c: Course) {
    c.LockRaises? || c.CancelledWaiting? || c.CancelledAtAdmission?
  }

  function StatusOf(c: Course): Status {
    if c.Answers? then c.status else Failed
  }

  function CodeOf(c: Course): string {
    match c
    case LockRaises(cancelled) => FailureCode(cancelled)
    case PayloadRaises(cancelled) => FailureCode(cancelled)
    case WorkerFails(cancelled) => FailureCode(cancelled)
    case DeadlinePassed => "EVALUATION_TIMEOUT"
    case WorkerTimesOut => "EVALUATION_TIMEOUT"
    case Answers(_, code) => code
    case _ => "EVALUATION_CANCELLED"
  }

  function Milliseconds(from: real, to: real): real {
    (to - from) * 1000.0
  }

  /** These two return the duration read before the execution time; the others the other way round. */
  predicate DurationFirst(c: Course) {
    c.CancelledBeforeStart? || c.DeadlinePassed?
  }

  /** The remaining time is looked at unless the job ended before. */
  predicate ChecksDeadline(c: Course) {
    c.DeadlinePassed? || c.WorkerTimesOut? || c.CancelledMeanwhile? || c.WorkerFails? || c.Answers?
  }

  method ExecuteEvaluationJob(clock: Clock, submittedAt: real, course: Course) returns (o: Observation)
    requires Monotone(clock.readings) && submittedAt <= clock.readings(clock.taken)
    modifies clock
    ensures clock.taken == old(clock.taken)
      + (if course.LockRaises? then 1
         else if course.CancelledWaiting? || course.CancelledAtAdmission? then 2
         else if course.PayloadRaises? || course.CancelledBeforeStart? then 4 else 5)
    ensures course.Answers? ==> o.status == course.status && o.errorCode == course.errorCode
    ensures !course.Answers? ==> o.status == Failed
    ensures course.DeadlinePassed? || course.WorkerTimesOut? ==> o.errorCode == "EVALUATION_TIMEOUT"
    ensures Cancelled(course) ==> o.errorCode == "EVALUATION_CANCELLED"
    ensures Fails(course) && !course.cancelled ==> o.errorCode == "EVALUATION_PROCESS_FAILED"
    ensures o.queueWait == if course.LockRaises? then 0.0 else (clock.readings(old(clock.taken)) - submittedAt) * 1000.0
    ensures var last, before := clock.readings(clock.taken - 1), clock.readings(if clock.taken < 2 then 0 else clock.taken - 2);
      var durationFirst := course.CancelledBeforeStart? || course.DeadlinePassed?;
      && o.duration == ((if durationFirst then before else last) - submittedAt) * 1000.0
      && o.execution == (if BeforeAdmission(course) then 0.0
                         else ((if durationFirst then last else before) - clock.readings(old(clock.taken) + 1)) * 1000.0)
    // What is reported is never negative, and only those two courses can report more than the duration.
    ensures 0.0 <= o.queueWait && 0.0 <= o.execution
    ensures !DurationFirst(course) ==> o.queueWait + o.execution <= o.duration
    ensures o.queueWait + o.execution <= (clock.readings(clock.taken) - submittedAt) * 1000.0
  {
    if course.LockRaises? {
      var now := clock.Now();
      o := Observation(Failed, FailureCode(course.cancelled), Milliseconds(submittedAt, now), 0.0, 0.0);
      return;
    }
    var locked := clock.Now();
    var queueWait := Milliseconds(submittedAt, locked);
    if course.CancelledWaiting? || course.CancelledAtAdmission? {
      var now := clock.Now();
      o := Observation(Failed, "EVALUATION_CANCELLED", Milliseconds(submittedAt, now), queueWait, 0.0);
      return;
    }
    var admitted := clock.Now();
    if ChecksDeadline(course) {
      var checked := clock.Now(); // the remaining time
    }
    var total, ended: real;
    if DurationFirst(course) {
      total := clock.Now();
      ended := clock.Now();
    } else {
      ended := clock.Now();
      total := clock.Now();
    }
    o := Observation(StatusOf(course), CodeOf(course), Milliseconds(submittedAt, total), queueWait, Milliseconds(admitted, ended));
  }

  /** The times as reported: frozen after the job has released everything. */
  function Reported(o: Observation, total: real): Observation {
    if o.execution > 0.0 then o.(duration := total, execution := if total - o.queueWait < 0.0 then 0.0 else total - o.queueWait)
    else o.(duration := total, queueWait := total, execution := 0.0)
  }

  /** Queue wait and execution add up to the duration exactly when the total is not below the wait
      that was observed, or nothing was executed. */
  lemma TimesAddUpExactly(o: Observation, total: real)
    ensures Reported(o, total).queueWait + Reported(o, total).execution == total
      <==> o.execution <= 0.0 || o.queueWait <= total
  {
  }

  /** With a monotone clock the reported wait and execution always add up to the duration, neither
      is negative, and the job's own execution time is not shortened. */
  method RunEvaluationJob(clock: Clock, submittedAt: real, course: Course) returns (o: Observation, ghost observed: Observation)
    requires Monotone(clock.readings) && submittedAt <= clock.readings(clock.taken)
    modifies clock
    ensures course.Answers? ==> o.status == course.status && o.errorCode == course.errorCode
    ensures !course.Answers? ==> o.status == Failed
    ensures course.DeadlinePassed? || course.WorkerTimesOut? ==> o.errorCode == "EVALUATION_TIMEOUT"
    ensures Cancelled(course) ==> o.errorCode == "EVALUATION_CANCELLED"
    ensures Fails(course) && !course.cancelled ==> o.errorCode == "EVALUATION_PROCESS_FAILED"
    ensures o.queueWait + o.execution == o.duration
    ensures 0.0 <= o.queueWait && 0.0 <= o.execution && observed.execution <= o.execution
    ensures BeforeAdmission(course) ==> o.execution == 0.0
    ensures clock.taken > old(clock.taken) && o.duration == (clock.readings(clock.taken - 1) - submittedAt) * 1000.0
    ensures o.execution > 0.0 ==> o.queueWait == (clock.readings(old(clock.taken)) - submittedAt) * 1000.0
    ensures observed.execution == 0.0 ==> o.execution == 0.0
  {
    var observation := ExecuteEvaluationJob(clock, submittedAt, course);
    observed := observation;
    var now := clock.Now();
    var total := Milliseconds(submittedAt, now);
    TimesAddUpExactly(observation, total);
    o := Reported(observation, total);
  }
}
