/** Evaluation admission: launchers with one pending job each, and an exclusive lock that belongs to
    an open file description shared with child processes. */
module Admission {
  import opened Ordering

  type Process = nat
  type Job = nat

  datatype Phase = Queued | Waiting | Admitted | Done | Lost

  datatype JobState = JobState(launcher: Process, phase: Phase, cleared: nat)

  /** The open file description behind a job's descriptor: who holds it, and whether it is locked. */
  datatype Description = Description(owners: set<Process>, locked: bool)

  datatype Host = Host(pending: set<Process>, jobs: map<Job, JobState>, descriptions: map<Job, Description>)

  const EMPTY := Host({}, map[], map[])

  datatype Event =
    | Submit(launcher: Process, job: Job)
    | Abandon(job: Job)      // the executor refuses, or the lock file cannot be opened
    | Open(job: Job)
    | TryLock(job: Job)
    | GiveUp(job: Job)       // cancelled while waiting
    | Spawn(job: Job, parent: Process, child: Process)
    | Exit(process: Process) // a child process ends
    | Finish(job: Job)       // the supervisor's finally clause, whether or not children survive
    | Die(launcher: Process) // the launcher itself is killed

  predicate Holding(h: Host, j: Job) {
    j in h.descriptions && h.descriptions[j].locked && h.descriptions[j].owners != {}
  }

  /** `flock(LOCK_EX | LOCK_NB)` fails while another description holds the lock. */
  predicate Blocked(h: Host, j: Job) {
    exists i :: i in h.descriptions && i != j && Holding(h, i)
  }

  predicate InPhase(h: Host, j: Job, phase: Phase) {
    j in h.jobs && h.jobs[j].phase == phase
  }

  predicate Child(h: Host, p: Process) {
    forall j :: j in h.jobs ==> h.jobs[j].launcher != p
  }

  predicate Enabled(h: Host, e: Event) {
    match e
    case Submit(_, j) => j !in h.jobs && j !in h.descriptions
    case Abandon(j) => InPhase(h, j, Queued)
    case Open(j) => InPhase(h, j, Queued)
    case TryLock(j) => InPhase(h, j, Waiting)
    case GiveUp(j) => InPhase(h, j, Waiting)
    case Spawn(j, parent, child) =>
      Child(h, child) && j in h.descriptions && h.descriptions[j].locked && parent in h.descriptions[j].owners
    case Exit(p) => Child(h, p)
    case Finish(j) => InPhase(h, j, Admitted)
    case Die(_) => true
  }

  function Close(d: Description, p: Process): Description {
    d.(owners := d.owners - {p})
  }

  function CloseAll(ds: map<Job, Description>, p: Process): map<Job, Description> {
    map j | j in ds :: Close(ds[j], p)
  }

  /** The supervisor is through with the job: its descriptor is closed and the flag cleared. */
  function Release(h: Host, j: Job): Host
    requires j in h.jobs
  {
    var s := h.jobs[j];
    Host(h.pending - {s.launcher}, h.jobs[j := s.(phase := Done, cleared := s.cleared + 1)],
         if j in h.descriptions then h.descriptions[j := Close(h.descriptions[j], s.launcher)] else h.descriptions)
  }

  function Apply(h: Host, e: Event): Host
    requires Enabled(h, e)
  {
    match e
    case Submit(l, j) =>
      if l in h.pending then h else h.(pending := h.pending + {l}, jobs := h.jobs[j := JobState(l, Queued, 0)])
    case Abandon(j) => Release(h, j)
    case Open(j) =>
      h.(jobs := h.jobs[j := h.jobs[j].(phase := Waiting)],
         descriptions := h.descriptions[j := Description({h.jobs[j].launcher}, false)])
    case TryLock(j) =>
      if Blocked(h, j) || j !in h.descriptions then h
      else h.(jobs := h.jobs[j := h.jobs[j].(phase := Admitted)],
              descriptions := h.descriptions[j := h.descriptions[j].(locked := true)])
    case GiveUp(j) => Release(h, j)
    case Spawn(j, _, child) =>
      h.(descriptions := h.descriptions[j := Description(h.descriptions[j].owners + {child}, true)])
    case Exit(p) => h.(descriptions := CloseAll(h.descriptions, p))
    case Finish(j) => Release(h, j)
    case Die(l) =>
      Host(h.pending - {l},
           map j | j in h.jobs :: if h.jobs[j].launcher == l && h.jobs[j].phase != Done then h.jobs[j].(phase := Lost) else h.jobs[j],
           CloseAll(h.descriptions, l))
  }

  // ----------------------------------------------------------------- the invariant

  predicate Unfinished(s: JobState) {
    s.phase in {Queued, Waiting, Admitted}
  }

  /** One job, its flag and its descriptor. */
  ghost predicate JobOk(h: Host, j: Job) {
    && (j in h.descriptions ==> j in h.jobs)
    && (j in h.jobs ==>
      && h.jobs[j].cleared == (if h.jobs[j].phase == Done then 1 else 0)
      && (Unfinished(h.jobs[j]) ==> h.jobs[j].launcher in h.pending)
      && (h.jobs[j].phase == Queued ==> j !in h.descriptions)
      && (h.jobs[j].phase == Waiting ==> j in h.descriptions && h.descriptions[j] == Description({h.jobs[j].launcher}, false))
      && (h.jobs[j].phase == Admitted ==> Holding(h, j) && h.jobs[j].launcher in h.descriptions[j].owners)
      && (j in h.descriptions && !h.descriptions[j].locked && h.jobs[j].phase != Waiting ==> h.descriptions[j].owners == {}))
  }

  predicate SameLauncher(h: Host, i: Job, j: Job) {
    && i in h.jobs && j in h.jobs && Unfinished(h.jobs[i]) && Unfinished(h.jobs[j])
    && h.jobs[i].launcher == h.jobs[j].launcher
  }

  /** One launcher has one unfinished job at most, and the lock one holder. */
  ghost predicate PairOk(h: Host, i: Job, j: Job) {
    && (SameLauncher(h, i, j) ==> i == j)
    && (Holding(h, i) && Holding(h, j) ==> i == j)
  }

  ghost predicate FlagOk(h: Host, l: Process) {
    l in h.pending ==> exists j :: j in h.jobs && h.jobs[j].launcher == l && Unfinished(h.jobs[j])
  }

  ghost predicate Inv(h: Host) {
    && (forall j :: JobOk(h, j))
    && (forall i, j :: PairOk(h, i, j))
    && (forall l :: FlagOk(h, l))
  }

  lemma JobKeeps(h: Host, e: Event, j: Job)
    requires Enabled(h, e) && JobOk(h, j)
    requires e.Finish? || e.GiveUp? || e.Abandon? ==> JobOk(h, e.job) && PairOk(h, e.job, j)
    ensures JobOk(Apply(h, e), j)
  {
    if j in h.jobs && j in h.descriptions {
      var owner := h.jobs[j].launcher;
      assert e.Exit? && e.process != owner ==> {owner} - {e.process} == {owner};
      assert e.Die? && e.launcher != owner ==> {owner} - {e.launcher} == {owner};
      assert {owner} - {owner} == {};
    }
  }

  lemma PairKeeps(h: Host, e: Event, i: Job, j: Job)
    requires Enabled(h, e) && JobOk(h, i) && JobOk(h, j) && PairOk(h, i, j) && PairOk(h, j, i)
    ensures PairOk(Apply(h, e), i, j)
  {
  }

  lemma FlagKeeps(h: Host, e: Event, l: Process)
    requires Enabled(h, e) && FlagOk(h, l) && forall j :: JobOk(h, j)
    ensures FlagOk(Apply(h, e), l)
  {
    var h' := Apply(h, e);
    if l in h'.pending {
      if l in h.pending {
        var j :| j in h.jobs && h.jobs[j].launcher == l && Unfinished(h.jobs[j]);
        assert j in h'.jobs && h'.jobs[j].launcher == l && Unfinished(h'.jobs[j]);
      } else {
        assert h'.jobs[e.job].launcher == l && Unfinished(h'.jobs[e.job]);
      }
    }
  }

  lemma StepKeeps(h: Host, e: Event)
    requires Enabled(h, e) && Inv(h)
    ensures Inv(Apply(h, e))
  {
    forall j ensures JobOk(Apply(h, e), j) {
      assert JobOk(h, j);
      JobKeeps(h, e, j);
    }
    forall i, j ensures PairOk(Apply(h, e), i, j) {
      PairKeeps(h, e, i, j);
    }
    forall l ensures FlagOk(Apply(h, e), l) {
      FlagKeeps(h, e, l);
    }
  }

  // ----------------------------------------------------------------- runs

  ghost predicate Run(h: Host, es: seq<Event>, h': Host)
    decreases |es|
  {
    if es == [] then h == h' else Enabled(h, es[0]) && Run(Apply(h, es[0]), es[1..], h')
  }

  lemma {:induction false} RunKeeps(h: Host, es: seq<Event>, h': Host)
    requires Inv(h) && Run(h, es, h')
    ensures Inv(h')
    decreases |es|
  {
    if es != [] {
      StepKeeps(h, es[0]);
      RunKeeps(Apply(h, es[0]), es[1..], h');
    }
  }

  lemma EmptyOk()
    ensures Inv(EMPTY)
  {
  }

  /** In every run: the lock has one holder at most, even among finished jobs with surviving
      children; an admitted job is that holder; each launcher has one unfinished job at most, exactly
      when its flag is set; and a job that is done cleared the flag once, any other never. */
  lemma AdmissionIsExclusive(es: seq<Event>, h: Host)
    requires Run(EMPTY, es, h)
    ensures forall i, j :: Holding(h, i) && Holding(h, j) ==> i == j
    ensures forall j :: InPhase(h, j, Admitted) ==> Holding(h, j)
    ensures forall l :: l in h.pending <==> exists j :: j in h.jobs && h.jobs[j].launcher == l && Unfinished(h.jobs[j])
    ensures forall i, j :: SameLauncher(h, i, j) ==> i == j
    ensures forall j :: j in h.jobs ==> h.jobs[j].cleared == if h.jobs[j].phase == Done then 1 else 0
  {
    EmptyOk();
    RunKeeps(EMPTY, es, h);
    forall i, j | Holding(h, i) && Holding(h, j) ensures i == j {
      assert PairOk(h, i, j);
    }
    forall j | j in h.jobs ensures JobOk(h, j) {
    }
    forall l ensures l in h.pending <==> exists j :: j in h.jobs && h.jobs[j].launcher == l && Unfinished(h.jobs[j]) {
      assert FlagOk(h, l);
    }
    forall i, j | SameLauncher(h, i, j) ensures i == j {
      assert PairOk(h, i, j);
    }
  }

  /** A waiting job is admitted exactly when no process holds another job's lock. */
  lemma AdmittedExactlyWhenFree(h: Host, j: Job)
    requires Inv(h) && Enabled(h, TryLock(j))
    ensures InPhase(Apply(h, TryLock(j)), j, Admitted) <==> forall i :: !Holding(h, i)
  {
    assert JobOk(h, j);
  }

  function Owners(h: Host, j: Job): set<Process> {
    if j in h.descriptions then h.descriptions[j].owners else {}
  }

  /** A supervisor that gives up releases the lock exactly when no child survives; otherwise the
      survivors keep every other job out. */
  lemma LastCloseReleases(h: Host, j: Job)
    requires Inv(h) && Enabled(h, Finish(j))
    ensures var h' := Apply(h, Finish(j));
      && (Holding(h', j) <==> exists p :: p in Owners(h, j) && p != h.jobs[j].launcher)
      && (Holding(h', j) ==> forall i :: i != j ==> Blocked(h', i))
  {
    var h' := Apply(h, Finish(j));
    assert JobOk(h, j);
    if Holding(h', j) {
      var p :| p in h'.descriptions[j].owners;
      assert p in Owners(h, j);
    } else {
      forall p | p in Owners(h, j) ensures p == h.jobs[j].launcher {
        assert p !in h'.descriptions[j].owners;
      }
    }
  }

  /** A child process that still holds the job's lock. */
  predicate Survives(h: Host, j: Job, p: Process) {
    j in h.descriptions && h.descriptions[j].locked && p in h.descriptions[j].owners && Child(h, p)
  }

  predicate Ends(e: Event, p: Process) {
    e == Exit(p) || (e.Submit? && e.launcher == p) || e == Die(p)
  }

  /** As long as a child survives, no step admits another job. */
  lemma {:induction false} SurvivorKeepsOthersOut(h: Host, es: seq<Event>, h': Host, j: Job, p: Process)
    requires Inv(h) && Run(h, es, h') && Survives(h, j, p)
    requires forall e :: e in es ==> !Ends(e, p)
    ensures Inv(h') && Survives(h', j, p)
    ensures forall i :: i != j ==> !Holding(h', i) && !InPhase(h', i, Admitted)
    decreases |es|
  {
    if es == [] {
      forall i | i != j ensures !Holding(h, i) && !InPhase(h, i, Admitted) {
        assert PairOk(h, i, j) && JobOk(h, i);
      }
    } else {
      var next := Apply(h, es[0]);
      StepKeeps(h, es[0]);
      assert es[0] in es;
      SurvivorStays(h, es[0], j, p);
      forall e | e in es[1..] ensures !Ends(e, p) {
        assert e in es;
      }
      SurvivorKeepsOthersOut(next, es[1..], h', j, p);
    }
  }

  lemma SurvivorStays(h: Host, e: Event, j: Job, p: Process)
    requires Inv(h) && Enabled(h, e) && Survives(h, j, p) && !Ends(e, p)
    ensures Survives(Apply(h, e), j, p)
  {
    assert JobOk(h, j);
  }
}
