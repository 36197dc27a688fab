/** Run after run of one user, each reading the state file that the last one left behind. */
module CorpusSessions {
  import opened Ordering
  import opened Text
  import opened Corpus
  import opened CorpusProtocol
  import opened CorpusTheorems
  import opened CorpusRunner
  import opened CorpusPayload

  datatype Request = Request(fixtures: Fixtures, policy: IngestionPolicy, runId: string, reseed: bool)

  predicate RequestOk(k: Checks, q: Request) {
    q.runId != [] && FixturesOk(k, q.fixtures) && PolicyOk(q.policy)
  }

  /** At every point of the history the state file, if there is one, loads for this user. */
  ghost predicate AlwaysLoads(m: Machine, user: string)
    reads m
  {
    forall n :: 0 <= n < |m.trace| && m.trace[n].durable.Some? ==>
      LoadState(m.checks, StatePayload(m.trace[n].durable.value), user) == Ok(m.trace[n].durable.value)
  }

  lemma PathLoads(k: Checks, h: Hash, ws: seq<World>, user: string)
    requires Path(k, h, ws) && ws[0] == INITIAL && BelongsTo(ws[|ws| - 1], user)
    ensures forall n :: 0 <= n < |ws| && ws[n].durable.Some? ==>
      LoadState(k, StatePayload(ws[n].durable.value), user) == Ok(ws[n].durable.value)
  {
    forall n | 0 <= n < |ws| && ws[n].durable.Some?
      ensures LoadState(k, StatePayload(ws[n].durable.value), user) == Ok(ws[n].durable.value)
    {
      EveryCrashPointLoadsFor(k, h, ws, n, user);
    }
  }

  lemma HistoryLoads(m: Machine, user: string)
    requires m.Valid() && BelongsTo(m.Now(), user)
    ensures AlwaysLoads(m, user)
  {
    PathLoads(m.checks, m.hash, m.trace, user);
  }

  /** An active generation of other fixtures, which only a reseeding run may replace. */
  predicate Unreseeded(durable: Option<State>, q: Request) {
    durable.Some? && durable.value.active.Some? && durable.value.active.value.fixtures.digest != q.fixtures.digest && !q.reseed
  }

  /** The state file is read, the preflight made, then the run goes on from the state it holds. */
  method Diagnose(m: Machine, user: string, q: Request) returns (refused: bool, r: Attempt<Outcome>)
    requires m.Valid() && RequestOk(m.checks, q)
    modifies m
    ensures m.Valid() && old(m.trace) <= m.trace
    ensures refused <==> !BelongsTo(old(m.Now()), user)
    ensures refused || Unreseeded(old(m.durable), q) ==> r.Failed? && m.trace == old(m.trace)
    ensures !refused && Unreseeded(old(m.durable), q) ==> r == Failed(FixturesChanged)
    ensures !refused ==> BelongsTo(m.Now(), user) && AlwaysLoads(m, user)
  {
    r := Failed(Environment);
    if m.durable.Some? {
      m.Guarded();
      LoadsAsItself(m.checks, m.durable.value, user);
      var loaded := LoadState(m.checks, StatePayload(m.durable.value), user);
      if loaded.Err? {
        return true, r;
      }
      LoadInvertsPayload(m.checks, StatePayload(m.durable.value), user, m.durable.value);
      HistoryLoads(m, user);
      if Unreseeded(Some(loaded.value), q) {
        return false, Failed(FixturesChanged);
      }
    }
    refused := false;
    r := m.EnsurePersistentCorpus(q.fixtures, q.policy, user, q.runId, q.reseed);
    HistoryLoads(m, user);
  }

  /** A file that is loadable for anyone loads exactly for its own user. */
  lemma LoadsAsItself(k: Checks, s: State, user: string)
    requires Loadable(k, s)
    ensures LoadState(k, StatePayload(s), user).Ok? <==> s.user == user
  {
    if LoadState(k, StatePayload(s), user).Ok? {
      LoadInvertsPayload(k, StatePayload(s), user, LoadState(k, StatePayload(s), user).value);
      LoadInvertsPayload(k, StatePayload(s), s.user, s);
      StateWritten(s);
      StateWritten(LoadState(k, StatePayload(s), user).value);
    }
    LoadInvertsPayload(k, StatePayload(s), user, s);
  }

  /** Any runs of one user, however each of them ends: no run is refused the file that its
      predecessors left, and every crash point of all of them loads for that user. */
  method RunAll(m: Machine, user: string, requests: seq<Request>)
    requires m.Valid() && BelongsTo(m.Now(), user)
    requires forall i :: 0 <= i < |requests| ==> RequestOk(m.checks, requests[i])
    modifies m
    ensures m.Valid() && old(m.trace) <= m.trace && BelongsTo(m.Now(), user) && AlwaysLoads(m, user)
  {
    HistoryLoads(m, user);
    for i := 0 to |requests|
      invariant m.Valid() && old(m.trace) <= m.trace && BelongsTo(m.Now(), user) && AlwaysLoads(m, user)
    {
      var refused, outcome := Diagnose(m, user, requests[i]);
      assert !refused;
    }
  }
}
