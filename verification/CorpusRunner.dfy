/** The program itself: ensure_persistent_corpus and what it calls, over a state file and a
    vector store that outlive it.  Every change to either is appended to `trace`, so a run's
    crash points are exactly the worlds it adds, whether or not it returns. */
module CorpusRunner {
  import opened Ordering
  import opened Text
  import opened Corpus
  import opened CorpusProtocol
  import opened CorpusSafety
  import opened CorpusTheorems
  import opened CorpusMembership

  const DELETE_BATCH_SIZE: nat := 64

  /** The raised errors.  Environment covers every outside failure: the service, the network,
      the file system, a failed content check on the service's answer, or being stopped. */
  datatype Error = Environment | MembershipRefused | FixturesChanged | TransitionRefused | CheckFailed

  datatype Attempt<+T> = Done(value: T) | Failed(error: Error)

  datatype Outcome = Reused | CreatedNew | Reseeded

  datatype Report = Report(matched: nat, successful: nat, failed: nat, deletedIds: seq<Id>, remainingIds: seq<Id>) {
    predicate Confirmed() { failed == 0 && remainingIds == [] }
  }

  predicate Vanished(store: Store, store': Store, d: Document, gone: set<Id>) {
    store' == store.Replacing(d.collection, store.Of(d.collection) - gone)
  }

  class Machine {
    var durable: Option<State>
    var store: Store
    var issued: set<Id>
    ghost var trace: seq<World>
    const checks: Checks
    const hash: Hash
    const clock: nat -> string

    ghost function Now(): World
      reads this
    {
      World(durable, store, issued)
    }

    /** `trace` is the whole history since the first run on an empty store. */
    ghost predicate Valid()
      reads this
    {
      && Path(checks, hash, trace) && trace[0] == INITIAL && trace[|trace| - 1] == Now()
      && Sound()
    }

    /** SHA-256 prints as a digest, and the program's own clock prints valid timestamps. */
    ghost predicate Sound() {
      (forall chunks :: Prints(chunks)) && (forall n :: Ticks(n))
    }

    predicate Prints(chunks: map<Id, string>) { IsSha256(hash(chunks)) }

    predicate Ticks(n: nat) { checks.timestampOk(clock(n)) }

    /** The first run ever: no state file, and a store without a chunk of this diagnostic. */
    constructor (checks: Checks, hash: Hash, clock: nat -> string)
      requires forall chunks :: IsSha256(hash(chunks))
      requires forall n :: checks.timestampOk(clock(n))
      ensures Valid() && trace == [INITIAL]
      ensures this.checks == checks && this.hash == hash && this.clock == clock
    {
      this.checks, this.hash, this.clock := checks, hash, clock;
      durable, store, issued, trace := None, EMPTY_STORE, {}, [INITIAL];
    }

    lemma Guarded()
      requires Valid()
      ensures Safe(checks, hash, Now())
    {
      EveryCrashPointIsSafe(checks, hash, trace, |trace| - 1);
    }

    method Timestamp() returns (now: string)
      requires Valid()
      ensures checks.timestampOk(now)
    {
      var tick: int := *;
      var n: nat := if tick < 0 then 0 else tick;
      assert Ticks(n);
      now := clock(n);
    }

    /** The step just taken is legal: extend the history by the new world. */
    ghost method Observe(e: Event, before: World)
      requires Path(checks, hash, trace) && trace[0] == INITIAL && trace[|trace| - 1] == before && Sound()
      requires Step(checks, hash, before, e, Now())
      modifies this`trace
      ensures Valid() && trace == old(trace) + [Now()]
    {
      PathExtended(checks, hash, trace, e, Now());
      trace := trace + [Now()];
    }

    /** write_corpus_state: an atomic replacement of the state file.  It may fail before or
        after the replacement became durable. */
    method Record(next: State, newIds: set<Id>, ghost e: Event) returns (ok: bool)
      requires Valid()
      requires Step(checks, hash, Now(), e, World(Some(next), store, issued + newIds))
      modifies this`durable, this`issued, this`trace
      ensures Valid() && old(trace) <= trace
      ensures old(issued) <= issued <= old(issued) + newIds
      ensures ok ==> durable == Some(next) && issued == old(issued) + newIds
      ensures durable == Some(next) || (durable == old(durable) && trace == old(trace))
    {
      var reached: bool := *;
      if !reached {
        return false;
      }
      ghost var before := Now();
      durable, issued := Some(next), issued + newIds;
      Observe(e, before);
      ok := *;
    }

    /** CorpusStorage reads the whole collection; the read itself may fail. */
    method ValidateMembership(state: Option<State>) returns (r: Attempt<()>)
      requires Valid() && state == durable
      ensures r == Failed(MembershipRefused) ==> !Admissible(durable, store)
      ensures r.Done? ==> Admissible(durable, store)
      ensures r.Failed? ==> r.error in {Environment, MembershipRefused}
    {
      var readable: bool := *;
      if !readable {
        return Failed(Environment);
      }
      var v := ValidatePhysicalMembership(state, store);
      return if v.Ok? then Done(()) else Failed(MembershipRefused);
    }

    /** The vector store's deletion contract: any part of the batch may be gone afterwards, and an
        id reported as deleted really is. */
    method DeleteChunks(d: Document, batch: seq<Id>) returns (r: Attempt<Report>)
      requires Valid() && durable.Some? && Retiring(durable.value, d)
      requires forall x :: x in batch ==> x in ChunksOf(store, d)
      modifies this`store, this`trace
      ensures Valid() && old(trace) <= trace
      ensures exists gone :: gone <= Elements(batch) && Vanished(old(store), store, d, gone)
      ensures r.Done? ==> forall x :: x in r.value.deletedIds ==> x !in ChunksOf(store, d)
      ensures r.Failed? ==> r.error == Environment
    {
      var chosen: set<Id> := *;
      var gone := chosen * Elements(batch);
      ghost var before := Now();
      assert gone <= ChunksOf(store, d).Keys;
      store := store.Replacing(d.collection, store.Of(d.collection) - gone);
      Observe(Deleted(d, gone), before);
      assert Vanished(old(store), store, d, gone);
      var report: Report := *;
      var answered: bool := *;
      if !answered || exists x :: x in report.deletedIds && x !in gone {
        return Failed(Environment);
      }
      return Done(report);
    }

    /** The order of the store's iterator is not specified. */
    method Enumerate(ids: set<Id>) returns (s: seq<Id>)
      ensures Elements(s) == ids && |s| == |ids|
      ensures Distinct(s)
    {
      s := [];
      var rest := ids;
      while rest != {}
        invariant rest <= ids && Elements(s) == ids - rest && |s| + |rest| == |ids|
        invariant Distinct(s)
        decreases |rest|
      {
        var x :| x in rest;
        assert forall i :: 0 <= i < |s| ==> s[i] in Elements(s);
        assert Elements(s + [x]) == Elements(s) + {x};
        s, rest := s + [x], rest - {x};
      }
    }

    /** One confirmed batch of the deletion loop. */
    method DeleteBatch(d: Document, batch: seq<Id>) returns (r: Attempt<nat>)
      requires Valid() && durable.Some? && Retiring(durable.value, d)
      requires Elements(batch) <= ChunksOf(store, d).Keys
      modifies this`store, this`trace
      ensures Valid() && old(trace) <= trace
      ensures exists gone :: gone <= Elements(batch) && Vanished(old(store), store, d, gone)
      ensures r.Done? ==> Vanished(old(store), store, d, Elements(batch)) && r.value == |batch|
      ensures r.Failed? ==> r.error == Environment
    {
      var answer := DeleteChunks(d, batch);
      if answer.Failed? {
        return Failed(answer.error);
      }
      var report := answer.value;
      if !report.Confirmed() || report.matched != |batch| || report.successful != |batch|
         || |report.deletedIds| != |batch| || Elements(report.deletedIds) != Elements(batch)
      {
        return Failed(Environment);
      }
      ghost var gone :| gone <= Elements(batch) && Vanished(old(store), store, d, gone);
      forall x | x in Elements(batch) ensures x in gone {
        assert x in Elements(report.deletedIds) && x in ChunksOf(old(store), d);
      }
      assert gone == Elements(batch);
      return Done(report.successful);
    }

    /** One turn of the deletion loop, seen from the store that the loop started with. */
    method DeleteNext(d: Document, ids: seq<Id>, offset: nat, end: nat, ghost origin: Store) returns (r: Attempt<nat>)
      requires Valid() && durable.Some? && Retiring(durable.value, d) && offset <= end <= |ids|
      requires Elements(ids) == ChunksOf(origin, d).Keys && Distinct(ids)
      requires Vanished(origin, store, d, Elements(ids[..offset]))
      modifies this`store, this`trace
      ensures Valid() && old(trace) <= trace
      ensures exists gone :: gone <= ChunksOf(origin, d).Keys && Vanished(origin, store, d, gone)
      ensures r.Done? ==> Vanished(origin, store, d, Elements(ids[..end])) && r.value == end - offset
      ensures r.Failed? ==> r.error == Environment
    {
      var batch := ids[offset..end];
      SurvivorsOf(origin, store, d, ids, offset);
      ghost var before := store;
      r := DeleteBatch(d, batch);
      ghost var gone :| gone <= Elements(batch) && Vanished(before, store, d, gone)
                        && (r.Done? ==> gone == Elements(batch));
      VanishedTwice(origin, before, store, d, Elements(ids[..offset]), gone);
      assert ids[..end] == ids[..offset] + batch;
      assert Elements(ids[..end]) == Elements(ids[..offset]) + Elements(batch);
      assert Elements(ids[..offset]) + gone <= ChunksOf(origin, d).Keys by {
        assert forall x :: x in ids[..offset] ==> x in ids;
        assert forall x :: x in batch ==> x in ids;
      }
    }

    /** CorpusStorage.delete_document: rediscover the survivors, delete them in confirmed batches,
        then look again. */
    method DeleteDocument(d: Document) returns (r: Attempt<nat>)
      requires Valid() && durable.Some? && Retiring(durable.value, d)
      modifies this`store, this`trace
      ensures Valid() && old(trace) <= trace
      ensures exists gone :: gone <= ChunksOf(old(store), d).Keys && Vanished(old(store), store, d, gone)
      ensures r.Done? ==> ChunksOf(store, d) == map[] && r.value == |ChunksOf(old(store), d)|
      ensures r.Failed? ==> r.error == Environment
    {
      NothingVanished(store, d);
      var readable: bool := *;
      if !readable {
        return Failed(Environment);
      }
      var ids := Enumerate(ChunksOf(store, d).Keys);
      var offset, deleted := 0, 0;
      while offset < |ids|
        invariant Valid() && old(trace) <= trace
        invariant offset == deleted <= |ids|
        invariant Vanished(old(store), store, d, Elements(ids[..offset]))
      {
        var end := if offset + DELETE_BATCH_SIZE < |ids| then offset + DELETE_BATCH_SIZE else |ids|;
        var done := DeleteNext(d, ids, offset, end, old(store));
        if done.Failed? {
          return Failed(done.error);
        }
        offset, deleted := end, deleted + done.value;
      }
      assert ids[..offset] == ids;
      assert ChunksOf(store, d) == map[];
      var stillReadable: bool := *;
      if !stillReadable || (exists x :: x in store.Of(d.collection) && store.Of(d.collection)[x].document == d.wizardId) {
        return Failed(Environment);
      }
      return Done(deleted);
    }

    // ------------------------------------------------------------------- recovery

    method DeletePendingAt(state: State, i: nat) returns (r: Attempt<nat>)
      requires Valid() && durable == Some(state) && i < |DocumentsOf(state.pending)|
      requires AllEmpty(store, DocumentsOf(state.pending)[..i])
      modifies this`store, this`trace
      ensures Valid() && old(trace) <= trace
      ensures r.Done? ==> AllEmpty(store, DocumentsOf(state.pending)[..i + 1])
      ensures r.Failed? ==> r.error == Environment
    {
      var documents := DocumentsOf(state.pending);
      r := DeleteDocument(documents[i]);
      if r.Done? {
        AllShrink(old(store), store, documents, i);
      }
    }

    method DeletePending(state: State) returns (r: Attempt<()>)
      requires Valid() && durable == Some(state)
      modifies this`store, this`trace
      ensures Valid() && old(trace) <= trace
      ensures r.Done? ==> AllEmpty(store, DocumentsOf(state.pending))
      ensures r.Failed? ==> r.error == Environment
    {
      var documents := DocumentsOf(state.pending);
      for i := 0 to |documents|
        invariant Valid() && old(trace) <= trace
        invariant AllEmpty(store, documents[..i])
      {
        var deleted := DeletePendingAt(state, i);
        if deleted.Failed? {
          return Failed(deleted.error);
        }
      }
      assert documents[..|documents|] == documents;
      return Done(());
    }

    method Forget(begun: State, d: Document) returns (r: Attempt<State>)
      requires Valid() && durable == Some(begun) && ChunksOf(store, d) == map[]
      requires |Without(begun.cleanup, d)| != |begun.cleanup|
      modifies this`durable, this`issued, this`trace
      ensures Valid() && old(trace) <= trace && issued == old(issued)
      ensures r.Done? ==> durable == Some(r.value)
      ensures r.Done? ==> r.value == begun.(cleanup := Without(begun.cleanup, d), updatedAt := r.value.updatedAt)
      ensures r.Failed? ==> r.error == Environment
    {
      var now := Timestamp();
      var next := RemovePendingCleanup(begun, d, now);
      var written := Record(next.value, {}, WroteCleanup(d, now));
      return if written then Done(next.value) else Failed(Environment);
    }

    /** One document of a replaced generation: delete its chunks, then forget it. */
    method DeleteCleanupAt(begun: State, documents: seq<Document>, i: nat) returns (r: Attempt<State>)
      requires Valid() && durable == Some(begun) && i < |documents| && begun.cleanup == documents[i..] && DistinctIdentities(documents)
      modifies this`durable, this`issued, this`store, this`trace
      ensures Valid() && old(trace) <= trace && issued == old(issued)
      ensures r.Done? ==> durable == Some(r.value)
      ensures r.Done? ==> r.value == begun.(cleanup := documents[i + 1..], updatedAt := r.value.updatedAt)
      ensures r.Failed? ==> r.error == Environment
    {
      var d := documents[i];
      WithoutFirst(documents, i);
      var deleted := DeleteDocument(d);
      if deleted.Failed? {
        return Failed(deleted.error);
      }
      r := Forget(begun, d);
    }

    method DeleteCleanup(begun: State) returns (r: Attempt<State>)
      requires Valid() && durable == Some(begun) && begun.pending.None?
      modifies this`durable, this`issued, this`store, this`trace
      ensures Valid() && old(trace) <= trace && issued == old(issued)
      ensures r.Done? ==> durable == Some(r.value)
      ensures r.Done? ==> r.value.active == begun.active && r.value.pending.None? && r.value.cleanup == []
      ensures r.Failed? ==> r.error == Environment
    {
      var state := begun;
      var documents := begun.cleanup;
      Guarded();
      CleanupDistinct(checks, begun);
      for i := 0 to |documents|
        invariant Valid() && old(trace) <= trace && issued == old(issued)
        invariant durable == Some(state) && state.active == begun.active && state.pending.None?
        invariant state.cleanup == documents[i..]
      {
        var removed := DeleteCleanupAt(state, documents, i);
        if removed.Failed? {
          return removed;
        }
        state := removed.value;
      }
      return Done(state);
    }

    method CleanupPending(begun: State) returns (r: Attempt<State>)
      requires Valid() && durable == Some(begun)
      modifies this`durable, this`issued, this`store, this`trace
      ensures Valid() && old(trace) <= trace && issued == old(issued)
      ensures r.Failed? ==> r.error in {Environment, MembershipRefused}
      ensures r == Failed(MembershipRefused) ==> !Admissible(old(durable), old(store))
      ensures !Admissible(old(durable), old(store)) ==> r.Failed? && Now() == old(Now()) && trace == old(trace)
      ensures r.Done? ==> durable == Some(r.value) && ExactlyActive(hash, r.value, store)
      ensures r.Done? ==> r.value.active == begun.active && r.value.pending.None? && r.value.cleanup == []
    {
      var state := begun;
      var accepted := ValidateMembership(Some(state));
      if accepted.Failed? {
        return Failed(accepted.error);
      }
      if state.pending.Some? {
        var deleted := DeletePending(state);
        if deleted.Failed? {
          return Failed(deleted.error);
        }
        var now := Timestamp();
        var written := Record(DiscardPendingReplacement(state, now), {}, WroteDiscard(now));
        if !written {
          return Failed(Environment);
        }
        state := DiscardPendingReplacement(state, now);
      }
      var cleaned := DeleteCleanup(state);
      if cleaned.Failed? {
        return Failed(cleaned.error);
      }
      state := cleaned.value;
      Guarded();
      CleanIsExact(checks, hash, Now());
      accepted := ValidateMembership(Some(state));
      return if accepted.Done? then Done(state) else Failed(accepted.error);
    }

    // -------------------------------------------------------------- verification

    method InspectDocument(d: Document) returns (r: Attempt<map<Id, string>>)
      requires Valid()
      ensures r.Done? ==> r.value == ChunksOf(store, d) && r.value != map[]
      ensures r == Failed(CheckFailed) ==> ChunksOf(store, d) == map[]
      ensures r.Failed? ==> r.error in {Environment, CheckFailed}
    {
      var readable: bool := *;
      if !readable {
        return Failed(Environment);
      }
      var chunks := ChunksOf(store, d);
      return if chunks == map[] then Failed(CheckFailed) else Done(chunks);
    }

    method VerifyGeneration(g: Generation) returns (r: Attempt<()>)
      requires Valid() && DocumentsOk(g.documents)
      ensures r.Done? ==> Stands(hash, store, g)
      ensures r == Failed(CheckFailed) ==> !Stands(hash, store, g)
      ensures r.Failed? ==> r.error in {Environment, CheckFailed}
    {
      for i := 0 to |g.documents|
        invariant forall j :: 0 <= j < i ==> Whole(hash, store, g.documents[j])
      {
        var d := g.documents[i];
        var inspected := InspectDocument(d);
        WholeInspects(hash, store, d);
        if inspected.Failed? {
          return Failed(inspected.error);
        }
        var ids := SortIds(inspected.value.Keys);
        if Whole(hash, store, d) {
          SortedUnique(ids, d.chunkIds);
        }
        if d.status != Saved || ids != d.chunkIds || d.fingerprint != Some(hash(inspected.value)) {
          assert !Whole(hash, store, d);
          return Failed(CheckFailed);
        }
      }
      var knowledge, policy := g.Find(Knowledge), g.Find(Policy);
      if knowledge.None? || policy.None? {
        return Failed(CheckFailed);
      }
      var readable: bool := *;
      if !readable {
        return Failed(Environment);
      }
      if Holds(store.policy, knowledge.value.wizardId) || Holds(store.knowledge, policy.value.wizardId) {
        return Failed(CheckFailed);
      }
      return Done(());
    }

    // ------------------------------------------------------------------- seeding

    /** The service hands out a new canonical id, or the call fails. */
    method CreateWizard() returns (r: Attempt<Id>)
      requires Valid()
      ensures r.Done? ==> IsUuid(r.value) && r.value !in issued
      ensures r.Failed? ==> r.error == Environment
    {
      var id: Id := *;
      return if IsUuid(id) && id !in issued then Done(id) else Failed(Environment);
    }

    method Ask() returns (answered: bool)
    {
      answered := *;
    }

    /** The service writes chunks of the document being saved, some at a time, for as long as the
        save runs.  It uses ids no other document's chunk has. */
    method SaveRuns(d: Document)
      requires Valid() && durable.Some?
      requires d in DocumentsOf(durable.value.pending) && d.status in {SaveSubmitting, SaveSubmitted}
      modifies this`store, this`trace
      ensures Valid() && old(trace) <= trace
      ensures forall x :: !SameIdentity(x, d) ==> ChunksOf(store, x) == ChunksOf(old(store), x)
    {
      var bursts: int := *;
      while bursts > 0
        invariant Valid() && old(trace) <= trace
        invariant forall x :: !SameIdentity(x, d) ==> ChunksOf(store, x) == ChunksOf(old(store), x)
      {
        var offered: map<Id, string> := *;
        var all := store.Of(d.collection);
        var chunks := map x | x in offered && IsUuid(x) && (x in all ==> all[x].document == d.wizardId) :: offered[x];
        ghost var before := Now();
        store := store.Replacing(d.collection, all + map x | x in chunks :: Chunk(d.wizardId, chunks[x]));
        Observe(SaveWrote(d, chunks), before);
        forall x | !SameIdentity(x, d) ensures ChunksOf(store, x) == ChunksOf(before.store, x) {
          OthersUntouched(before, SaveWrote(d, chunks), Now(), checks, hash, x);
        }
        bursts := bursts - 1;
      }
    }

    lemma AdvanceLegal(begun: State, front: seq<Document>, prior: Document, d: Document, now: string)
      requires Valid() && durable == Some(begun) && checks.timestampOk(now)
      requires begun.pending.Some? && begun.pending.value.verifiedAt.None?
      requires begun.pending.value.documents == front + [prior]
      requires DocumentOk(d) && Advances(prior, d) && (d.status == Saved ==> Whole(hash, store, d))
      ensures var next := RecordReplacementDocument(checks, begun, d, now);
        && next.Ok? && SameButDocuments(begun, next.value, front + [d])
        && Step(checks, hash, Now(), WroteDocument(d, now), World(Some(next.value), store, issued + {d.wizardId}))
    {
      Guarded();
      AdvanceAllowed(checks, begun, front, prior, d, now);
    }

    /** Records the next status of the document last in the replacement. */
    method Advance(begun: State, ghost front: seq<Document>, ghost prior: Document, d: Document)
        returns (r: Attempt<State>)
      requires Valid() && durable == Some(begun) && d.wizardId in issued
      requires begun.pending.Some? && begun.pending.value.verifiedAt.None?
      requires begun.pending.value.documents == front + [prior]
      requires DocumentOk(d) && Advances(prior, d) && (d.status == Saved ==> Whole(hash, store, d))
      modifies this`durable, this`issued, this`trace
      ensures Valid() && old(trace) <= trace && issued == old(issued)
      ensures r.Failed? ==> r.error == Environment
      ensures r.Done? ==> durable == Some(r.value) && SameButDocuments(begun, r.value, front + [d])
    {
      var now := Timestamp();
      AdvanceLegal(begun, front, prior, d, now);
      var next := RecordReplacementDocument(checks, begun, d, now);
      if next.Err? {
        return Failed(TransitionRefused);
      }
      var written := Record(next.value, {d.wizardId}, WroteDocument(d, now));
      return if written then Done(next.value) else Failed(Environment);
    }

    method CreateDocument(c: Collection, begun: State) returns (r: Attempt<(State, Document)>)
      requires Valid() && durable == Some(begun)
      requires begun.pending.Some? && begun.pending.value.verifiedAt.None?
      requires forall x :: x in begun.pending.value.documents ==> x.collection != c
      modifies this`durable, this`issued, this`trace
      ensures Valid() && old(trace) <= trace && old(issued) <= issued
      ensures r.Failed? ==> r.error == Environment
      ensures r.Done? ==> var (state, d) := r.value;
        && durable == Some(state) && SameButDocuments(begun, state, begun.pending.value.documents + [d])
        && d == Document(c, d.wizardId, Created, None, [], None)
        && IsUuid(d.wizardId) && d.wizardId !in old(issued) && d.wizardId in issued
    {
      var created := CreateWizard();
      if created.Failed? {
        return Failed(created.error);
      }
      var d := Document(c, created.value, Created, None, [], None);
      Guarded();
      var now := Timestamp();
      CreateAllowed(checks, begun, d, now);
      var next := RecordReplacementDocument(checks, begun, d, now);
      if next.Err? {
        return Failed(TransitionRefused);
      }
      var written := Record(next.value, {d.wizardId}, WroteDocument(d, now));
      return if written then Done((next.value, d)) else Failed(Environment);
    }

    /** After the save task finished: record exactly what the store now holds. */
    method FinishSave(begun: State, ghost front: seq<Document>, submitted: Document) returns (r: Attempt<State>)
      requires Valid() && durable == Some(begun) && submitted.wizardId in issued
      requires begun.pending.Some? && begun.pending.value.verifiedAt.None?
      requires begun.pending.value.documents == front + [submitted]
      requires DocumentOk(submitted) && submitted.status == SaveSubmitted
      modifies this`durable, this`issued, this`trace
      ensures Valid() && old(trace) <= trace && issued == old(issued)
      ensures r.Failed? ==> r.error == Environment
      ensures r.Done? ==> durable == Some(r.value) && SavedLast(hash, store, begun, r.value, front, submitted)
    {
      var integrity := InspectDocument(submitted);
      if integrity.Failed? {
        return Failed(Environment);
      }
      var ids := SortIds(integrity.value.Keys);
      assert Prints(integrity.value);
      var complete := submitted.(status := Saved, chunkIds := ids, fingerprint := Some(hash(integrity.value)));
      assert forall x :: x in store.Of(submitted.collection) ==> IsUuid(x) by {
        Guarded();
      }
      CompleteOk(store, submitted, complete);
      r := Advance(begun, front, submitted, complete);
      if r.Done? {
        assert SavedAs(hash, store, begun, r.value, front, submitted, complete);
      }
    }

    method SaveDocument(begun: State, ghost front: seq<Document>, document: Document) returns (r: Attempt<State>)
      requires Valid() && durable == Some(begun) && document.wizardId in issued
      requires begun.pending.Some? && begun.pending.value.verifiedAt.None?
      requires begun.pending.value.documents == front + [document]
      requires DocumentOk(document) && document.status == Created
      modifies this`durable, this`issued, this`store, this`trace
      ensures Valid() && old(trace) <= trace && issued == old(issued)
      ensures forall x :: !SameIdentity(x, document) ==> ChunksOf(store, x) == ChunksOf(old(store), x)
      ensures r.Failed? ==> r.error == Environment
      ensures r.Done? ==> durable == Some(r.value) && SavedLast(hash, store, begun, r.value, front, document)
    {
      var submitting := document.(status := SaveSubmitting);
      var recorded := Advance(begun, front, document, submitting);
      if recorded.Failed? {
        return recorded;
      }
      var state := recorded.value;
      assert (front + [submitting])[|front|] == submitting;
      SaveRuns(submitting);
      var task: Id := *;
      var accepted := Ask();
      if !accepted || !IsUuid(task) {
        return Failed(Environment);
      }
      var submitted := submitting.(status := SaveSubmitted, taskId := Some(task));
      recorded := Advance(state, front, submitting, submitted);
      if recorded.Failed? {
        return recorded;
      }
      state := recorded.value;
      assert (front + [submitted])[|front|] == submitted;
      SaveRuns(submitted);
      var finished := Ask();
      if !finished {
        return Failed(Environment);
      }
      r := FinishSave(state, front, submitted);
      if r.Done? {
        ghost var saved :| SavedAs(hash, store, state, r.value, front, submitted, saved);
        assert SavedAs(hash, store, begun, r.value, front, document, saved);
      }
    }

    method SeedCollection(c: Collection, begun: State) returns (r: Attempt<State>)
      requires Valid() && durable == Some(begun)
      requires begun.pending.Some? && begun.pending.value.verifiedAt.None?
      requires forall x :: x in begun.pending.value.documents ==> x.collection != c && Whole(hash, store, x)
      modifies this`durable, this`issued, this`store, this`trace
      ensures Valid() && old(trace) <= trace && old(issued) <= issued
      ensures r.Failed? ==> r.error == Environment
      ensures r.Done? ==> durable == Some(r.value) && Seeded(begun, r.value, c, old(issued))
      ensures r.Done? ==> AllWhole(hash, store, DocumentsOf(r.value.pending))
    {
      var creation := CreateDocument(c, begun);
      if creation.Failed? {
        return Failed(creation.error);
      }
      var (state, document) := creation.value;
      var uploaded := Ask();
      if !uploaded {
        return Failed(Environment);
      }
      r := SaveDocument(state, begun.pending.value.documents, document);
      if r.Done? {
        ghost var saved :| SavedAs(hash, store, state, r.value, begun.pending.value.documents, document, saved);
        assert SeededBy(begun, r.value, c, old(issued), saved);
      }
    }

    // ------------------------------------------------------------------- one run

    lemma PairStands(g: Generation)
      requires Valid() && durable.Some? && (durable.value.active == Some(g) || durable.value.pending == Some(g))
      requires Complete(g.documents) && AllWhole(hash, store, g.documents)
      ensures DocumentsOk(g.documents) && Stands(hash, store, g)
      ensures durable.value.pending == Some(g) ==> Admissible(durable, store)
    {
      Guarded();
      WholeStands(checks, hash, Now(), g);
      AcceptedExactlyOutsideWindow(checks, hash, Now());
    }

    lemma VerifiedAllowed(s: State, verifiedAt: string, now: string)
      requires Valid() && durable == Some(s) && s.pending.Some? && s.pending.value.verifiedAt.None?
      requires Complete(s.pending.value.documents) && checks.timestampOk(verifiedAt)
      ensures MarkReplacementVerified(checks, s, verifiedAt, now).Ok?
    {
      Guarded();
    }

    lemma PromotedAllowed(s: State, completedAt: string, now: string)
      requires Valid() && durable == Some(s) && s.pending.Some? && s.pending.value.verifiedAt.Some?
      requires checks.timestampOk(completedAt)
      ensures PromoteReplacement(checks, s, completedAt, now).Ok?
    {
      Guarded();
    }

    method MarkVerified(begun: State) returns (r: Attempt<State>)
      requires Valid() && durable == Some(begun)
      requires begun.pending.Some? && begun.pending.value.verifiedAt.None? && Complete(begun.pending.value.documents)
      modifies this`durable, this`issued, this`trace
      ensures Valid() && old(trace) <= trace && old(issued) <= issued
      ensures r.Failed? ==> r.error == Environment
      ensures r.Done? ==> durable == Some(r.value) && r.value.pending.Some? && r.value.pending.value.verifiedAt.Some?
      ensures r.Done? ==> r.value.pending.value == begun.pending.value.(verifiedAt := r.value.pending.value.verifiedAt)
    {
      var verifiedAt := Timestamp();
      var now := Timestamp();
      VerifiedAllowed(begun, verifiedAt, now);
      var marked := MarkReplacementVerified(checks, begun, verifiedAt, now);
      if marked.Err? {
        return Failed(TransitionRefused);
      }
      var written := Record(marked.value, {}, WroteVerified(verifiedAt, now));
      return if written then Done(marked.value) else Failed(Environment);
    }

    method Promote(begun: State) returns (r: Attempt<State>)
      requires Valid() && durable == Some(begun) && begun.pending.Some? && begun.pending.value.verifiedAt.Some?
      requires AllWhole(hash, store, begun.pending.value.documents)
      modifies this`durable, this`issued, this`trace
      ensures Valid() && old(trace) <= trace && old(issued) <= issued
      ensures r.Failed? ==> r.error == Environment
      ensures r.Done? ==> durable == Some(r.value) && r.value.active.Some? && r.value.pending.None?
      ensures r.Done? ==>
        r.value.active.value == begun.pending.value.(completedAt := r.value.active.value.completedAt)
    {
      var completedAt := Timestamp();
      var now := Timestamp();
      PromotedAllowed(begun, completedAt, now);
      var promoted := PromoteReplacement(checks, begun, completedAt, now);
      if promoted.Err? {
        return Failed(TransitionRefused);
      }
      var written := Record(promoted.value, {}, WrotePromoted(completedAt, now));
      return if written then Done(promoted.value) else Failed(Environment);
    }

    method VerifyAndPromote(begun: State) returns (r: Attempt<State>)
      requires Valid() && durable == Some(begun)
      requires begun.pending.Some? && begun.pending.value.verifiedAt.None?
      requires Complete(begun.pending.value.documents)
      requires AllWhole(hash, store, begun.pending.value.documents)
      modifies this`durable, this`issued, this`trace
      ensures Valid() && old(trace) <= trace && old(issued) <= issued
      ensures r.Failed? ==> r.error == Environment
      ensures r.Done? ==> durable == Some(r.value) && r.value.active.Some? && r.value.pending.None?
      ensures r.Done? ==> r.value.active.value == begun.pending.value.(
        verifiedAt := r.value.active.value.verifiedAt, completedAt := r.value.active.value.completedAt)
    {
      var textsMatch := Ask();
      if !textsMatch {
        return Failed(Environment);
      }
      PairStands(begun.pending.value);
      var verified := VerifyGeneration(begun.pending.value);
      if verified.Failed? {
        return Failed(verified.error);
      }
      var accepted := ValidateMembership(Some(begun));
      if accepted.Failed? {
        return Failed(accepted.error);
      }
      r := MarkVerified(begun);
      if r.Done? {
        r := Promote(r.value);
      }
    }

    method Begin(begun: State, runId: string, fixtures: Fixtures, policy: IngestionPolicy) returns (r: Attempt<State>)
      requires Valid() && durable == Some(begun) && begun.pending.None?
      requires runId != [] && FixturesOk(checks, fixtures) && PolicyOk(policy)
      modifies this`durable, this`issued, this`trace
      ensures Valid() && old(trace) <= trace && issued == old(issued)
      ensures r.Failed? ==> r.error == Environment
      ensures r.Done? ==> durable == Some(r.value) && r.value.active == begun.active && r.value.pending.Some?
      ensures r.Done? ==> var g := r.value.pending.value;
        g == Generation(runId, fixtures, policy, [], g.createdAt, None, None)
    {
      var createdAt := Timestamp();
      var now := Timestamp();
      var next := BeginReplacement(checks, begun, runId, fixtures, policy, createdAt, now);
      if next.Err? {
        return Failed(TransitionRefused);
      }
      var written := Record(next.value, {}, WroteBegin(runId, fixtures, policy, createdAt, now));
      return if written then Done(next.value) else Failed(Environment);
    }

    /** The loop over the collections: each gets one new saved document. */
    method SeedAll(begun: State) returns (r: Attempt<State>)
      requires Valid() && durable == Some(begun)
      requires begun.pending.Some? && begun.pending.value.verifiedAt.None? && begun.pending.value.documents == []
      modifies this`durable, this`issued, this`store, this`trace
      ensures Valid() && old(trace) <= trace && old(issued) <= issued
      ensures r.Failed? ==> r.error == Environment
      ensures r.Done? ==> durable == Some(r.value)
      ensures r.Done? ==> var documents := DocumentsOf(r.value.pending);
        && SameButDocuments(begun, r.value, documents) && AllWhole(hash, store, documents)
        && OnePerName(documents, |COLLECTIONS|, old(issued))
    {
      var state := begun;
      for i := 0 to |COLLECTIONS|
        invariant Valid() && old(trace) <= trace && old(issued) <= issued
        invariant durable == Some(state) && SameButDocuments(begun, state, DocumentsOf(state.pending))
        invariant AllWhole(hash, store, DocumentsOf(state.pending))
        invariant OnePerName(DocumentsOf(state.pending), i, old(issued))
      {
        ghost var documents, was := DocumentsOf(state.pending), issued;
        NoneYet(documents, i, old(issued));
        var recorded := SeedCollection(COLLECTIONS[i], state);
        if recorded.Failed? {
          return recorded;
        }
        ghost var d :| SeededBy(state, recorded.value, COLLECTIONS[i], was, d);
        state := recorded.value;
      }
      return Done(state);
    }

    /** A whole new generation is written, verified and promoted. */
    method Replace(begun: State, runId: string, fixtures: Fixtures, policy: IngestionPolicy) returns (r: Attempt<State>)
      requires Valid() && durable == Some(begun) && begun.pending.None?
      requires runId != [] && FixturesOk(checks, fixtures) && PolicyOk(policy)
      modifies this`durable, this`issued, this`store, this`trace
      ensures Valid() && old(trace) <= trace && old(issued) <= issued
      ensures r.Failed? ==> r.error == Environment
      ensures r.Done? ==> durable == Some(r.value) && r.value.active.Some? && r.value.pending.None?
      ensures r.Done? ==> FreshGeneration(r.value.active.value, runId, fixtures, policy, old(issued))
    {
      var recorded := Begin(begun, runId, fixtures, policy);
      if recorded.Failed? {
        return recorded;
      }
      recorded := SeedAll(recorded.value);
      if recorded.Failed? {
        return recorded;
      }
      PairComplete(hash, store, DocumentsOf(recorded.value.pending), old(issued));
      r := VerifyAndPromote(recorded.value);
    }

    lemma PolicyAllowed(s: State, fixtures: Fixtures, policy: IngestionPolicy, now: string)
      requires Valid() && durable == Some(s) && s.active.Some? && PolicyOk(policy)
      requires s.active.value.fixtures.digest == fixtures.digest
      ensures RecordActivePolicy(checks, s, fixtures, policy, now).Ok?
    {
      Guarded();
    }

    method RefreshPolicy(begun: State, fixtures: Fixtures, policy: IngestionPolicy) returns (r: Attempt<()>)
      requires Valid() && durable == Some(begun) && begun.active.Some? && PolicyOk(policy)
      requires begun.active.value.fixtures.digest == fixtures.digest
      modifies this`durable, this`issued, this`trace
      ensures Valid() && old(trace) <= trace && issued == old(issued)
      ensures r.Failed? ==> r.error == Environment
      ensures r.Done? ==> durable.Some? && durable.value == begun.(
        active := Some(begun.active.value.(policy := policy)), updatedAt := durable.value.updatedAt)
    {
      var now := Timestamp();
      PolicyAllowed(begun, fixtures, policy, now);
      var next := RecordActivePolicy(checks, begun, fixtures, policy, now);
      if next.Err? {
        return Failed(TransitionRefused);
      }
      var written := Record(next.value, {}, WrotePolicy(fixtures, policy, now));
      return if written then Done(()) else Failed(Environment);
    }

    /** The reuse path: nothing is replaced; only the recorded ingestion policy may be refreshed. */
    method Reuse(begun: State, fixtures: Fixtures, policy: IngestionPolicy) returns (r: Attempt<()>)
      requires Valid() && durable == Some(begun) && begun.active.Some?
      requires begun.pending.None? && begun.cleanup == [] && PolicyOk(policy)
      modifies this`durable, this`issued, this`trace
      ensures Valid() && old(trace) <= trace && issued == old(issued)
      ensures r.Failed? ==> r.error in {Environment, FixturesChanged}
      ensures r == Failed(FixturesChanged) <==> begun.active.value.fixtures.digest != fixtures.digest
      ensures r == Failed(FixturesChanged) ==> trace == old(trace)
      ensures r.Done? ==> durable.Some? && durable.value == begun.(
        active := Some(begun.active.value.(policy := policy)), updatedAt := durable.value.updatedAt)
    {
      if begun.active.value.fixtures.digest != fixtures.digest {
        return Failed(FixturesChanged);
      }
      ActiveStands(begun);
      var verified := VerifyGeneration(begun.active.value);
      if verified.Failed? {
        return Failed(verified.error);
      }
      var accepted := ValidateMembership(Some(begun));
      if accepted.Failed? {
        return Failed(accepted.error);
      }
      if begun.active.value.policy != policy {
        r := RefreshPolicy(begun, fixtures, policy);
        return;
      }
      return Done(());
    }

    lemma ActiveStands(s: State)
      requires Valid() && durable == Some(s) && s.active.Some? && s.pending.None? && s.cleanup == []
      ensures DocumentsOk(s.active.value.documents) && Stands(hash, store, s.active.value)
      ensures Admissible(durable, store) && ExactlyActive(hash, s, store)
    {
      Guarded();
      PairStands(s.active.value);
      CleanIsExact(checks, hash, Now());
    }

    /** A first state file, or recovery from whatever earlier runs left. */
    method Recover(user: string) returns (r: Attempt<State>)
      requires Valid()
      modifies this`durable, this`issued, this`store, this`trace
      ensures Valid() && old(trace) <= trace && issued == old(issued)
      ensures r.Failed? ==> r.error in {Environment, MembershipRefused}
      ensures r == Failed(MembershipRefused) ==> !Admissible(old(durable), old(store))
      ensures !Admissible(old(durable), old(store)) ==> r.Failed? && trace == old(trace) && Now() == old(Now())
      ensures r.Done? ==> durable == Some(r.value) && r.value.pending.None? && r.value.cleanup == []
      ensures r.Done? ==> r.value.active == (if old(durable).Some? then old(durable).value.active else None)
      ensures BelongsTo(Now(), OwnerOf(old(durable), user))
    {
      var accepted := ValidateMembership(durable);
      if accepted.Failed? {
        return Failed(accepted.error);
      }
      if durable.None? {
        var now := Timestamp();
        var state := NewState(user, now);
        var written := Record(state, {}, WroteNew(user, now));
        return if written then Done(state) else Failed(Environment);
      }
      r := CleanupPending(durable.value);
      PathKeepsUser(checks, hash, trace, |old(trace)| - 1, |trace| - 1);
    }

    /** The history of a run for one user, from a point at which the state file is that user's. */
    lemma AllBelong(m: nat, user: string)
      requires Valid() && m < |trace| && BelongsTo(trace[m], user) && (trace[m].durable.Some? || m == |trace| - 1)
      ensures forall n :: 0 <= n < |trace| ==> BelongsTo(trace[n], user)
    {
      PathBelongs(checks, hash, trace, m, user);
    }

    /** After the promotion: the old generation is deleted, and the new one checked once more. */
    method Conclude(begun: State) returns (r: Attempt<()>)
      requires Valid() && durable == Some(begun) && begun.active.Some? && begun.pending.None?
      modifies this`durable, this`issued, this`store, this`trace
      ensures Valid() && old(trace) <= trace
      ensures r.Failed? ==> r.error == Environment
      ensures r.Done? ==> durable.Some? && durable.value.active == begun.active && durable.value.pending.None?
      ensures r.Done? ==> durable.value.cleanup == [] && ExactlyActive(hash, durable.value, store)
      ensures r.Done? ==> Stands(hash, store, begun.active.value)
    {
      Guarded();
      AcceptedExactlyOutsideWindow(checks, hash, Now());
      var finished := CleanupPending(begun);
      if finished.Failed? {
        return Failed(finished.error);
      }
      var state := finished.value;
      ActiveStands(state);
      var verified := VerifyGeneration(state.active.value);
      if verified.Failed? {
        return Failed(verified.error);
      }
      var accepted := ValidateMembership(Some(state));
      return if accepted.Done? then Done(()) else Failed(accepted.error);
    }

    method ReuseActive(begun: State, fixtures: Fixtures, policy: IngestionPolicy) returns (r: Attempt<()>)
      requires Valid() && durable == Some(begun) && begun.active.Some?
      requires begun.pending.None? && begun.cleanup == [] && PolicyOk(policy)
      modifies this`durable, this`issued, this`trace
      ensures Valid() && old(trace) <= trace && issued == old(issued)
      ensures r.Failed? ==> r.error in {Environment, FixturesChanged}
      ensures r == Failed(FixturesChanged) <==> begun.active.value.fixtures.digest != fixtures.digest
      ensures r.Done? ==> durable.Some? && durable.value.active == Some(begun.active.value.(policy := policy))
      ensures r.Done? ==> durable.value.pending.None? && durable.value.cleanup == []
      ensures r.Done? ==> ExactlyActive(hash, durable.value, store) && Stands(hash, store, durable.value.active.value)
    {
      r := Reuse(begun, fixtures, policy);
      if r.Done? {
        ActiveStands(durable.value);
      }
    }

    method ReplaceActive(begun: State, runId: string, fixtures: Fixtures, policy: IngestionPolicy) returns (r: Attempt<()>)
      requires Valid() && durable == Some(begun) && begun.pending.None?
      requires runId != [] && FixturesOk(checks, fixtures) && PolicyOk(policy)
      modifies this`durable, this`issued, this`store, this`trace
      ensures Valid() && old(trace) <= trace
      ensures r.Failed? ==> r.error == Environment
      ensures r.Done? ==> durable.Some? && durable.value.active.Some? && durable.value.pending.None?
      ensures r.Done? ==> durable.value.cleanup == [] && ExactlyActive(hash, durable.value, store)
      ensures r.Done? ==> Stands(hash, store, durable.value.active.value)
      ensures r.Done? ==> FreshGeneration(durable.value.active.value, runId, fixtures, policy, old(issued))
    {
      var replaced := Replace(begun, runId, fixtures, policy);
      if replaced.Failed? {
        return Failed(replaced.error);
      }
      r := Conclude(replaced.value);
    }

    /** One run of ensure_persistent_corpus, from any world earlier runs may have left. */
    method EnsurePersistentCorpus(fixtures: Fixtures, policy: IngestionPolicy, user: string, runId: string, reseed: bool)
        returns (r: Attempt<Outcome>)
      requires Valid()
      requires runId != [] && FixturesOk(checks, fixtures) && PolicyOk(policy)
      modifies this`durable, this`issued, this`store, this`trace
      // Whatever happens, the history grows by legal steps only.
      ensures Valid() && old(trace) <= trace
      // A state file that was there keeps its user, and a new one is this user's, at every point.
      ensures forall n :: 0 <= n < |trace| ==> BelongsTo(trace[n], OwnerOf(old(durable), user))
      // The program's own transition guards and content checks never fail.
      ensures r.Failed? ==> r.error in {Environment, MembershipRefused, FixturesChanged}
      // A start state that is not admissible is refused without touching anything.
      ensures r == Failed(MembershipRefused) ==> !Admissible(old(durable), old(store))
      ensures !Admissible(old(durable), old(store)) ==> r.Failed? && trace == old(trace) && Now() == old(Now())
      // A changed fixture corpus is reported exactly when an active generation may not be reseeded.
      ensures r == Failed(FixturesChanged) ==> !reseed && Had(old(durable), fixtures.digest, false)
      ensures r.Done? && !reseed ==> (r.value == Reused <==> Had(old(durable), fixtures.digest, true))
      // A run that returns leaves one clean, whole, active generation and nothing else.
      ensures r.Done? ==> durable.Some? && durable.value.active.Some? && durable.value.pending.None?
                          && durable.value.cleanup == [] && ExactlyActive(hash, durable.value, store)
      ensures r.Done? ==> var g := durable.value.active.value;
        && Stands(hash, store, g) && g.fixtures.digest == fixtures.digest && g.policy == policy
      ensures r == Done(Reused) ==>
        && !reseed && old(durable).Some? && old(durable).value.active.Some? && issued == old(issued)
        && durable.value.active.value == old(durable).value.active.value.(policy := policy)
      ensures r.Done? && r.value != Reused ==>
        && FreshGeneration(durable.value.active.value, runId, fixtures, policy, old(issued))
        && (r.value == Reseeded <==> old(durable).Some? && old(durable).value.active.Some?)
    {
      var hadActive := durable.Some? && durable.value.active.Some?;
      var recovered := Recover(user);
      ghost var start, owner := |trace| - 1, OwnerOf(old(durable), user);
      if recovered.Failed? {
        AllBelong(start, owner);
        return Failed(recovered.error);
      }
      var state := recovered.value;
      if state.active.Some? && !reseed {
        var reused := ReuseActive(state, fixtures, policy);
        AllBelong(start, owner);
        return if reused.Done? then Done(Reused) else Failed(reused.error);
      }
      var replaced := ReplaceActive(state, runId, fixtures, policy);
      AllBelong(start, owner);
      if replaced.Failed? {
        return Failed(replaced.error);
      }
      return Done(if hadActive then Reseeded else CreatedNew);
    }
  }

  lemma NothingVanished(store: Store, d: Document)
    ensures Vanished(store, store, d, {})
  {
  }

  lemma VanishedTwice(a: Store, b: Store, c: Store, d: Document, g: set<Id>, g': set<Id>)
    requires Vanished(a, b, d, g) && Vanished(b, c, d, g')
    ensures Vanished(a, c, d, g + g')
  {
    assert a.Of(d.collection) - g - g' == a.Of(d.collection) - (g + g');
  }

  /** After some batches, exactly the ids not yet offered survive. */
  lemma SurvivorsOf(a: Store, b: Store, d: Document, ids: seq<Id>, offset: nat)
    requires Elements(ids) == ChunksOf(a, d).Keys && offset <= |ids|
    requires Distinct(ids)
    requires Vanished(a, b, d, Elements(ids[..offset]))
    ensures ChunksOf(b, d).Keys == Elements(ids[offset..])
  {
    assert ids == ids[..offset] + ids[offset..];
    assert ChunksOf(b, d).Keys == ChunksOf(a, d).Keys - Elements(ids[..offset]);
    forall x | x in ids[offset..] ensures x !in ids[..offset] {
      var j := At(ids[offset..], x);
      assert forall i :: 0 <= i < offset ==> ids[i] != ids[offset + j];
    }
  }

  lemma VanishedShrinks(a: Store, b: Store, d: Document, x: Document)
    requires exists gone :: Vanished(a, b, d, gone)
    ensures ChunksOf(b, x).Keys <= ChunksOf(a, x).Keys
    ensures ChunksOf(a, x) == map[] ==> ChunksOf(b, x) == map[]
  {
    assert ChunksOf(b, x).Keys == {} ==> ChunksOf(b, x) == map[];
  }

  predicate AllEmpty(store: Store, documents: seq<Document>) {
    forall d :: d in documents ==> ChunksOf(store, d) == map[]
  }

  lemma AllShrink(a: Store, b: Store, documents: seq<Document>, i: nat)
    requires i < |documents| && exists gone :: Vanished(a, b, documents[i], gone)
    requires AllEmpty(a, documents[..i]) && ChunksOf(b, documents[i]) == map[]
    ensures AllEmpty(b, documents[..i + 1])
  {
    forall d | d in documents[..i + 1] ensures ChunksOf(b, d) == map[] {
      if d in documents[..i] {
        VanishedShrinks(a, b, documents[i], d);
      }
    }
  }

  predicate SavedAs(h: Hash, store: Store, s: State, s': State, front: seq<Document>, d: Document, saved: Document)
    requires s.pending.Some?
  {
    SameButDocuments(s, s', front + [saved]) && SameIdentity(saved, d) && Whole(h, store, saved)
  }

  /** The document was recorded as saved, with exactly the chunks the store holds. */
  ghost predicate SavedLast(h: Hash, store: Store, s: State, s': State, front: seq<Document>, d: Document)
    requires s.pending.Some?
  {
    exists saved :: SavedAs(h, store, s, s', front, d, saved)
  }

  predicate SeededBy(s: State, s': State, c: Collection, issued: set<Id>, d: Document)
    requires s.pending.Some?
  {
    && SameButDocuments(s, s', s.pending.value.documents + [d])
    && d.collection == c && d.wizardId !in issued
  }

  /** One document of the collection, under an id never issued before, was added. */
  ghost predicate Seeded(s: State, s': State, c: Collection, issued: set<Id>)
    requires s.pending.Some?
  {
    exists d :: SeededBy(s, s', c, issued, d)
  }

  /** There was an active generation, and whether its fixtures had this digest. */
  /** Whose the state file is after a run for this user. */
  function OwnerOf(durable: Option<State>, user: string): string {
    if durable.Some? then durable.value.user else user
  }

  predicate Had(durable: Option<State>, digest: string, same: bool) {
    durable.Some? && durable.value.active.Some? && (durable.value.active.value.fixtures.digest == digest) == same
  }

  /** The documents follow the collections' order, under ids never issued before. */
  predicate OnePerName(documents: seq<Document>, n: nat, issued: set<Id>)
    requires n <= |COLLECTIONS|
  {
    && |documents| == n
    && forall i :: 0 <= i < n ==> documents[i].collection == COLLECTIONS[i] && documents[i].wizardId !in issued
  }

  lemma NoneYet(documents: seq<Document>, n: nat, issued: set<Id>)
    requires n < |COLLECTIONS| && OnePerName(documents, n, issued)
    ensures forall d :: d in documents ==> d.collection != COLLECTIONS[n]
  {
    assert COLLECTIONS[0] == Knowledge && COLLECTIONS[1] == Policy;
  }

  /** The generation this very run built. */
  predicate FreshGeneration(
    g: Generation, runId: string, fixtures: Fixtures, policy: IngestionPolicy, issued: set<Id>)
  {
    && g.generationId == runId && g.fixtures == fixtures && g.policy == policy
    && OnePerName(g.documents, |COLLECTIONS|, issued)
  }

  lemma PairComplete(h: Hash, store: Store, documents: seq<Document>, issued: set<Id>)
    requires OnePerName(documents, |COLLECTIONS|, issued) && AllWhole(h, store, documents)
    ensures Complete(documents)
  {
    assert documents[0].collection == Knowledge && documents[1].collection == Policy;
    assert Covers(documents, Knowledge) && Covers(documents, Policy);
    assert forall i :: 0 <= i < |documents| ==> documents[i] in documents;
  }
}
