/** What every step of the protocol keeps, and what it never touches. */
module CorpusSafety {
  import opened Ordering
  import opened Text
  import opened Corpus
  import opened CorpusProtocol

  // -------------------------------------------------- identities within one state

  lemma At<T>(s: seq<T>, x: T) returns (i: nat)
    requires x in s
    ensures i < |s| && s[i] == x
  {
    i :| 0 <= i < |s| && s[i] == x;
  }

  lemma ApartIn(front: seq<Document>, back: seq<Document>, a: Document, b: Document)
    requires DistinctIdentities(front + back)
    requires a in front && b in back
    ensures !SameIdentity(a, b)
  {
    var i := At(front, a);
    var j := At(back, b);
    assert (front + back)[i] == a && (front + back)[|front| + j] == b;
  }

  /** The three groups of documents never share an identity, and within all of them an
      identity names one document. */
  lemma Apart(s: State, a: Document, b: Document)
    requires DistinctIdentities(AllDocuments(s))
    requires a in AllDocuments(s) && b in AllDocuments(s) && SameIdentity(a, b)
    ensures a == b
    ensures a in DocumentsOf(s.active) ==> !Retiring(s, b)
    ensures a in DocumentsOf(s.pending) ==> b !in s.cleanup
  {
    var active, pending := DocumentsOf(s.active), DocumentsOf(s.pending);
    var i := At(AllDocuments(s), a);
    var j := At(AllDocuments(s), b);
    assert i == j;
    assert AllDocuments(s) == active + (pending + s.cleanup) == (active + pending) + s.cleanup;
    if a in active && b in pending + s.cleanup {
      ApartIn(active, pending + s.cleanup, a, b);
    }
    if a in active + pending && b in s.cleanup {
      ApartIn(active + pending, s.cleanup, a, b);
    }
  }

  lemma InsertDistinct(front: seq<Document>, d: Document, back: seq<Document>)
    requires DistinctIdentities(front + back)
    requires forall x :: x in front + back ==> !SameIdentity(x, d)
    ensures DistinctIdentities(front + [d] + back)
  {
    var was, now := front + back, front + [d] + back;
    forall i, j | 0 <= i < j < |now| ensures !SameIdentity(now[i], now[j]) {
      var n := |front|;
      assert i < n ==> now[i] == was[i] && now[i] in was;
      assert i > n ==> now[i] == was[i - 1];
      assert j < n ==> now[j] == was[j];
      assert j > n ==> now[j] == was[j - 1] && now[j] in was;
    }
  }

  lemma PointwiseDistinct(was: seq<Document>, now: seq<Document>)
    requires DistinctIdentities(was) && |was| == |now|
    requires forall i :: 0 <= i < |was| ==> SameIdentity(was[i], now[i])
    ensures DistinctIdentities(now)
  {
    forall i, j | 0 <= i < j < |now| ensures !SameIdentity(now[i], now[j]) {
      assert SameIdentity(was[i], now[i]) && SameIdentity(was[j], now[j]);
    }
  }

  lemma MemberOk(k: Checks, s: State, d: Document)
    requires Loadable(k, s) && d in AllDocuments(s)
    ensures DocumentOk(d)
    ensures d in DocumentsOf(s.active) || d in s.cleanup ==> d.status == Saved
  {
  }

  // ---------------------------------------------- every transition stays loadable

  lemma PolicyLoadable(k: Checks, s: State, fixtures: Fixtures, policy: IngestionPolicy, now: string)
    requires Loadable(k, s) && k.timestampOk(now)
    requires RecordActivePolicy(k, s, fixtures, policy, now).Ok?
    ensures Loadable(k, RecordActivePolicy(k, s, fixtures, policy, now).value)
    ensures AllDocuments(RecordActivePolicy(k, s, fixtures, policy, now).value) == AllDocuments(s)
  {
  }

  lemma BeginLoadable(k: Checks, s: State, runId: string, fixtures: Fixtures, policy: IngestionPolicy,
                      createdAt: string, now: string)
    requires Loadable(k, s) && k.timestampOk(now) && k.timestampOk(createdAt)
    requires BeginReplacement(k, s, runId, fixtures, policy, createdAt, now).Ok?
    ensures Loadable(k, BeginReplacement(k, s, runId, fixtures, policy, createdAt, now).value)
    ensures AllDocuments(BeginReplacement(k, s, runId, fixtures, policy, createdAt, now).value) == AllDocuments(s)
  {
  }

  /** Recording a document either appends a new one or advances the one of its collection. */
  predicate Recorded(s: State, s': State, d: Document, prior: Option<Document>) {
    && s'.active == s.active && s'.cleanup == s.cleanup && s'.pending.Some? && s.pending.Some?
    && s.pending.value.verifiedAt.None? && s'.pending.value.verifiedAt.None?
    && var documents, documents' := s.pending.value.documents, s'.pending.value.documents;
    && d in documents'
    && (prior.None? ==> d.status == Created && documents' == documents + [d])
    && (prior.Some? ==>
      && prior.value in documents && Advances(prior.value, d)
      && |documents'| == |documents|
      && (forall i :: 0 <= i < |documents| ==> SameIdentity(documents[i], documents'[i])))
    && (forall x :: x in documents' && x != d ==> x in documents)
    && (forall x :: x in documents && Some(x) != prior ==> x in documents')
  }

  /** The only change a document may undergo: its next status, never a new identity or task. */
  predicate Advances(d: Document, d': Document) {
    && SameIdentity(d, d')
    && NextStatus(d.status) == Some(d'.status)
    && (d.taskId.Some? ==> d'.taskId == d.taskId)
  }

  /** Substituting at one place keeps the other documents where they are. */
  lemma SubstituteShape(documents: seq<Document>, d: Document, prior: Document)
    requires prior in documents && prior.collection == d.collection
    requires OnePerCollection(documents)
    ensures var changed := Substitute(documents, d);
      && d in changed && changed + [] == changed
      && (forall x :: x in changed && x != d ==> x in documents)
      && (forall x :: x in documents && x != prior ==> x in changed)
  {
    var changed := Substitute(documents, d);
    var i := At(documents, prior);
    assert changed[i] == d;
    forall x | x in documents && x != prior ensures x in changed {
      var j := At(documents, x);
      assert changed[j] == x;
    }
    forall x | x in changed && x != d ensures x in documents {
      var j := At(changed, x);
      assert documents[j] == x;
    }
  }

  lemma RecordShape(k: Checks, s: State, d: Document, now: string) returns (prior: Option<Document>)
    requires Loadable(k, s)
    requires RecordReplacementDocument(k, s, d, now).Ok?
    ensures Recorded(s, RecordReplacementDocument(k, s, d, now).value, d, prior)
  {
    var documents := s.pending.value.documents;
    prior := s.pending.value.Find(d.collection);
    var changed := Substitute(documents, d);
    if prior.None? {
      assert changed == documents;
    } else {
      SubstituteShape(documents, d, prior.value);
    }
  }

  lemma OneOfItsCollection(k: Checks, s: State, d: Document, now: string)
    requires RecordReplacementDocument(k, s, d, now).Ok?
    ensures var documents := DocumentsOf(RecordReplacementDocument(k, s, d, now).value.pending);
      forall x :: x in documents && x.collection == d.collection ==> x == d
  {
  }

  lemma RecordLoadable(k: Checks, s: State, d: Document, now: string)
    requires Loadable(k, s) && k.timestampOk(now) && DocumentOk(d)
    requires RecordReplacementDocument(k, s, d, now).Ok?
    requires d.status == Created ==> forall x :: x in AllDocuments(s) ==> x.wizardId != d.wizardId
    ensures Loadable(k, RecordReplacementDocument(k, s, d, now).value)
  {
    var s' := RecordReplacementDocument(k, s, d, now).value;
    var prior := RecordShape(k, s, d, now);
    var p, p' := s.pending.value.documents, s'.pending.value.documents;
    forall i | 0 <= i < |p'| ensures DocumentOk(p'[i]) {
      assert p'[i] == d || p'[i] in p;
    }
    RecordedDistinct(s, s', d, prior);
  }

  lemma RecordedDistinct(s: State, s': State, d: Document, prior: Option<Document>)
    requires Recorded(s, s', d, prior) && DistinctIdentities(AllDocuments(s))
    requires prior.None? ==> forall x :: x in AllDocuments(s) ==> x.wizardId != d.wizardId
    ensures DistinctIdentities(AllDocuments(s'))
  {
    var a, p, p' := DocumentsOf(s.active), s.pending.value.documents, s'.pending.value.documents;
    assert AllDocuments(s') == a + p' + s.cleanup;
    if prior.None? {
      assert a + p + s.cleanup == AllDocuments(s);
      InsertDistinct(a + p, d, s.cleanup);
      assert a + p + [d] + s.cleanup == a + p' + s.cleanup;
    } else {
      PointwiseDistinct(AllDocuments(s), AllDocuments(s'));
    }
  }

  lemma VerifiedLoadable(k: Checks, s: State, verifiedAt: string, now: string)
    requires Loadable(k, s) && k.timestampOk(now)
    requires MarkReplacementVerified(k, s, verifiedAt, now).Ok?
    ensures Loadable(k, MarkReplacementVerified(k, s, verifiedAt, now).value)
    ensures AllDocuments(MarkReplacementVerified(k, s, verifiedAt, now).value) == AllDocuments(s)
  {
  }

  lemma PromotedLoadable(k: Checks, s: State, completedAt: string, now: string)
    requires Loadable(k, s) && k.timestampOk(now)
    requires PromoteReplacement(k, s, completedAt, now).Ok?
    ensures Loadable(k, PromoteReplacement(k, s, completedAt, now).value)
  {
    var s' := PromoteReplacement(k, s, completedAt, now).value;
    var a, p := DocumentsOf(s.active), DocumentsOf(s.pending);
    assert AllDocuments(s') == p + (s.cleanup + a) by {
      assert p + [] == p;
    }
    assert AllDocuments(s) == a + p + s.cleanup;
    Rotate(a, p, s.cleanup);
    assert p + s.cleanup + a == p + (s.cleanup + a);
  }

  lemma Rotate(a: seq<Document>, p: seq<Document>, c: seq<Document>)
    requires DistinctIdentities(a + p + c)
    ensures DistinctIdentities(p + c + a)
  {
    var before, after := a + p + c, p + c + a;
    forall i, j | 0 <= i < j < |after| ensures !SameIdentity(after[i], after[j]) {
      var n := |p + c|;
      var i' := if i < n then i + |a| else i - n;
      var j' := if j < n then j + |a| else j - n;
      assert after[i] == before[i'] && after[j] == before[j'] && i' != j';
    }
  }

  lemma MiddleDropped(a: seq<Document>, p: seq<Document>, c: seq<Document>)
    requires DistinctIdentities(a + p + c)
    ensures DistinctIdentities(a + c)
  {
    var all, kept := a + p + c, a + c;
    forall i, j | 0 <= i < j < |kept| ensures !SameIdentity(kept[i], kept[j]) {
      var i' := if i < |a| then i else i + |p|;
      var j' := if j < |a| then j else j + |p|;
      assert kept[i] == all[i'] && kept[j] == all[j'];
    }
  }

  lemma DiscardLoadable(k: Checks, s: State, now: string)
    requires Loadable(k, s) && k.timestampOk(now)
    ensures Loadable(k, DiscardPendingReplacement(s, now))
  {
    MiddleDropped(DocumentsOf(s.active), DocumentsOf(s.pending), s.cleanup);
    assert AllDocuments(DiscardPendingReplacement(s, now)) == DocumentsOf(s.active) + s.cleanup;
  }

  lemma {:induction false} WithoutDistinct(front: seq<Document>, documents: seq<Document>, d: Document)
    requires DistinctIdentities(front + documents)
    ensures DistinctIdentities(front + Without(documents, d))
    decreases documents
  {
    if documents != [] {
      var x, rest := documents[0], documents[1..];
      assert front + documents == front + [x] + rest;
      if SameIdentity(x, d) {
        var all, less := front + [x] + rest, front + rest;
        forall i, j | 0 <= i < j < |less| ensures !SameIdentity(less[i], less[j]) {
          var i' := if i < |front| then i else i + 1;
          var j' := if j < |front| then j else j + 1;
          assert less[i] == all[i'] && less[j] == all[j'];
        }
        WithoutDistinct(front, rest, d);
      } else {
        WithoutDistinct(front + [x], rest, d);
        assert front + Without(documents, d) == front + [x] + Without(rest, d);
      }
    }
  }

  lemma CleanupLoadable(k: Checks, s: State, d: Document, now: string)
    requires Loadable(k, s) && k.timestampOk(now)
    requires RemovePendingCleanup(s, d, now).Ok?
    ensures Loadable(k, RemovePendingCleanup(s, d, now).value)
  {
    var s' := RemovePendingCleanup(s, d, now).value;
    WithoutDistinct(DocumentsOf(s.active) + DocumentsOf(s.pending), s.cleanup, d);
    assert forall i :: 0 <= i < |s'.cleanup| ==> s'.cleanup[i] in s.cleanup;
  }

  // ------------------------------------------------- every step keeps the invariant

  predicate Named(s: State, d: Document) {
    exists x :: x in AllDocuments(s) && SameIdentity(x, d)
  }

  lemma KnownKept(s: State, s': State, store: Store)
    requires Known(s, store)
    requires forall d :: d in AllDocuments(s) ==> ChunksOf(store, d) == map[] || Named(s', d)
    ensures Known(s', store)
  {
    forall c: Collection, x | x in store.Of(c)
      ensures exists d :: d in AllDocuments(s') && d.collection == c && d.wizardId == store.Of(c)[x].document
    {
      var d :| d in AllDocuments(s) && d.collection == c && d.wizardId == store.Of(c)[x].document;
      assert x in ChunksOf(store, d);
      var d' :| d' in AllDocuments(s') && SameIdentity(d', d);
    }
  }

  lemma BeginSafe(k: Checks, h: Hash, w: World, e: Event, w': World)
    requires Safe(k, h, w) && Step(k, h, w, e, w') && e.WroteBegin?
    ensures Safe(k, h, w')
  {
    BeginLoadable(k, w.durable.value, e.runId, e.fixtures, e.policy, e.createdAt, e.now);
    KnownKept(w.durable.value, w'.durable.value, w.store);
  }

  lemma VerifiedSafe(k: Checks, h: Hash, w: World, e: Event, w': World)
    requires Safe(k, h, w) && Step(k, h, w, e, w') && e.WroteVerified?
    ensures Safe(k, h, w')
  {
    VerifiedLoadable(k, w.durable.value, e.verifiedAt, e.now);
    KnownKept(w.durable.value, w'.durable.value, w.store);
  }

  lemma PolicySafe(k: Checks, h: Hash, w: World, e: Event, w': World)
    requires Safe(k, h, w) && Step(k, h, w, e, w') && e.WrotePolicy?
    ensures Safe(k, h, w')
  {
    PolicyLoadable(k, w.durable.value, e.fixtures, e.policy, e.now);
    KnownKept(w.durable.value, w'.durable.value, w.store);
  }

  lemma NewSafe(k: Checks, h: Hash, w: World, e: Event, w': World)
    requires Safe(k, h, w) && Step(k, h, w, e, w') && e.WroteNew?
    ensures Safe(k, h, w')
  {
  }

  lemma WritingSafe(k: Checks, h: Hash, w: World, e: Event, w': World)
    requires Safe(k, h, w) && Step(k, h, w, e, w')
    requires e.WroteNew? || e.WrotePolicy? || e.WroteBegin? || e.WroteVerified?
    ensures Safe(k, h, w')
  {
    if e.WroteNew? {
      NewSafe(k, h, w, e, w');
    } else if e.WrotePolicy? {
      PolicySafe(k, h, w, e, w');
    } else if e.WroteBegin? {
      BeginSafe(k, h, w, e, w');
    } else {
      VerifiedSafe(k, h, w, e, w');
    }
  }

  /** A fresh id names no chunk: every chunk belongs to a document whose id was issued. */
  lemma FreshHasNoChunks(k: Checks, h: Hash, w: World, d: Document)
    requires Safe(k, h, w) && w.durable.Some? && d.wizardId !in w.issued
    ensures ChunksOf(w.store, d) == map[]
  {
    var all := w.store.Of(d.collection);
    forall x | x in all ensures all[x].document != d.wizardId {
      var y :| y in AllDocuments(w.durable.value) && y.collection == d.collection && y.wizardId == all[x].document;
    }
  }

  lemma RecordedKeeps(s: State, s': State, store: Store, d: Document, prior: Option<Document>)
    requires Recorded(s, s', d, prior)
    requires Known(s, store) && Fits(store, d)
    requires forall x :: Retiring(s, x) ==> Fits(store, x)
    ensures Known(s', store)
    ensures forall x :: Retiring(s', x) ==> Fits(store, x)
    ensures forall x :: x in AllDocuments(s') ==> x == d || x in AllDocuments(s)
  {
    assert d in AllDocuments(s');
    forall x | x in AllDocuments(s) ensures Named(s', x) {
      if Some(x) == prior {
        assert SameIdentity(d, x);
      } else {
        assert x in AllDocuments(s');
      }
    }
    KnownKept(s, s', store);
    forall x | Retiring(s', x) ensures Fits(store, x) {
      assert x == d || Retiring(s, x);
    }
  }

  lemma RecordedUnique(s: State, s': State, d: Document, prior: Option<Document>)
    requires DistinctIdentities(AllDocuments(s)) && UniqueIds(s)
    requires Recorded(s, s', d, prior)
    requires forall x :: x in DocumentsOf(s'.pending) && x.collection == d.collection ==> x == d
    requires prior.None? ==> forall x :: x in AllDocuments(s) ==> x.wizardId != d.wizardId
    ensures UniqueIds(s')
  {
    forall a | a in AllDocuments(s') && a.wizardId == d.wizardId ensures a == d {
      if a != d {
        assert a in AllDocuments(s) && prior.value in AllDocuments(s);
        Apart(s, prior.value, a);
      }
    }
    assert forall a :: a in AllDocuments(s') && a != d ==> a in AllDocuments(s);
  }

  lemma RecordingSafe(k: Checks, h: Hash, w: World, d: Document, now: string, w': World)
    requires Safe(k, h, w) && Step(k, h, w, WroteDocument(d, now), w')
    ensures Safe(k, h, w')
  {
    var s, s' := w.durable.value, w'.durable.value;
    RecordLoadable(k, s, d, now);
    var prior := RecordShape(k, s, d, now);
    if d.status == Created {
      FreshHasNoChunks(k, h, w, d);
    }
    RecordedKeeps(s, s', w.store, d, prior);
    assert prior.Some? ==> d.status != Created;
    OneOfItsCollection(k, s, d, now);
    RecordedUnique(s, s', d, prior);
  }

  lemma PromotingSafe(k: Checks, h: Hash, w: World, completedAt: string, now: string, w': World)
    requires Safe(k, h, w) && Step(k, h, w, WrotePromoted(completedAt, now), w')
    ensures Safe(k, h, w')
  {
    var s, s' := w.durable.value, w'.durable.value;
    PromotedLoadable(k, s, completedAt, now);
    forall x | x in AllDocuments(s) ensures Named(s', x) {
      assert x in AllDocuments(s');
    }
    KnownKept(s, s', w.store);
    forall x | Retiring(s', x) ensures Fits(w.store, x) {
      assert x in s.cleanup || x in DocumentsOf(s.active);
      assert x in s.cleanup ==> Retiring(s, x);
    }
  }

  lemma ForgettingSafe(k: Checks, h: Hash, w: World, e: Event, w': World)
    requires Safe(k, h, w) && Step(k, h, w, e, w')
    requires e.WroteDiscard? || e.WroteCleanup?
    ensures Safe(k, h, w')
  {
    var s, s' := w.durable.value, w'.durable.value;
    if e.WroteDiscard? {
      DiscardLoadable(k, s, e.now);
    } else {
      CleanupLoadable(k, s, e.d, e.now);
    }
    forall x | x in AllDocuments(s) ensures ChunksOf(w.store, x) == map[] || Named(s', x) {
      if e.WroteCleanup? && SameIdentity(x, e.d) {
        assert ChunksOf(w.store, x) == ChunksOf(w.store, e.d);
      } else if x !in DocumentsOf(s.pending) || e.WroteCleanup? {
        assert x in AllDocuments(s');
      }
    }
    KnownKept(s, s', w.store);
    assert forall x :: Retiring(s', x) ==> Retiring(s, x);
    assert forall x :: x in AllDocuments(s') ==> x in AllDocuments(s);
  }

  /** A change to the chunks of one document leaves every other document's records alone. */
  lemma OthersUntouched(w: World, e: Event, w': World, k: Checks, h: Hash, x: Document)
    requires Step(k, h, w, e, w') && (e.Deleted? || e.SaveWrote?)
    requires !SameIdentity(x, e.d)
    ensures ChunksOf(w'.store, x) == ChunksOf(w.store, x)
  {
    var all, all' := w.store.Of(x.collection), w'.store.Of(x.collection);
    if e.d.collection == x.collection {
      if e.Deleted? {
        assert forall y :: y in e.gone ==> y in all && all[y].document == e.d.wizardId;
        assert forall y :: y in all' <==> y in all && y !in e.gone;
      } else {
        assert forall y :: y in all' <==> y in all || y in e.chunks;
        assert forall y :: y in e.chunks ==> all'[y].document == e.d.wizardId;
      }
    }
  }

  /** A chunk found after storing was there before, or the save of that document wrote it. */
  lemma StoredChunk(k: Checks, h: Hash, w: World, e: Event, w': World, c: Collection, x: Id)
    requires Step(k, h, w, e, w') && (e.Deleted? || e.SaveWrote?) && x in w'.store.Of(c)
    ensures (x in w.store.Of(c) && w'.store.Of(c)[x] == w.store.Of(c)[x])
      || (IsUuid(x) && c == e.d.collection && w'.store.Of(c)[x].document == e.d.wizardId)
  {
  }

  /** A chunk in the store after the step carries a proper id and belongs to a document the state names. */
  predicate Owned(s: State, store: Store, c: Collection, x: Id)
    requires x in store.Of(c)
  {
    IsUuid(x) && exists d :: d in AllDocuments(s) && d.collection == c && d.wizardId == store.Of(c)[x].document
  }

  lemma StoredOwned(k: Checks, h: Hash, w: World, e: Event, w': World, c: Collection, x: Id)
    requires Safe(k, h, w) && Step(k, h, w, e, w') && (e.Deleted? || e.SaveWrote?) && x in w'.store.Of(c)
    ensures Owned(w.durable.value, w'.store, c, x)
  {
    StoredChunk(k, h, w, e, w', c, x);
    if x in w.store.Of(c) && w'.store.Of(c)[x] == w.store.Of(c)[x] {
      assert IsUuid(x);
    } else {
      assert e.d in AllDocuments(w.durable.value);
    }
  }

  lemma StoringKnown(k: Checks, h: Hash, w: World, e: Event, w': World)
    requires Safe(k, h, w) && Step(k, h, w, e, w') && (e.Deleted? || e.SaveWrote?)
    ensures forall c: Collection, x :: x in w'.store.Of(c) ==> IsUuid(x)
    ensures Known(w.durable.value, w'.store)
  {
    forall c: Collection, x | x in w'.store.Of(c) ensures Owned(w.durable.value, w'.store, c, x) {
      StoredOwned(k, h, w, e, w', c, x);
    }
  }

  lemma StoringUntouched(k: Checks, h: Hash, w: World, e: Event, w': World, x: Document)
    requires Safe(k, h, w) && Step(k, h, w, e, w') && (e.Deleted? || e.SaveWrote?)
    requires x in AllDocuments(w.durable.value) && x != e.d
    ensures ChunksOf(w'.store, x) == ChunksOf(w.store, x)
  {
    var s := w.durable.value;
    assert e.d in AllDocuments(s);
    if SameIdentity(x, e.d) {
      Apart(s, x, e.d);
    }
    OthersUntouched(w, e, w', k, h, x);
  }

  /** No deletion and no save touches a chunk of the active generation. */
  lemma ActiveUntouched(k: Checks, h: Hash, w: World, e: Event, w': World)
    requires Safe(k, h, w) && Step(k, h, w, e, w') && w.durable.Some?
    ensures forall d :: d in DocumentsOf(w.durable.value.active) ==>
      ChunksOf(w'.store, d) == ChunksOf(w.store, d) && Whole(h, w'.store, d)
  {
    var s := w.durable.value;
    if e.Deleted? || e.SaveWrote? {
      forall d | d in DocumentsOf(s.active) ensures ChunksOf(w'.store, d) == ChunksOf(w.store, d) {
        assert Retiring(s, e.d);
        if d == e.d {
          Apart(s, d, e.d);
        }
        StoringUntouched(k, h, w, e, w', d);
      }
    }
  }

  lemma StoringSafe(k: Checks, h: Hash, w: World, e: Event, w': World)
    requires Safe(k, h, w) && Step(k, h, w, e, w')
    requires e.Deleted? || e.SaveWrote?
    ensures Safe(k, h, w')
  {
    StoringKnown(k, h, w, e, w');
    ActiveUntouched(k, h, w, e, w');
    forall x | Retiring(w.durable.value, x) ensures Fits(w'.store, x) {
      if x != e.d {
        StoringUntouched(k, h, w, e, w', x);
      } else if e.Deleted? {
        assert ChunksOf(w'.store, x).Keys <= ChunksOf(w.store, x).Keys;
      }
    }
  }

  /** The invariant is inductive: no step of the protocol leaves the safe worlds. */
  lemma StepKeepsSafe(k: Checks, h: Hash, w: World, e: Event, w': World)
    requires Safe(k, h, w) && Step(k, h, w, e, w')
    ensures Safe(k, h, w')
  {
    match e
    case WroteNew(_, _) => WritingSafe(k, h, w, e, w');
    case WrotePolicy(_, _, _) => WritingSafe(k, h, w, e, w');
    case WroteBegin(_, _, _, _, _) => WritingSafe(k, h, w, e, w');
    case WroteVerified(_, _) => WritingSafe(k, h, w, e, w');
    case WroteDocument(d, now) => RecordingSafe(k, h, w, d, now, w');
    case WrotePromoted(completedAt, now) => PromotingSafe(k, h, w, completedAt, now, w');
    case WroteDiscard(_) => ForgettingSafe(k, h, w, e, w');
    case WroteCleanup(_, _) => ForgettingSafe(k, h, w, e, w');
    case Deleted(_, _) => StoringSafe(k, h, w, e, w');
    case SaveWrote(_, _) => StoringSafe(k, h, w, e, w');
  }

  // --------------------------------- transitions the program relies on

  /** Only the documents of the replacement, and the time of writing, differ. */
  predicate SameButDocuments(s: State, s': State, documents: seq<Document>)
    requires s.pending.Some?
  {
    s' == s.(pending := Some(s.pending.value.(documents := documents)), updatedAt := s'.updatedAt)
  }

  lemma CreateAllowed(k: Checks, s: State, d: Document, now: string)
    requires Loadable(k, s) && s.pending.Some? && s.pending.value.verifiedAt.None? && d.status == Created
    requires forall x :: x in s.pending.value.documents ==> x.collection != d.collection
    ensures RecordReplacementDocument(k, s, d, now).Ok?
    ensures SameButDocuments(s, RecordReplacementDocument(k, s, d, now).value, s.pending.value.documents + [d])
  {
    assert Substitute(s.pending.value.documents, d) == s.pending.value.documents;
  }

  lemma {:induction false} FindLast(front: seq<Document>, prior: Document)
    requires forall x :: x in front ==> x.collection != prior.collection
    ensures FindIn(front + [prior], prior.collection) == Some(prior)
  {
    if front != [] {
      assert (front + [prior])[1..] == front[1..] + [prior];
      FindLast(front[1..], prior);
    }
  }

  lemma SubstituteLast(front: seq<Document>, prior: Document, d: Document)
    requires prior.collection == d.collection && forall x :: x in front ==> x.collection != d.collection
    ensures Substitute(front + [prior], d) == front + [d] && Substitute(front + [prior], d) + [] == front + [d]
  {
    forall i | 0 <= i < |front| ensures Substitute(front + [prior], d)[i] == front[i] {
      assert front[i] in front;
    }
  }

  lemma OthersElsewhere(k: Checks, s: State, front: seq<Document>, prior: Document)
    requires Loadable(k, s) && s.pending.Some? && s.pending.value.documents == front + [prior]
    ensures forall x :: x in front ==> x.collection != prior.collection
  {
    var documents := front + [prior];
    forall x | x in front ensures x.collection != prior.collection {
      var i := At(front, x);
      assert documents[i] == x && documents[|front|] == prior;
    }
  }

  lemma AdvanceAllowed(k: Checks, s: State, front: seq<Document>, prior: Document, d: Document, now: string)
    requires Loadable(k, s) && s.pending.Some? && s.pending.value.verifiedAt.None?
    requires s.pending.value.documents == front + [prior] && Advances(prior, d)
    ensures RecordReplacementDocument(k, s, d, now).Ok?
    ensures SameButDocuments(s, RecordReplacementDocument(k, s, d, now).value, front + [d])
  {
    OthersElsewhere(k, s, front, prior);
    FindLast(front, prior);
    SubstituteLast(front, prior, d);
    assert s.pending.value.completedAt.None?;
  }

  /** What inspecting the store after the save lets the program record. */
  lemma CompleteOk(store: Store, submitted: Document, complete: Document)
    requires DocumentOk(submitted) && submitted.status == SaveSubmitted
    requires complete == submitted.(status := Saved, chunkIds := complete.chunkIds, fingerprint := complete.fingerprint)
    requires StrictlySorted(complete.chunkIds) && Elements(complete.chunkIds) == ChunksOf(store, submitted).Keys
    requires ChunksOf(store, submitted) != map[]
    requires complete.fingerprint.Some? && IsSha256(complete.fingerprint.value)
    requires forall x :: x in store.Of(submitted.collection) ==> IsUuid(x)
    ensures DocumentOk(complete)
    ensures ChunksOf(store, complete) == ChunksOf(store, submitted)
  {
    forall i | 0 <= i < |complete.chunkIds| ensures IsUuid(complete.chunkIds[i]) {
      assert complete.chunkIds[i] in Elements(complete.chunkIds);
    }
    var x :| x in ChunksOf(store, submitted);
    assert x in Elements(complete.chunkIds);
  }

  lemma CleanupDistinct(k: Checks, s: State)
    requires Loadable(k, s)
    ensures DistinctIdentities(s.cleanup)
  {
    var front := DocumentsOf(s.active) + DocumentsOf(s.pending);
    forall i, j | 0 <= i < j < |s.cleanup| ensures !SameIdentity(s.cleanup[i], s.cleanup[j]) {
      assert AllDocuments(s)[|front| + i] == s.cleanup[i] && AllDocuments(s)[|front| + j] == s.cleanup[j];
    }
  }

  lemma {:induction false} WithoutNone(documents: seq<Document>, d: Document)
    requires forall x :: x in documents ==> !SameIdentity(x, d)
    ensures Without(documents, d) == documents
  {
    if documents != [] {
      WithoutNone(documents[1..], d);
    }
  }

  lemma WithoutFirst(documents: seq<Document>, i: nat)
    requires DistinctIdentities(documents) && i < |documents|
    ensures Without(documents[i..], documents[i]) == documents[i + 1..]
  {
    assert documents[i..][1..] == documents[i + 1..];
    forall x | x in documents[i + 1..] ensures !SameIdentity(x, documents[i]) {
      var j := At(documents[i + 1..], x);
      assert documents[i + 1 + j] == x;
    }
    WithoutNone(documents[i + 1..], documents[i]);
  }
}
