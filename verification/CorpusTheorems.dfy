/** The crash-safety results: statements over whole paths, hence over every crash point of
    every sequence of runs. */
module CorpusTheorems {
  import opened Ordering
  import opened Corpus
  import opened CorpusProtocol
  import opened CorpusSafety

  lemma {:induction false} PathSafe(k: Checks, h: Hash, ws: seq<World>, n: nat)
    requires Path(k, h, ws) && Safe(k, h, ws[0]) && n < |ws|
    ensures Safe(k, h, ws[n])
    decreases n
  {
    if n > 0 {
      PathSafe(k, h, ws, n - 1);
      assert Linked(k, h, ws, n - 1);
      var e :| Step(k, h, ws[n - 1], e, ws[n]);
      StepKeepsSafe(k, h, ws[n - 1], e, ws[n]);
    }
  }

  /** From the first run on an empty store, every world a crash can leave is safe: the state
      file loads, and every physical chunk belongs to a document it names. */
  lemma EveryCrashPointIsSafe(k: Checks, h: Hash, ws: seq<World>, n: nat)
    requires Path(k, h, ws) && ws[0] == INITIAL && n < |ws|
    ensures Safe(k, h, ws[n])
  {
    PathSafe(k, h, ws, n);
  }

  // ------------------------------------------------------- the user

  /** A state file that is there is this user's. */
  predicate BelongsTo(w: World, user: string) {
    w.durable.Some? ==> w.durable.value.user == user
  }

  /** No step removes the state file or changes its user, and only the first write gives it one. */
  lemma UserStays(k: Checks, h: Hash, w: World, e: Event, w': World)
    requires Step(k, h, w, e, w')
    ensures w.durable.Some? ==> w'.durable.Some? && w'.durable.value.user == w.durable.value.user
    ensures w.durable.None? && w'.durable.Some? ==> e.WroteNew? && w'.durable.value.user == e.user
  {
    match e
    case WroteNew(user, now) => assert w'.durable == Some(State(user, None, None, [], now));
    case _ =>
  }

  lemma {:induction false} PathKeepsUser(k: Checks, h: Hash, ws: seq<World>, i: nat, j: nat)
    requires Path(k, h, ws) && i <= j < |ws| && ws[i].durable.Some?
    ensures ws[j].durable.Some? && ws[j].durable.value.user == ws[i].durable.value.user
    decreases j - i
  {
    if i < j {
      PathKeepsUser(k, h, ws, i, j - 1);
      assert Linked(k, h, ws, j - 1);
      var e :| Step(k, h, ws[j - 1], e, ws[j]);
      UserStays(k, h, ws[j - 1], e, ws[j]);
    }
  }

  /** The user of the last world is the user of every world before it, and once there is a state
      file the user of every world after it. */
  lemma PathBelongs(k: Checks, h: Hash, ws: seq<World>, m: nat, user: string)
    requires Path(k, h, ws) && m < |ws| && BelongsTo(ws[m], user)
    requires ws[m].durable.Some? || m == |ws| - 1
    ensures forall n :: 0 <= n < |ws| ==> BelongsTo(ws[n], user)
  {
    forall n | 0 <= n < |ws| ensures BelongsTo(ws[n], user) {
      if n <= m && ws[n].durable.Some? {
        PathKeepsUser(k, h, ws, n, m);
      } else if m < n {
        PathKeepsUser(k, h, ws, m, n);
      }
    }
  }

  // ------------------------------------------------------- the active generation

  ghost predicate HasWholeActive(h: Hash, w: World) {
    && w.durable.Some? && w.durable.value.active.Some?
    && var g := w.durable.value.active.value;
    && g.verifiedAt.Some? && g.completedAt.Some?
    && Complete(g.documents) && AllWhole(h, w.store, g.documents)
  }

  lemma SafeActiveIsWhole(k: Checks, h: Hash, w: World)
    requires Safe(k, h, w) && w.durable.Some? && w.durable.value.active.Some?
    ensures HasWholeActive(h, w)
  {
  }

  /** No step removes the active generation, and only a promotion replaces it. */
  lemma ActiveStays(k: Checks, h: Hash, w: World, e: Event, w': World)
    requires Step(k, h, w, e, w') && w.durable.Some? && w.durable.value.active.Some?
    ensures w'.durable.Some? && w'.durable.value.active.Some?
    ensures e.WrotePromoted? || DocumentsOf(w'.durable.value.active) == DocumentsOf(w.durable.value.active)
  {
  }

  lemma StepKeepsActive(k: Checks, h: Hash, w: World, e: Event, w': World)
    requires Safe(k, h, w) && Step(k, h, w, e, w')
    requires w.durable.Some? && w.durable.value.active.Some?
    ensures HasWholeActive(h, w')
    ensures e.WrotePromoted? || DocumentsOf(w'.durable.value.active) == DocumentsOf(w.durable.value.active)
  {
    StepKeepsSafe(k, h, w, e, w');
    ActiveStays(k, h, w, e, w');
    SafeActiveIsWhole(k, h, w');
  }

  lemma NextKeepsActive(k: Checks, h: Hash, w: World, w': World)
    requires Safe(k, h, w) && Next(k, h, w, w')
    requires w.durable.Some? && w.durable.value.active.Some?
    ensures HasWholeActive(h, w')
  {
    var e :| Step(k, h, w, e, w');
    StepKeepsActive(k, h, w, e, w');
  }

  lemma PathKeepsActive(k: Checks, h: Hash, ws: seq<World>, j: nat)
    requires Path(k, h, ws) && Safe(k, h, ws[0]) && 0 < j < |ws| && HasWholeActive(h, ws[j - 1])
    ensures HasWholeActive(h, ws[j])
  {
    PathSafe(k, h, ws, j - 1);
    assert Linked(k, h, ws, j - 1);
    NextKeepsActive(k, h, ws[j - 1], ws[j]);
  }

  /** Once a generation is active there is, at every later crash point of every later run, a
      complete and verified active generation with every recorded chunk in the store. */
  lemma {:induction false} ActiveSurvives(k: Checks, h: Hash, ws: seq<World>, i: nat, j: nat)
    requires Path(k, h, ws) && Safe(k, h, ws[0]) && i <= j < |ws|
    requires ws[i].durable.Some? && ws[i].durable.value.active.Some?
    ensures HasWholeActive(h, ws[j])
    decreases j - i
  {
    if i == j {
      PathSafe(k, h, ws, j);
    } else {
      ActiveSurvives(k, h, ws, i, j - 1);
      PathKeepsActive(k, h, ws, j);
    }
  }

  /** Promotion swaps two whole generations: the new one is complete in the store, and the old
      one is still complete there, now listed for cleanup. */
  lemma PromotionKeepsBoth(k: Checks, h: Hash, w: World, completedAt: string, now: string, w': World)
    requires Safe(k, h, w) && Step(k, h, w, WrotePromoted(completedAt, now), w')
    ensures HasWholeActive(h, w')
    ensures DocumentsOf(w'.durable.value.active) == DocumentsOf(w.durable.value.pending)
    ensures AllWhole(h, w'.store, DocumentsOf(w.durable.value.active))
    ensures forall d :: d in DocumentsOf(w.durable.value.active) ==> d in w'.durable.value.cleanup
    ensures w'.store == w.store
  {
    StepKeepsSafe(k, h, w, WrotePromoted(completedAt, now), w');
  }

  // ------------------------------------------------------------- document history

  predicate Progress(d: Document, d': Document) {
    && d.status.Rank() <= d'.status.Rank()
    && (d.taskId.Some? ==> d'.taskId == d.taskId)
    && (d.status == d'.status ==> d == d')
  }

  /** Every other write only keeps, moves or forgets documents. */
  lemma NoNewDocument(k: Checks, h: Hash, w: World, e: Event, w': World, d': Document)
    requires Step(k, h, w, e, w') && !e.WroteDocument? && w'.durable.Some?
    requires d' in AllDocuments(w'.durable.value)
    ensures w.durable.Some? && d' in AllDocuments(w.durable.value) && w'.issued == w.issued
  {
  }

  lemma RecordedProgress(k: Checks, s: State, d: Document, now: string, d': Document) returns (earlier: Option<Document>)
    requires Loadable(k, s) && RecordReplacementDocument(k, s, d, now).Ok?
    requires d' in AllDocuments(RecordReplacementDocument(k, s, d, now).value)
    ensures earlier.None? ==> d' == d && d'.status == Created
    ensures earlier.Some? ==> earlier.value in AllDocuments(s) && Grew(earlier.value, d')
  {
    var prior := RecordShape(k, s, d, now);
    earlier := if d' == d then prior else Some(d');
    if earlier.Some? && earlier.value != d' {
      AdvancingGrows(earlier.value, d');
    }
  }

  lemma AdvancingGrows(d: Document, d': Document)
    requires Advances(d, d')
    ensures Grew(d, d')
  {
  }

  predicate Grew(d: Document, d': Document) {
    SameIdentity(d, d') && Progress(d, d')
  }

  lemma StepProgress(k: Checks, h: Hash, w: World, e: Event, w': World, d': Document)
      returns (d: Option<Document>)
    requires Safe(k, h, w) && Step(k, h, w, e, w') && w'.durable.Some?
    requires d' in AllDocuments(w'.durable.value)
    ensures w.issued <= w'.issued
    ensures d.None? ==> d'.wizardId !in w.issued && d'.status == Created
    ensures d.Some? ==> w.durable.Some? && d.value in AllDocuments(w.durable.value) && Grew(d.value, d')
  {
    if e.WroteDocument? {
      d := RecordedProgress(k, w.durable.value, e.d, e.now, d');
    } else {
      NoNewDocument(k, h, w, e, w', d');
      d := Some(d');
    }
  }

  lemma NextProgress(k: Checks, h: Hash, w: World, w': World, d': Document) returns (d: Option<Document>)
    requires Safe(k, h, w) && Next(k, h, w, w') && w'.durable.Some?
    requires d' in AllDocuments(w'.durable.value)
    ensures d.None? ==> d'.wizardId !in w.issued
    ensures d.Some? ==> w.durable.Some? && d.value in AllDocuments(w.durable.value) && Grew(d.value, d')
  {
    var e :| Step(k, h, w, e, w');
    d := StepProgress(k, h, w, e, w', d');
  }

  lemma {:induction false} IssuedGrows(k: Checks, h: Hash, ws: seq<World>, i: nat, j: nat)
    requires Path(k, h, ws) && i <= j < |ws|
    ensures ws[i].issued <= ws[j].issued
    decreases j - i
  {
    if i < j {
      IssuedGrows(k, h, ws, i, j - 1);
      assert Linked(k, h, ws, j - 1);
    }
  }

  predicate Names(w: World, d: Document) {
    w.durable.Some? && d in AllDocuments(w.durable.value)
  }

  lemma PathNames(k: Checks, h: Hash, ws: seq<World>, i: nat, d: Document, d': Document)
    requires Path(k, h, ws) && Safe(k, h, ws[0]) && i < |ws|
    requires Names(ws[i], d)
    ensures d.wizardId in ws[i].issued
    ensures Names(ws[i], d') && SameIdentity(d, d') ==> d == d'
  {
    PathSafe(k, h, ws, i);
    if Names(ws[i], d') && SameIdentity(d, d') {
      Apart(ws[i].durable.value, d, d');
    }
  }

  lemma PathNext(k: Checks, h: Hash, ws: seq<World>, i: nat)
    requires Path(k, h, ws) && Safe(k, h, ws[0]) && i < |ws| - 1
    ensures Safe(k, h, ws[i]) && Next(k, h, ws[i], ws[i + 1])
  {
    PathSafe(k, h, ws, i);
    assert Linked(k, h, ws, i);
  }

  lemma PathPrior(k: Checks, h: Hash, ws: seq<World>, j: nat, d': Document) returns (p: Document)
    requires Path(k, h, ws) && Safe(k, h, ws[0]) && 0 < j < |ws|
    requires Names(ws[j], d') && d'.wizardId in ws[j - 1].issued
    ensures Names(ws[j - 1], p) && SameIdentity(p, d') && Progress(p, d')
  {
    PathNext(k, h, ws, j - 1);
    var d := NextProgress(k, h, ws[j - 1], ws[j], d');
    p := d.value;
  }

  lemma PriorOf(k: Checks, h: Hash, ws: seq<World>, i: nat, j: nat, d: Document, d': Document) returns (p: Document)
    requires Path(k, h, ws) && Safe(k, h, ws[0]) && i < j < |ws|
    requires Names(ws[i], d) && Names(ws[j], d') && SameIdentity(d, d')
    ensures Names(ws[j - 1], p) && SameIdentity(d, p) && Progress(p, d')
  {
    PathNames(k, h, ws, i, d, d);
    IssuedGrows(k, h, ws, i, j - 1);
    p := PathPrior(k, h, ws, j, d');
  }

  /** Whatever carries d's identity at j grew out of something that carried it just before. */
  ghost predicate Backed(ws: seq<World>, j: nat, d: Document) {
    0 < j < |ws| ==> forall d' :: Names(ws[j], d') && SameIdentity(d, d') ==>
      exists p :: Names(ws[j - 1], p) && SameIdentity(d, p) && Progress(p, d')
  }

  lemma PathBacks(k: Checks, h: Hash, ws: seq<World>, i: nat, d: Document, j: nat)
    requires Path(k, h, ws) && Safe(k, h, ws[0]) && i < j < |ws| && Names(ws[i], d)
    ensures Backed(ws, j, d)
  {
    forall d' | Names(ws[j], d') && SameIdentity(d, d')
      ensures exists p :: Names(ws[j - 1], p) && SameIdentity(d, p) && Progress(p, d')
    {
      var p := PriorOf(k, h, ws, i, j, d, d');
    }
  }

  lemma {:induction false} BackedProgress(ws: seq<World>, i: nat, j: nat, d: Document, d': Document)
    requires i <= j < |ws| && Names(ws[j], d') && SameIdentity(d, d')
    requires forall x :: Names(ws[i], x) && SameIdentity(d, x) ==> d == x
    requires forall n: nat :: i < n < |ws| ==> Backed(ws, n, d)
    ensures Progress(d, d')
    decreases j - i
  {
    if i < j {
      assert Backed(ws, j, d);
      var p :| Names(ws[j - 1], p) && SameIdentity(d, p) && Progress(p, d');
      BackedProgress(ws, i, j - 1, d, p);
      ProgressTransitive(d, p, d');
    }
  }

  /** Over any history a document only moves along created, save_submitting, save_submitted,
      saved; its task id never changes once known, and a saved record never changes at all,
      even when the document moves from the replacement to the active generation to cleanup. */
  lemma DocumentsOnlyProgress(k: Checks, h: Hash, ws: seq<World>, i: nat, j: nat, d: Document, d': Document)
    requires Path(k, h, ws) && Safe(k, h, ws[0]) && i <= j < |ws|
    requires Names(ws[i], d) && Names(ws[j], d') && SameIdentity(d, d')
    ensures Progress(d, d')
  {
    forall x | Names(ws[i], x) && SameIdentity(d, x) ensures d == x {
      PathNames(k, h, ws, i, d, x);
    }
    forall n: nat | i < n < |ws| ensures Backed(ws, n, d) {
      PathBacks(k, h, ws, i, d, n);
    }
    BackedProgress(ws, i, j, d, d');
  }

  lemma ProgressTransitive(a: Document, b: Document, c: Document)
    requires Progress(a, b) && Progress(b, c)
    ensures Progress(a, c)
  {
  }

  // --------------------------------------------------- which crash points are accepted

  /** Some saved document of the replacement has lost a recorded chunk. */
  predicate InWindow(w: World) {
    && w.durable.Some?
    && exists d :: d in DocumentsOf(w.durable.value.pending) && d.status == Saved && !HoldsRecorded(w.store, d)
  }

  /** A crash point is accepted by the next run exactly when it lies outside the window in which
      the saved documents of a replacement are being deleted. */
  lemma AcceptedExactlyOutsideWindow(k: Checks, h: Hash, w: World)
    requires Safe(k, h, w)
    ensures Admissible(w.durable, w.store) <==> !InWindow(w)
  {
    if w.durable.Some? {
      var s := w.durable.value;
      forall d | d in AllDocuments(s) && d.status == Created ensures ChunksOf(w.store, d) == map[] {
        MemberOk(k, s, d);
        assert Retiring(s, d);
      }
      forall d | d in DocumentsOf(s.pending) ensures Fits(w.store, d) {
        assert Retiring(s, d);
      }
      forall d | d in s.cleanup ensures HoldsOnlyRecorded(w.store, d) {
        assert Retiring(s, d);
        MemberOk(k, s, d);
      }
    }
  }

  /** Deleting a recorded chunk of a saved document of the replacement. */
  predicate Unsaves(w: World, e: Event) {
    && e.Deleted? && w.durable.Some? && e.d in DocumentsOf(w.durable.value.pending)
    && e.d.status == Saved && e.gone != {}
  }

  lemma EntryByDeleting(k: Checks, h: Hash, w: World, e: Event, w': World)
    requires Safe(k, h, w) && Step(k, h, w, e, w') && !InWindow(w) && Unsaves(w, e)
    ensures InWindow(w')
  {
    var x :| x in e.gone;
    assert x in ChunksOf(w.store, e.d) && x !in ChunksOf(w'.store, e.d);
    assert HoldsRecorded(w.store, e.d) && !HoldsRecorded(w'.store, e.d);
  }

  /** Any other change to the store leaves the saved documents of the replacement alone. */
  lemma SavedUntouched(k: Checks, h: Hash, w: World, e: Event, w': World, d: Document)
    requires Safe(k, h, w) && Step(k, h, w, e, w') && (e.Deleted? || e.SaveWrote?) && !Unsaves(w, e)
    requires d in DocumentsOf(w.durable.value.pending) && d.status == Saved
    ensures ChunksOf(w'.store, d) == ChunksOf(w.store, d)
  {
    if d != e.d {
      StoringUntouched(k, h, w, e, w', d);
    } else {
      assert w'.store.Of(d.collection) == w.store.Of(d.collection);
    }
  }

  lemma NoEntryByStoring(k: Checks, h: Hash, w: World, e: Event, w': World)
    requires Safe(k, h, w) && Step(k, h, w, e, w') && !InWindow(w) && (e.Deleted? || e.SaveWrote?) && !Unsaves(w, e)
    ensures !InWindow(w')
  {
    assert w'.durable == w.durable;
    forall d | d in DocumentsOf(w.durable.value.pending) && d.status == Saved ensures HoldsRecorded(w'.store, d) {
      SavedUntouched(k, h, w, e, w', d);
      assert HoldsRecorded(w.store, d);
    }
  }

  lemma NoEntryByWriting(k: Checks, h: Hash, w: World, e: Event, w': World)
    requires Safe(k, h, w) && Step(k, h, w, e, w') && !InWindow(w) && !e.Deleted? && !e.SaveWrote?
    ensures !InWindow(w')
  {
    if e.WroteDocument? {
      var prior := RecordShape(k, w.durable.value, e.d, e.now);
    }
  }

  /** The window is entered by deleting from a saved document of the replacement, and only so. */
  lemma WindowEntry(k: Checks, h: Hash, w: World, e: Event, w': World)
    requires Safe(k, h, w) && Step(k, h, w, e, w') && !InWindow(w)
    ensures InWindow(w') <==> Unsaves(w, e)
  {
    if Unsaves(w, e) {
      EntryByDeleting(k, h, w, e, w');
    } else if e.Deleted? || e.SaveWrote? {
      NoEntryByStoring(k, h, w, e, w');
    } else {
      NoEntryByWriting(k, h, w, e, w');
    }
  }

  lemma StillMissing(w: World, w': World, d: Document)
    requires w.durable.Some? && w'.durable.Some?
    requires d in DocumentsOf(w'.durable.value.pending) && d.status == Saved && !HoldsRecorded(w.store, d)
    requires HoldsOnlyRecorded(w.store, d)
    requires ChunksOf(w'.store, d).Keys <= ChunksOf(w.store, d).Keys
    ensures InWindow(w')
  {
    assert !HoldsRecorded(w'.store, d);
  }

  lemma MissingAfterStoring(k: Checks, h: Hash, w: World, e: Event, w': World, d: Document)
    requires Safe(k, h, w) && Step(k, h, w, e, w') && (e.Deleted? || e.SaveWrote?)
    requires d in DocumentsOf(w.durable.value.pending) && d.status == Saved
    ensures ChunksOf(w'.store, d).Keys <= ChunksOf(w.store, d).Keys
    ensures w'.durable == w.durable
  {
    if d != e.d {
      StoringUntouched(k, h, w, e, w', d);
    }
  }

  lemma MissingAfterWriting(k: Checks, h: Hash, w: World, e: Event, w': World, d: Document)
    requires Safe(k, h, w) && Step(k, h, w, e, w') && !e.Deleted? && !e.SaveWrote? && !e.WroteDiscard?
    requires w.durable.Some? && d in DocumentsOf(w.durable.value.pending)
    requires d.status == Saved && !HoldsRecorded(w.store, d)
    ensures w'.store == w.store && w'.durable.Some? && d in DocumentsOf(w'.durable.value.pending)
  {
    if e.WroteDocument? {
      var prior := RecordShape(k, w.durable.value, e.d, e.now);
    }
  }

  lemma SavedFits(k: Checks, h: Hash, w: World, d: Document)
    requires Safe(k, h, w) && w.durable.Some? && d in DocumentsOf(w.durable.value.pending) && d.status == Saved
    ensures HoldsOnlyRecorded(w.store, d)
  {
    assert Retiring(w.durable.value, d);
  }

  lemma StaysMissing(k: Checks, h: Hash, w: World, e: Event, w': World, d: Document)
    requires Safe(k, h, w) && Step(k, h, w, e, w') && !e.WroteDiscard? && w.durable.Some?
    requires d in DocumentsOf(w.durable.value.pending) && d.status == Saved && !HoldsRecorded(w.store, d)
    ensures w'.durable.Some? && d in DocumentsOf(w'.durable.value.pending)
    ensures ChunksOf(w'.store, d).Keys <= ChunksOf(w.store, d).Keys
    ensures HoldsOnlyRecorded(w.store, d)
  {
    SavedFits(k, h, w, d);
    if e.Deleted? || e.SaveWrote? {
      MissingAfterStoring(k, h, w, e, w', d);
    } else {
      MissingAfterWriting(k, h, w, e, w', d);
    }
  }

  /** Nothing but the discarding write leads out of it. */
  lemma WindowExit(k: Checks, h: Hash, w: World, e: Event, w': World)
    requires Safe(k, h, w) && Step(k, h, w, e, w') && InWindow(w)
    ensures InWindow(w') <==> !e.WroteDiscard?
  {
    var d :| d in DocumentsOf(w.durable.value.pending) && d.status == Saved && !HoldsRecorded(w.store, d);
    if !e.WroteDiscard? {
      StaysMissing(k, h, w, e, w', d);
      StillMissing(w, w', d);
    }
  }

  // --------------------------------------------------------- clean states

  lemma PathExtended(k: Checks, h: Hash, ws: seq<World>, e: Event, w: World)
    requires Path(k, h, ws) && Step(k, h, ws[|ws| - 1], e, w)
    ensures Path(k, h, ws + [w])
  {
    forall i ensures Linked(k, h, ws + [w], i) {
      if i == |ws| - 1 {
        assert Next(k, h, ws[i], w);
      } else if 0 <= i < |ws| - 1 {
        assert Linked(k, h, ws, i);
        assert (ws + [w])[i] == ws[i] && (ws + [w])[i + 1] == ws[i + 1];
      }
    }
  }

  predicate Holds(chunks: map<Id, Chunk>, document: Id) {
    exists x :: x in chunks && chunks[x].document == document
  }

  /** Every document is whole, both collections are there, and neither holds the other's chunks. */
  predicate Stands(h: Hash, store: Store, g: Generation) {
    && AllWhole(h, store, g.documents)
    && g.Find(Knowledge).Some? && g.Find(Policy).Some?
    && !Holds(store.policy, g.Find(Knowledge).value.wizardId)
    && !Holds(store.knowledge, g.Find(Policy).value.wizardId)
  }

  lemma WholeStands(k: Checks, h: Hash, w: World, g: Generation)
    requires Safe(k, h, w) && w.durable.Some?
    requires w.durable.value.active == Some(g) || w.durable.value.pending == Some(g)
    requires Complete(g.documents) && AllWhole(h, w.store, g.documents)
    ensures Stands(h, w.store, g)
  {
    var s := w.durable.value;
    assert Covers(g.documents, Knowledge) && Covers(g.documents, Policy);
    forall d, c: Collection | d in g.documents && c != d.collection ensures !Holds(w.store.Of(c), d.wizardId) {
      assert d in AllDocuments(s);
      forall x | x in w.store.Of(c) ensures w.store.Of(c)[x].document != d.wizardId {
        var e :| e in AllDocuments(s) && e.collection == c && e.wizardId == w.store.Of(c)[x].document;
      }
    }
  }

  lemma WholeInspects(h: Hash, store: Store, d: Document)
    requires DocumentOk(d)
    ensures Whole(h, store, d) ==> ChunksOf(store, d) != map[]
  {
    assert d.status == Saved ==> d.chunkIds[0] in Elements(d.chunkIds);
  }

  /** The store holds exactly the active generation: no other chunk, and none missing. */
  ghost predicate ExactlyActive(h: Hash, s: State, store: Store) {
    && AllWhole(h, store, DocumentsOf(s.active))
    && (forall c: Collection, x :: x in store.Of(c) ==> RecordedActive(s, c, x, store.Of(c)[x].document))
  }

  ghost predicate RecordedActive(s: State, c: Collection, x: Id, document: Id) {
    exists d :: d in DocumentsOf(s.active) && d.collection == c && d.wizardId == document && x in d.chunkIds
  }

  lemma CleanIsExact(k: Checks, h: Hash, w: World)
    requires Safe(k, h, w) && w.durable.Some?
    requires w.durable.value.pending.None? && w.durable.value.cleanup == []
    ensures ExactlyActive(h, w.durable.value, w.store)
    ensures Admissible(w.durable, w.store)
  {
    var s := w.durable.value;
    forall c: Collection, x | x in w.store.Of(c) ensures RecordedActive(s, c, x, w.store.Of(c)[x].document) {
      var d :| d in AllDocuments(s) && d.collection == c && d.wizardId == w.store.Of(c)[x].document;
      assert x in ChunksOf(w.store, d);
    }
    AcceptedExactlyOutsideWindow(k, h, w);
  }
}
