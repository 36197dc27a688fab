/** The write-ahead protocol between the durable corpus state and the physical store.

    A world is what survives a crash: the state file, the chunks in the vector store and
    the document ids the service ever handed out.  Each durable write, each deletion and
    each burst of writes by a running save is one step, so every crash point of every
    sequence of runs is a world on some path. */
module CorpusProtocol {
  import opened Ordering
  import opened Text
  import opened Corpus

  datatype Chunk = Chunk(document: Id, content: string)

  datatype Store = Store(knowledge: map<Id, Chunk>, policy: map<Id, Chunk>) {
    function Of(c: Collection): map<Id, Chunk> {
      match c case Knowledge => knowledge case Policy => policy
    }

    function Replacing(c: Collection, chunks: map<Id, Chunk>): (s: Store)
      ensures s.Of(c) == chunks
      ensures forall o: Collection :: o != c ==> s.Of(o) == Of(o)
    {
      match c
      case Knowledge => this.(knowledge := chunks)
      case Policy => this.(policy := chunks)
    }
  }

  const EMPTY_STORE := Store(map[], map[])

  /** The complete persisted records of one document, by chunk id. */
  function ChunksOf(store: Store, d: Document): map<Id, string> {
    var all := store.Of(d.collection);
    map x | x in all && all[x].document == d.wizardId :: all[x].content
  }

  /** The fingerprint of a document's records. */
  type Hash = map<Id, string> -> string

  /** The store holds exactly the chunks that were recorded when the document was saved. */
  predicate Whole(h: Hash, store: Store, d: Document) {
    && d.status == Saved
    && ChunksOf(store, d).Keys == Elements(d.chunkIds)
    && d.fingerprint == Some(h(ChunksOf(store, d)))
  }

  predicate AllWhole(h: Hash, store: Store, documents: seq<Document>) {
    forall d :: d in documents ==> Whole(h, store, d)
  }

  datatype World = World(durable: Option<State>, store: Store, issued: set<Id>)

  const INITIAL := World(None, EMPTY_STORE, {})

  datatype Event =
    | WroteNew(user: string, now: string)
    | WrotePolicy(fixtures: Fixtures, policy: IngestionPolicy, now: string)
    | WroteBegin(runId: string, fixtures: Fixtures, policy: IngestionPolicy, createdAt: string, now: string)
    | WroteDocument(d: Document, now: string)
    | WroteVerified(verifiedAt: string, now: string)
    | WrotePromoted(completedAt: string, now: string)
    | WroteDiscard(now: string)
    | WroteCleanup(d: Document, now: string)
    | Deleted(d: Document, gone: set<Id>)
    | SaveWrote(d: Document, chunks: map<Id, string>)

  predicate Writes(w: World, r: Result<State>, w': World) {
    r.Ok? && w' == w.(durable := Some(r.value))
  }

  predicate Retiring(s: State, d: Document) {
    d in DocumentsOf(s.pending) || d in s.cleanup
  }

  /** One step of the protocol, with the guard the write-ahead discipline puts on it. */
  predicate Step(k: Checks, h: Hash, w: World, e: Event, w': World) {
    match e
    case WroteNew(user, now) =>
      w.durable.None? && k.timestampOk(now) && Writes(w, Ok(NewState(user, now)), w')
    case WrotePolicy(fixtures, policy, now) =>
      w.durable.Some? && k.timestampOk(now)
      && Writes(w, RecordActivePolicy(k, w.durable.value, fixtures, policy, now), w')
    case WroteBegin(runId, fixtures, policy, createdAt, now) =>
      w.durable.Some? && k.timestampOk(now) && k.timestampOk(createdAt)
      && Writes(w, BeginReplacement(k, w.durable.value, runId, fixtures, policy, createdAt, now), w')
    case WroteDocument(d, now) =>
      w.durable.Some? && k.timestampOk(now) && DocumentOk(d)
      && (d.status == Created ==> d.wizardId !in w.issued)
      && (d.status == Saved ==> Whole(h, w.store, d))
      && Writes(w.(issued := w.issued + {d.wizardId}), RecordReplacementDocument(k, w.durable.value, d, now), w')
    case WroteVerified(verifiedAt, now) =>
      w.durable.Some? && k.timestampOk(now)
      && Writes(w, MarkReplacementVerified(k, w.durable.value, verifiedAt, now), w')
    case WrotePromoted(completedAt, now) =>
      w.durable.Some? && k.timestampOk(now)
      && AllWhole(h, w.store, DocumentsOf(w.durable.value.pending))
      && Writes(w, PromoteReplacement(k, w.durable.value, completedAt, now), w')
    case WroteDiscard(now) =>
      w.durable.Some? && k.timestampOk(now)
      && (forall d :: d in DocumentsOf(w.durable.value.pending) ==> ChunksOf(w.store, d) == map[])
      && Writes(w, Ok(DiscardPendingReplacement(w.durable.value, now)), w')
    case WroteCleanup(d, now) =>
      w.durable.Some? && k.timestampOk(now) && ChunksOf(w.store, d) == map[]
      && Writes(w, RemovePendingCleanup(w.durable.value, d, now), w')
    case Deleted(d, gone) =>
      w.durable.Some? && Retiring(w.durable.value, d)
      && gone <= ChunksOf(w.store, d).Keys
      && w' == w.(store := w.store.Replacing(d.collection, w.store.Of(d.collection) - gone))
    case SaveWrote(d, chunks) =>
      w.durable.Some? && d in DocumentsOf(w.durable.value.pending)
      && d.status in {SaveSubmitting, SaveSubmitted}
      && (forall x :: x in chunks ==> IsUuid(x))
      && (forall x :: x in chunks && x in w.store.Of(d.collection) ==>
        w.store.Of(d.collection)[x].document == d.wizardId)
      && w' == w.(store := w.store.Replacing(d.collection, w.store.Of(d.collection) +
        map x | x in chunks :: Chunk(d.wizardId, chunks[x])))
  }

  ghost predicate Next(k: Checks, h: Hash, w: World, w': World) {
    exists e :: Step(k, h, w, e, w')
  }

  /** What happened between two worlds: any number of steps, by any number of runs. */
  ghost predicate Path(k: Checks, h: Hash, ws: seq<World>) {
    ws != [] && forall i :: Linked(k, h, ws, i)
  }

  ghost predicate Linked(k: Checks, h: Hash, ws: seq<World>, i: int) {
    0 <= i < |ws| - 1 ==> Next(k, h, ws[i], ws[i + 1])
  }

  // ---------------------------------------------------------------- the invariant

  /** Every physical chunk belongs to a document the durable state names. */
  predicate Known(s: State, store: Store) {
    forall c: Collection, x :: x in store.Of(c) ==>
      exists d :: d in AllDocuments(s) && d.collection == c && d.wizardId == store.Of(c)[x].document
  }

  predicate Fits(store: Store, d: Document) {
    match d.status
    case Created => ChunksOf(store, d) == map[]
    case SaveSubmitting => true
    case SaveSubmitted => true
    case Saved => ChunksOf(store, d).Keys <= Elements(d.chunkIds)
  }

  /** The service issues each id once, so an id names one document of one collection. */
  predicate UniqueIds(s: State) {
    forall a, b :: a in AllDocuments(s) && b in AllDocuments(s) && a.wizardId == b.wizardId ==> a == b
  }

  ghost predicate Safe(k: Checks, h: Hash, w: World) {
    && (forall c: Collection, x :: x in w.store.Of(c) ==> IsUuid(x))
    && (w.durable.None? ==> w.store == EMPTY_STORE)
    && (w.durable.Some? ==>
      var s := w.durable.value;
      && Loadable(k, s)
      && (forall d :: d in AllDocuments(s) ==> d.wizardId in w.issued)
      && UniqueIds(s)
      && Known(s, w.store)
      && (s.active.Some? ==> AllWhole(h, w.store, s.active.value.documents))
      && (forall d :: Retiring(s, d) ==> Fits(w.store, d)))
  }

  // ------------------------------------------------------- start-of-run membership

  predicate HoldsRecorded(store: Store, d: Document) {
    ChunksOf(store, d).Keys == Elements(d.chunkIds)
  }

  predicate HoldsOnlyRecorded(store: Store, d: Document) {
    ChunksOf(store, d).Keys <= Elements(d.chunkIds)
  }

  /** What validate_physical_membership demands of the inventory before a run may act. */
  predicate Admissible(durable: Option<State>, store: Store) {
    match durable
    case None => store == EMPTY_STORE
    case Some(s) =>
      && Known(s, store)
      && (forall d :: d in AllDocuments(s) && d.status == Created ==> ChunksOf(store, d) == map[])
      && (forall d :: d in DocumentsOf(s.active) ==> HoldsRecorded(store, d))
      && (forall d :: d in DocumentsOf(s.pending) && d.status in {Created, Saved} ==> HoldsOnlyRecorded(store, d))
      && (forall d :: d in DocumentsOf(s.pending) && d.status == Saved ==> HoldsRecorded(store, d))
      && (forall d :: d in s.cleanup ==> HoldsOnlyRecorded(store, d))
  }

  datatype Expectation = Expectation(document: Document, exact: bool, required: bool)

  predicate Meets(store: Store, e: Expectation) {
    && (e.document.status == Created ==> ChunksOf(store, e.document) == map[])
    && (e.exact ==> HoldsOnlyRecorded(store, e.document))
    && (e.required ==> HoldsRecorded(store, e.document))
  }

  function ActiveExpectation(d: Document): Expectation { Expectation(d, true, true) }

  function PendingExpectation(d: Document): Expectation {
    Expectation(d, d.status in {Created, Saved}, d.status == Saved)
  }

  function CleanupExpectation(d: Document): Expectation { Expectation(d, true, false) }

  function Expectations(s: State): seq<Expectation> {
    seq(|DocumentsOf(s.active)|, i requires 0 <= i < |DocumentsOf(s.active)| => ActiveExpectation(DocumentsOf(s.active)[i]))
    + seq(|DocumentsOf(s.pending)|, i requires 0 <= i < |DocumentsOf(s.pending)| => PendingExpectation(DocumentsOf(s.pending)[i]))
    + seq(|s.cleanup|, i requires 0 <= i < |s.cleanup| => CleanupExpectation(s.cleanup[i]))
  }
}
