/** The durable corpus state and its transition functions: frozen records, and pure
    functions that build the next record or refuse. */
module Corpus {
  import opened Ordering
  import opened Text

  type Id = string

  datatype Result<+T> = Ok(value: T) | Err(message: string)

  datatype Collection = Knowledge | Policy

  const COLLECTIONS: seq<Collection> := [Knowledge, Policy]

  datatype Status = Created | SaveSubmitting | SaveSubmitted | Saved
  {
    function Rank(): nat {
      match this
      case Created => 0
      case SaveSubmitting => 1
      case SaveSubmitted => 2
      case Saved => 3
    }
  }

  datatype Document = Document(
    collection: Collection,
    wizardId: Id,
    status: Status,
    taskId: Option<Id>,
    chunkIds: seq<Id>,
    fingerprint: Option<string>)

  datatype FixtureEntry = FixtureEntry(path: string, sizeBytes: int, sha256: string)

  datatype Manifest = Manifest(knowledge: seq<FixtureEntry>, policy: seq<FixtureEntry>)

  datatype IngestionPolicy = IngestionPolicy(
    extensions: seq<string>,
    maxFileBytes: int,
    maxTotalBytes: int,
    readChunkBytes: int)

  datatype Fixtures = Fixtures(
    digest: string,
    manifest: Manifest,
    encoding: string,
    separator: string)

  datatype Generation = Generation(
    generationId: string,
    fixtures: Fixtures,
    policy: IngestionPolicy,
    documents: seq<Document>,
    createdAt: string,
    verifiedAt: Option<string>,
    completedAt: Option<string>)
  {
    function Find(c: Collection): (found: Option<Document>)
      ensures found.Some? ==> found.value in documents && found.value.collection == c
      ensures found.None? ==> forall d :: d in documents ==> d.collection != c
    {
      FindIn(documents, c)
    }
  }

  function FindIn(documents: seq<Document>, c: Collection): (found: Option<Document>)
    ensures found.Some? ==> found.value in documents && found.value.collection == c
    ensures found.None? ==> forall d :: d in documents ==> d.collection != c
  {
    if documents == [] then None
    else if documents[0].collection == c then Some(documents[0])
    else FindIn(documents[1..], c)
  }

  datatype State = State(
    user: string,
    active: Option<Generation>,
    pending: Option<Generation>,
    cleanup: seq<Document>,
    updatedAt: string)

  /** What this model does not look inside: file names, the codec registry, the clock's
      notation and the fixture hash.  Every theorem holds for any choice of them. */
  datatype Checks = Checks(
    pathOk: (Collection, string) -> bool,
    encodingOk: string -> bool,
    timestampOk: string -> bool,
    digest: (Manifest, string, string) -> string)

  predicate IsSha256(s: string) {
    |s| == 64 && forall i :: 0 <= i < 64 ==> IsHex(s[i])
  }

  /** The checks of CorpusDocument.__post_init__. */
  predicate DocumentOk(d: Document) {
    && IsUuid(d.wizardId)
    && (d.taskId.Some? ==> IsUuid(d.taskId.value))
    && (forall i :: 0 <= i < |d.chunkIds| ==> IsUuid(d.chunkIds[i]))
    && StrictlySorted(d.chunkIds)
    && (d.status in {Created, SaveSubmitting} ==> d.taskId.None?)
    && (d.status in {SaveSubmitted, Saved} ==> d.taskId.Some?)
    && (d.status != Saved ==> d.chunkIds == [] && d.fingerprint.None?)
    && (d.status == Saved ==> d.chunkIds != [] && d.fingerprint.Some? && IsSha256(d.fingerprint.value))
  }

  predicate EntriesOk(k: Checks, c: Collection, entries: seq<FixtureEntry>) {
    && entries != []
    && (forall i :: 0 <= i < |entries| ==>
      k.pathOk(c, entries[i].path) && entries[i].sizeBytes >= 0 && IsSha256(entries[i].sha256))
    && (forall i, j :: 0 <= i < j < |entries| ==> Less(entries[i].path, entries[j].path))
  }

  predicate ManifestOk(k: Checks, m: Manifest) {
    EntriesOk(k, Knowledge, m.knowledge) && EntriesOk(k, Policy, m.policy)
  }

  predicate PolicyOk(p: IngestionPolicy) {
    && p.extensions != []
    && (forall i :: 0 <= i < |p.extensions| ==> p.extensions[i] != [] && p.extensions[i][0] == '.')
    && StrictlySorted(p.extensions)
    && 0 < p.readChunkBytes <= p.maxFileBytes <= p.maxTotalBytes
  }

  predicate FixturesOk(k: Checks, f: Fixtures) {
    && ManifestOk(k, f.manifest)
    && k.encodingOk(f.encoding)
    && f.digest == k.digest(f.manifest, f.encoding, f.separator)
    && f.digest != []
  }

  predicate OnePerCollection(documents: seq<Document>) {
    forall i, j :: 0 <= i < j < |documents| ==> documents[i].collection != documents[j].collection
  }

  predicate Covers(documents: seq<Document>, c: Collection) {
    exists i :: 0 <= i < |documents| && documents[i].collection == c
  }

  /** Both collections are present and every document is saved. */
  predicate Complete(documents: seq<Document>) {
    && (forall c: Collection :: Covers(documents, c))
    && (forall i :: 0 <= i < |documents| ==> documents[i].status == Saved)
  }

  /** The checks of CorpusGeneration.__post_init__. */
  predicate GenerationOk(k: Checks, g: Generation) {
    && g.generationId != []
    && FixturesOk(k, g.fixtures)
    && PolicyOk(g.policy)
    && OnePerCollection(g.documents)
    && (g.verifiedAt.Some? ==> k.timestampOk(g.verifiedAt.value) && Complete(g.documents))
    && (g.completedAt.Some? ==> k.timestampOk(g.completedAt.value) && g.verifiedAt.Some?)
  }

  function DocumentsOf(g: Option<Generation>): seq<Document> {
    if g.None? then [] else g.value.documents
  }

  function AllDocuments(s: State): seq<Document> {
    DocumentsOf(s.active) + DocumentsOf(s.pending) + s.cleanup
  }

  predicate SameIdentity(a: Document, b: Document) {
    a.collection == b.collection && a.wizardId == b.wizardId
  }

  predicate DistinctIdentities(documents: seq<Document>) {
    forall i, j :: 0 <= i < j < |documents| ==> !SameIdentity(documents[i], documents[j])
  }

  predicate DocumentsOk(documents: seq<Document>) {
    forall i :: 0 <= i < |documents| ==> DocumentOk(documents[i])
  }

  predicate StoredGenerationOk(k: Checks, g: Option<Generation>) {
    g.Some? ==> GenerationOk(k, g.value) && DocumentsOk(g.value.documents) && k.timestampOk(g.value.createdAt)
  }

  /** Everything load_corpus_state checks of a state it reads back. */
  predicate Loadable(k: Checks, s: State) {
    && StoredGenerationOk(k, s.active)
    && StoredGenerationOk(k, s.pending)
    && DocumentsOk(s.cleanup)
    && k.timestampOk(s.updatedAt)
    && (s.active.Some? ==> s.active.value.completedAt.Some? && s.active.value.verifiedAt.Some?
                           && Complete(s.active.value.documents))
    && (s.pending.Some? ==> s.pending.value.completedAt.None?)
    && (forall i :: 0 <= i < |s.cleanup| ==> s.cleanup[i].status == Saved)
    && (s.active.None? ==> s.cleanup == [])
    && DistinctIdentities(AllDocuments(s))
  }

  function NewState(user: string, now: string): State {
    State(user, None, None, [], now)
  }

  function RecordActivePolicy(
    k: Checks, s: State, fixtures: Fixtures, policy: IngestionPolicy, now: string): Result<State>
  {
    if s.active.None? then Err("Corpus has no active generation")
    else if s.active.value.fixtures.digest != fixtures.digest then
      Err("Cannot record policy for a different fixture corpus")
    else
      var active := s.active.value.(policy := policy);
      if !GenerationOk(k, active) then Err("Corpus generation is invalid")
      else Ok(s.(active := Some(active), updatedAt := now))
  }

  function BeginReplacement(
    k: Checks, s: State, runId: string, fixtures: Fixtures, policy: IngestionPolicy,
    createdAt: string, now: string): Result<State>
  {
    if s.pending.Some? then Err("A corpus replacement is already pending")
    else
      var g := Generation(runId, fixtures, policy, [], createdAt, None, None);
      if !GenerationOk(k, g) then Err("Corpus generation is invalid")
      else Ok(s.(pending := Some(g), updatedAt := now))
  }

  function NextStatus(s: Status): Option<Status> {
    match s
    case Created => Some(SaveSubmitting)
    case SaveSubmitting => Some(SaveSubmitted)
    case SaveSubmitted => Some(Saved)
    case Saved => None
  }

  function Substitute(documents: seq<Document>, d: Document): (r: seq<Document>)
    ensures |r| == |documents|
    ensures forall i :: 0 <= i < |r| ==>
      r[i] == if documents[i].collection == d.collection then d else documents[i]
  {
    if documents == [] then []
    else [if documents[0].collection == d.collection then d else documents[0]] + Substitute(documents[1..], d)
  }

  function RecordReplacementDocument(k: Checks, s: State, d: Document, now: string): Result<State> {
    if s.pending.None? then Err("No corpus replacement is pending")
    else if s.pending.value.verifiedAt.Some? then Err("Verified corpus replacement cannot be modified")
    else
      var g := s.pending.value;
      var existing := g.Find(d.collection);
      if existing.None? && d.status != Created then Err("Corpus document must be recorded at Create")
      else if existing.Some? && existing.value.wizardId != d.wizardId then
        Err("Corpus document identity cannot change")
      else if existing.Some? && NextStatus(existing.value.status) != Some(d.status) then
        Err("Corpus document transition is invalid")
      else if existing.Some? && existing.value.taskId.Some? && d.taskId != existing.value.taskId then
        Err("Corpus task identity cannot change")
      else
        var documents := Substitute(g.documents, d) + (if existing.None? then [d] else []);
        var updated := g.(documents := documents);
        if !GenerationOk(k, updated) then Err("Corpus generation is invalid")
        else Ok(s.(pending := Some(updated), updatedAt := now))
  }

  function MarkReplacementVerified(k: Checks, s: State, verifiedAt: string, now: string): Result<State> {
    if s.pending.None? then Err("No corpus replacement is pending")
    else if s.pending.value.verifiedAt.Some? then Err("Corpus replacement is already verified")
    else if !Complete(s.pending.value.documents) then Err("Corpus replacement is not complete")
    else
      var verified := s.pending.value.(verifiedAt := Some(verifiedAt));
      if !GenerationOk(k, verified) then Err("Corpus generation is invalid")
      else Ok(s.(pending := Some(verified), updatedAt := now))
  }

  function DiscardPendingReplacement(s: State, now: string): State {
    s.(pending := None, updatedAt := now)
  }

  function PromoteReplacement(k: Checks, s: State, completedAt: string, now: string): Result<State> {
    if s.pending.None? then Err("No corpus replacement is pending")
    else if s.pending.value.verifiedAt.None? then Err("Corpus replacement has not been verified")
    else
      var completed := s.pending.value.(completedAt := Some(completedAt));
      if !GenerationOk(k, completed) then Err("Corpus generation is invalid")
      else Ok(s.(active := Some(completed), pending := None,
                 cleanup := s.cleanup + DocumentsOf(s.active), updatedAt := now))
  }

  function Without(documents: seq<Document>, d: Document): (r: seq<Document>)
    ensures |r| <= |documents|
    ensures forall x :: x in r <==> x in documents && !SameIdentity(x, d)
    ensures |r| == |documents| <==> forall x :: x in documents ==> !SameIdentity(x, d)
  {
    if documents == [] then []
    else
      var rest := Without(documents[1..], d);
      assert forall x :: x in documents <==> x == documents[0] || x in documents[1..];
      if SameIdentity(documents[0], d) then rest else [documents[0]] + rest
  }

  function RemovePendingCleanup(s: State, d: Document, now: string): Result<State> {
    var remaining := Without(s.cleanup, d);
    if |remaining| == |s.cleanup| then Err("Corpus cleanup document is not pending")
    else Ok(s.(cleanup := remaining, updatedAt := now))
  }
}
