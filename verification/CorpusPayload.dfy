/** The state file's JSON form: what CorpusState.payload writes and load_corpus_state reads. */
module CorpusPayload {
  import opened Ordering
  import opened Corpus
  import opened CorpusProtocol
  import opened CorpusTheorems

  /** The member names the diagnostic uses, and any other. */
  datatype Key =
    | KeySchemaVersion
    | KeyDiagnostic
    | KeyDiagnosticUserId
    | KeyActive
    | KeyPendingReplacement
    | KeyPendingCleanup
    | KeyUpdatedAt
    | KeyCollection
    | KeyWizardId
    | KeyStatus
    | KeyTaskId
    | KeyChunkIds
    | KeyStorageFingerprint
    | KeyPath
    | KeySizeBytes
    | KeySha256
    | KeyKnowledge
    | KeyPolicy
    | KeySupportedExtensions
    | KeyUploadMaxFileBytes
    | KeyUploadMaxTotalBytes
    | KeyUploadReadChunkBytes
    | KeyGenerationId
    | KeyFixtureDigest
    | KeyFixtures
    | KeyTextEncoding
    | KeyTextJoinSeparator
    | KeyIngestionPolicy
    | KeyDocuments
    | KeyCreatedAt
    | KeyVerifiedAt
    | KeyCompletedAt
    | KeyOther(name: string)

  datatype Json =
    | Null
    | Bool(b: bool)
    | Int(n: int)
    | Str(s: string)
    | Arr(items: seq<Json>)
    | Obj(fields: map<Key, Json>)

  const SCHEMA_VERSION := "1.1"
  const DIAGNOSTIC := "wizard-corpus"

  // ---------------------------------------------------------------------- writing

  function OptionalPayload(o: Option<string>): Json {
    if o.None? then Null else Str(o.value)
  }

  function StringsPayload(s: seq<string>): (r: seq<Json>)
    ensures |r| == |s|
  {
    if s == [] then [] else [Str(s[0])] + StringsPayload(s[1..])
  }

  function CollectionName(c: Collection): string {
    match c case Knowledge => "knowledge" case Policy => "policy"
  }

  function StatusName(s: Status): string {
    match s
    case Created => "created"
    case SaveSubmitting => "save_submitting"
    case SaveSubmitted => "save_submitted"
    case Saved => "saved"
  }

  function DocumentPayload(d: Document): Json {
    Obj(map[KeyCollection := Str(CollectionName(d.collection)),
            KeyWizardId := Str(d.wizardId),
            KeyStatus := Str(StatusName(d.status)),
            KeyTaskId := OptionalPayload(d.taskId),
            KeyChunkIds := Arr(StringsPayload(d.chunkIds)),
            KeyStorageFingerprint := OptionalPayload(d.fingerprint)])
  }

  function DocumentsPayload(documents: seq<Document>): (r: seq<Json>)
    ensures |r| == |documents|
  {
    if documents == [] then [] else [DocumentPayload(documents[0])] + DocumentsPayload(documents[1..])
  }

  function EntriesPayload(entries: seq<FixtureEntry>): (r: seq<Json>)
    ensures |r| == |entries|
  {
    if entries == [] then []
    else [Obj(map[KeyPath := Str(entries[0].path), KeySizeBytes := Int(entries[0].sizeBytes),
                  KeySha256 := Str(entries[0].sha256)])] + EntriesPayload(entries[1..])
  }

  function ManifestPayload(m: Manifest): Json {
    Obj(map[KeyKnowledge := Arr(EntriesPayload(m.knowledge)), KeyPolicy := Arr(EntriesPayload(m.policy))])
  }

  function PolicyPayload(p: IngestionPolicy): Json {
    Obj(map[KeySupportedExtensions := Arr(StringsPayload(p.extensions)),
            KeyUploadMaxFileBytes := Int(p.maxFileBytes),
            KeyUploadMaxTotalBytes := Int(p.maxTotalBytes),
            KeyUploadReadChunkBytes := Int(p.readChunkBytes)])
  }

  function GenerationPayload(g: Option<Generation>): Json {
    if g.None? then Null
    else
      var v := g.value;
      Obj(map[KeyGenerationId := Str(v.generationId),
              KeyFixtureDigest := Str(v.fixtures.digest),
              KeyFixtures := ManifestPayload(v.fixtures.manifest),
              KeyTextEncoding := Str(v.fixtures.encoding),
              KeyTextJoinSeparator := Str(v.fixtures.separator),
              KeyIngestionPolicy := PolicyPayload(v.policy),
              KeyDocuments := Arr(DocumentsPayload(v.documents)),
              KeyCreatedAt := Str(v.createdAt),
              KeyVerifiedAt := OptionalPayload(v.verifiedAt),
              KeyCompletedAt := OptionalPayload(v.completedAt)])
  }

  function StatePayload(s: State): Json {
    Obj(map[KeySchemaVersion := Str(SCHEMA_VERSION),
            KeyDiagnostic := Str(DIAGNOSTIC),
            KeyDiagnosticUserId := Str(s.user),
            KeyActive := GenerationPayload(s.active),
            KeyPendingReplacement := GenerationPayload(s.pending),
            KeyPendingCleanup := Arr(DocumentsPayload(s.cleanup)),
            KeyUpdatedAt := Str(s.updatedAt)])
  }

  // ---------------------------------------------------------------------- reading

  function ReadOptional(j: Json): Option<Option<string>> {
    match j
    case Null => Some(None)
    case Str(s) => Some(Some(s))
    case _ => None
  }

  function ReadStrings(items: seq<Json>): Option<seq<string>> {
    if items == [] then Some([])
    else if !items[0].Str? then None
    else
      var rest := ReadStrings(items[1..]);
      if rest.None? then None else Some([items[0].s] + rest.value)
  }

  function ReadCollection(name: string): Option<Collection> {
    if name == "knowledge" then Some(Knowledge) else if name == "policy" then Some(Policy) else None
  }

  function ReadStatus(name: string): Option<Status> {
    if name == "created" then Some(Created)
    else if name == "save_submitting" then Some(SaveSubmitting)
    else if name == "save_submitted" then Some(SaveSubmitted)
    else if name == "saved" then Some(Saved)
    else None
  }

  const DOCUMENT_KEYS := {KeyCollection, KeyWizardId, KeyStatus, KeyTaskId, KeyChunkIds, KeyStorageFingerprint}

  function ReadDocument(j: Json): Option<Document> {
    if !j.Obj? || j.fields.Keys != DOCUMENT_KEYS then None
    else
      var f := j.fields;
      if !f[KeyCollection].Str? || !f[KeyWizardId].Str? || !f[KeyStatus].Str? || !f[KeyChunkIds].Arr? then None
      else
        var collection, status := ReadCollection(f[KeyCollection].s), ReadStatus(f[KeyStatus].s);
        var taskId, fingerprint := ReadOptional(f[KeyTaskId]), ReadOptional(f[KeyStorageFingerprint]);
        var chunkIds := ReadStrings(f[KeyChunkIds].items);
        if collection.None? || status.None? || taskId.None? || fingerprint.None? || chunkIds.None? then None
        else Some(Document(collection.value, f[KeyWizardId].s, status.value, taskId.value, chunkIds.value, fingerprint.value))
  }

  function ReadDocuments(items: seq<Json>): Option<seq<Document>> {
    if items == [] then Some([])
    else
      var first, rest := ReadDocument(items[0]), ReadDocuments(items[1..]);
      if first.None? || rest.None? then None else Some([first.value] + rest.value)
  }

  const FIXTURE_KEYS := {KeyPath, KeySizeBytes, KeySha256}

  function ReadEntries(items: seq<Json>): Option<seq<FixtureEntry>> {
    if items == [] then Some([])
    else if !items[0].Obj? || items[0].fields.Keys != FIXTURE_KEYS then None
    else
      var f := items[0].fields;
      var rest := ReadEntries(items[1..]);
      if rest.None? || !f[KeyPath].Str? || !f[KeySizeBytes].Int? || !f[KeySha256].Str? then None
      else Some([FixtureEntry(f[KeyPath].s, f[KeySizeBytes].n, f[KeySha256].s)] + rest.value)
  }

  function ReadManifest(j: Json): Option<Manifest> {
    if !j.Obj? || j.fields.Keys != {KeyKnowledge, KeyPolicy} then None
    else if !j.fields[KeyKnowledge].Arr? || !j.fields[KeyPolicy].Arr? then None
    else
      var knowledge, policy := ReadEntries(j.fields[KeyKnowledge].items), ReadEntries(j.fields[KeyPolicy].items);
      if knowledge.None? || policy.None? then None else Some(Manifest(knowledge.value, policy.value))
  }

  const POLICY_KEYS := {KeySupportedExtensions, KeyUploadMaxFileBytes, KeyUploadMaxTotalBytes, KeyUploadReadChunkBytes}

  function ReadPolicy(j: Json): Option<IngestionPolicy> {
    if !j.Obj? || j.fields.Keys != POLICY_KEYS then None
    else
      var f := j.fields;
      if !f[KeySupportedExtensions].Arr? || !f[KeyUploadMaxFileBytes].Int?
         || !f[KeyUploadMaxTotalBytes].Int? || !f[KeyUploadReadChunkBytes].Int? then None
      else
        var extensions := ReadStrings(f[KeySupportedExtensions].items);
        if extensions.None? then None
        else Some(IngestionPolicy(extensions.value, f[KeyUploadMaxFileBytes].n,
                                  f[KeyUploadMaxTotalBytes].n, f[KeyUploadReadChunkBytes].n))
  }

  const GENERATION_KEYS := {
    KeyGenerationId, KeyFixtureDigest, KeyFixtures, KeyTextEncoding, KeyTextJoinSeparator,
    KeyIngestionPolicy, KeyDocuments, KeyCreatedAt, KeyVerifiedAt, KeyCompletedAt}

  function ReadGeneration(j: Json): Option<Option<Generation>> {
    if j.Null? then Some(None)
    else if !j.Obj? || j.fields.Keys != GENERATION_KEYS then None
    else
      var f := j.fields;
      if !f[KeyGenerationId].Str? || !f[KeyFixtureDigest].Str? || !f[KeyTextEncoding].Str?
         || !f[KeyTextJoinSeparator].Str? || !f[KeyDocuments].Arr? || !f[KeyCreatedAt].Str? then None
      else
        AssembleGeneration(
          f, ReadManifest(f[KeyFixtures]), ReadPolicy(f[KeyIngestionPolicy]), ReadDocuments(f[KeyDocuments].items),
          ReadOptional(f[KeyVerifiedAt]), ReadOptional(f[KeyCompletedAt]))
  }

  function AssembleGeneration(
    f: map<Key, Json>, manifest: Option<Manifest>, policy: Option<IngestionPolicy>,
    documents: Option<seq<Document>>, verifiedAt: Option<Option<string>>, completedAt: Option<Option<string>>)
    : Option<Option<Generation>>
    requires f.Keys == GENERATION_KEYS
    requires f[KeyGenerationId].Str? && f[KeyFixtureDigest].Str? && f[KeyTextEncoding].Str?
    requires f[KeyTextJoinSeparator].Str? && f[KeyCreatedAt].Str?
  {
    if manifest.None? || policy.None? || documents.None? || verifiedAt.None? || completedAt.None? then None
    else
      Some(Some(Generation(
        f[KeyGenerationId].s,
        Fixtures(f[KeyFixtureDigest].s, manifest.value, f[KeyTextEncoding].s, f[KeyTextJoinSeparator].s),
        policy.value, documents.value, f[KeyCreatedAt].s, verifiedAt.value, completedAt.value)))
  }

  const STATE_KEYS := {
    KeySchemaVersion, KeyDiagnostic, KeyDiagnosticUserId, KeyActive, KeyPendingReplacement, KeyPendingCleanup, KeyUpdatedAt}

  function ReadState(j: Json, user: string): Option<State> {
    if !j.Obj? || j.fields.Keys != STATE_KEYS then None
    else
      var f := j.fields;
      if f[KeySchemaVersion] != Str(SCHEMA_VERSION) || f[KeyDiagnostic] != Str(DIAGNOSTIC)
         || f[KeyDiagnosticUserId] != Str(user) || !f[KeyPendingCleanup].Arr? || !f[KeyUpdatedAt].Str? then None
      else
        AssembleState(user, ReadGeneration(f[KeyActive]), ReadGeneration(f[KeyPendingReplacement]),
                      ReadDocuments(f[KeyPendingCleanup].items), f[KeyUpdatedAt].s)
  }

  function AssembleState(
    user: string, active: Option<Option<Generation>>, pending: Option<Option<Generation>>,
    cleanup: Option<seq<Document>>, updatedAt: string): Option<State>
  {
    if active.None? || pending.None? || cleanup.None? then None
    else Some(State(user, active.value, pending.value, cleanup.value, updatedAt))
  }

  /** load_corpus_state, from the parsed file on. */
  function LoadState(k: Checks, j: Json, user: string): Result<State> {
    var read := ReadState(j, user);
    if read.None? then Err("Corpus state is malformed")
    else if !Loadable(k, read.value) then Err("Corpus state is inconsistent")
    else Ok(read.value)
  }

  // ----------------------------------------------- reading inverts writing, exactly

  lemma {:induction false} StringsWritten(s: seq<string>)
    ensures ReadStrings(StringsPayload(s)) == Some(s)
  {
    if s != [] {
      assert StringsPayload(s)[1..] == StringsPayload(s[1..]);
      StringsWritten(s[1..]);
      assert [s[0]] + s[1..] == s;
    }
  }

  lemma {:induction false} StringsRead(items: seq<Json>)
    requires ReadStrings(items).Some?
    ensures StringsPayload(ReadStrings(items).value) == items
  {
    if items != [] {
      StringsRead(items[1..]);
    }
  }

  /** The members of a document's object, one by one. */
  predicate DocumentMembers(f: map<Key, Json>, d: Document) {
    && f.Keys == DOCUMENT_KEYS
    && f[KeyCollection] == Str(CollectionName(d.collection))
    && f[KeyWizardId] == Str(d.wizardId)
    && f[KeyStatus] == Str(StatusName(d.status))
    && f[KeyTaskId] == OptionalPayload(d.taskId)
    && f[KeyChunkIds] == Arr(StringsPayload(d.chunkIds))
    && f[KeyStorageFingerprint] == OptionalPayload(d.fingerprint)
  }

  lemma DocumentHasKeys(d: Document)
    ensures DocumentPayload(d).fields.Keys == DOCUMENT_KEYS
  {
  }

  lemma DocumentHasMembers(d: Document)
    ensures DocumentMembers(DocumentPayload(d).fields, d)
  {
    DocumentHasKeys(d);
  }

  lemma DocumentWritten(d: Document)
    ensures ReadDocument(DocumentPayload(d)) == Some(d)
  {
    StringsWritten(d.chunkIds);
    DocumentHasMembers(d);
  }

  lemma DocumentMembersRead(j: Json)
    requires ReadDocument(j).Some?
    ensures DocumentMembers(j.fields, ReadDocument(j).value)
  {
    StringsRead(j.fields[KeyChunkIds].items);
  }

  lemma DocumentRead(j: Json)
    requires ReadDocument(j).Some?
    ensures DocumentPayload(ReadDocument(j).value) == j
  {
    var d := ReadDocument(j).value;
    DocumentMembersRead(j);
    DocumentHasMembers(d);
    assert DocumentPayload(d).fields == j.fields;
  }

  lemma {:induction false} DocumentsWritten(documents: seq<Document>)
    ensures ReadDocuments(DocumentsPayload(documents)) == Some(documents)
  {
    if documents != [] {
      DocumentWritten(documents[0]);
      assert DocumentsPayload(documents)[1..] == DocumentsPayload(documents[1..]);
      DocumentsWritten(documents[1..]);
      assert [documents[0]] + documents[1..] == documents;
    }
  }

  lemma {:induction false} DocumentsRead(items: seq<Json>)
    requires ReadDocuments(items).Some?
    ensures DocumentsPayload(ReadDocuments(items).value) == items
  {
    if items != [] {
      DocumentRead(items[0]);
      DocumentsRead(items[1..]);
    }
  }

  lemma {:induction false} EntriesWritten(entries: seq<FixtureEntry>)
    ensures ReadEntries(EntriesPayload(entries)) == Some(entries)
  {
    if entries != [] {
      EntriesWritten(entries[1..]);
      var items := EntriesPayload(entries);
      assert items[0].fields.Keys == FIXTURE_KEYS;
      assert items[1..] == EntriesPayload(entries[1..]);
      assert [entries[0]] + entries[1..] == entries;
    }
  }

  lemma {:induction false} EntriesRead(items: seq<Json>)
    requires ReadEntries(items).Some?
    ensures EntriesPayload(ReadEntries(items).value) == items
  {
    if items != [] {
      EntriesRead(items[1..]);
      assert EntriesPayload(ReadEntries(items).value)[0].fields == items[0].fields;
    }
  }

  lemma ManifestWritten(m: Manifest)
    ensures ReadManifest(ManifestPayload(m)) == Some(m)
  {
    EntriesWritten(m.knowledge);
    EntriesWritten(m.policy);
    assert ManifestPayload(m).fields.Keys == {KeyKnowledge, KeyPolicy};
  }

  lemma ManifestRead(j: Json)
    requires ReadManifest(j).Some?
    ensures ManifestPayload(ReadManifest(j).value) == j
  {
    EntriesRead(j.fields[KeyKnowledge].items);
    EntriesRead(j.fields[KeyPolicy].items);
    assert ManifestPayload(ReadManifest(j).value).fields == j.fields;
  }

  lemma PolicyWritten(p: IngestionPolicy)
    ensures ReadPolicy(PolicyPayload(p)) == Some(p)
  {
    StringsWritten(p.extensions);
    assert PolicyPayload(p).fields.Keys == POLICY_KEYS;
  }

  lemma PolicyRead(j: Json)
    requires ReadPolicy(j).Some?
    ensures PolicyPayload(ReadPolicy(j).value) == j
  {
    StringsRead(j.fields[KeySupportedExtensions].items);
    assert PolicyPayload(ReadPolicy(j).value).fields == j.fields;
  }

  /** The members of a generation's object, one by one. */
  predicate GenerationMembers(f: map<Key, Json>, v: Generation) {
    && f.Keys == GENERATION_KEYS
    && f[KeyGenerationId] == Str(v.generationId)
    && f[KeyFixtureDigest] == Str(v.fixtures.digest)
    && f[KeyFixtures] == ManifestPayload(v.fixtures.manifest)
    && f[KeyTextEncoding] == Str(v.fixtures.encoding)
    && f[KeyTextJoinSeparator] == Str(v.fixtures.separator)
    && f[KeyIngestionPolicy] == PolicyPayload(v.policy)
    && f[KeyDocuments] == Arr(DocumentsPayload(v.documents))
    && f[KeyCreatedAt] == Str(v.createdAt)
    && f[KeyVerifiedAt] == OptionalPayload(v.verifiedAt)
    && f[KeyCompletedAt] == OptionalPayload(v.completedAt)
  }

  lemma GenerationHasKeys(v: Generation)
    ensures GenerationPayload(Some(v)).fields.Keys == GENERATION_KEYS
  {
  }

  lemma GenerationHasValues(v: Generation)
    requires GenerationPayload(Some(v)).fields.Keys == GENERATION_KEYS
    ensures GenerationMembers(GenerationPayload(Some(v)).fields, v)
  {
  }

  lemma GenerationHasMembers(v: Generation)
    ensures GenerationMembers(GenerationPayload(Some(v)).fields, v)
  {
    GenerationHasKeys(v);
    GenerationHasValues(v);
  }

  lemma MembersRead(j: Json, v: Generation)
    requires j.Obj? && GenerationMembers(j.fields, v)
    ensures ReadGeneration(j) == Some(Some(v))
  {
    var f := j.fields;
    ManifestWritten(v.fixtures.manifest);
    PolicyWritten(v.policy);
    DocumentsWritten(v.documents);
    assert AssembleGeneration(f, Some(v.fixtures.manifest), Some(v.policy), Some(v.documents),
                              Some(v.verifiedAt), Some(v.completedAt)) == Some(Some(v));
  }

  lemma GenerationWritten(g: Option<Generation>)
    ensures ReadGeneration(GenerationPayload(g)) == Some(g)
  {
    if g.Some? {
      GenerationHasMembers(g.value);
      MembersRead(GenerationPayload(g), g.value);
    }
  }

  lemma SameMembers(f: map<Key, Json>, g: map<Key, Json>, v: Generation)
    requires GenerationMembers(f, v) && GenerationMembers(g, v)
    ensures f == g
  {
    forall k | k in f ensures f[k] == g[k] {
      assert k in GENERATION_KEYS;
    }
  }

  lemma ReadMembers(j: Json)
    requires ReadGeneration(j).Some? && ReadGeneration(j).value.Some?
    ensures GenerationMembers(j.fields, ReadGeneration(j).value.value)
  {
    var g := ReadGeneration(j).value.value;
    ManifestRead(j.fields[KeyFixtures]);
    PolicyRead(j.fields[KeyIngestionPolicy]);
    DocumentsRead(j.fields[KeyDocuments].items);
  }

  lemma GenerationRead(j: Json)
    requires ReadGeneration(j).Some?
    ensures GenerationPayload(ReadGeneration(j).value) == j
  {
    if j.Obj? {
      var g := ReadGeneration(j).value.value;
      ReadMembers(j);
      GenerationHasMembers(g);
      SameMembers(GenerationPayload(Some(g)).fields, j.fields, g);
    }
  }

  predicate StateMembers(f: map<Key, Json>, s: State) {
    && f.Keys == STATE_KEYS
    && f[KeySchemaVersion] == Str(SCHEMA_VERSION)
    && f[KeyDiagnostic] == Str(DIAGNOSTIC)
    && f[KeyDiagnosticUserId] == Str(s.user)
    && f[KeyActive] == GenerationPayload(s.active)
    && f[KeyPendingReplacement] == GenerationPayload(s.pending)
    && f[KeyPendingCleanup] == Arr(DocumentsPayload(s.cleanup))
    && f[KeyUpdatedAt] == Str(s.updatedAt)
  }

  lemma StateHasKeys(s: State)
    ensures StatePayload(s).fields.Keys == STATE_KEYS
  {
  }

  lemma StateHasMembers(s: State)
    ensures StateMembers(StatePayload(s).fields, s)
  {
    StateHasKeys(s);
  }

  lemma StateMembersRead(j: Json, s: State)
    requires j.Obj? && StateMembers(j.fields, s)
    requires ReadGeneration(GenerationPayload(s.active)) == Some(s.active)
    requires ReadGeneration(GenerationPayload(s.pending)) == Some(s.pending)
    requires ReadDocuments(DocumentsPayload(s.cleanup)) == Some(s.cleanup)
    ensures ReadState(j, s.user) == Some(s)
  {
    assert AssembleState(s.user, Some(s.active), Some(s.pending), Some(s.cleanup), s.updatedAt) == Some(s);
  }

  lemma StateWritten(s: State)
    ensures ReadState(StatePayload(s), s.user) == Some(s)
  {
    GenerationWritten(s.active);
    GenerationWritten(s.pending);
    DocumentsWritten(s.cleanup);
    StateHasMembers(s);
    StateMembersRead(StatePayload(s), s);
  }

  lemma ReadStateMembers(j: Json, user: string)
    requires ReadState(j, user).Some?
    ensures StateMembers(j.fields, ReadState(j, user).value) && ReadState(j, user).value.user == user
  {
    GenerationRead(j.fields[KeyActive]);
    GenerationRead(j.fields[KeyPendingReplacement]);
    DocumentsRead(j.fields[KeyPendingCleanup].items);
  }

  lemma StateRead(j: Json, user: string)
    requires ReadState(j, user).Some?
    ensures j == StatePayload(ReadState(j, user).value) && ReadState(j, user).value.user == user
  {
    var s := ReadState(j, user).value;
    ReadStateMembers(j, user);
    StateHasMembers(s);
    assert StatePayload(s).fields == j.fields;
  }

  /** A file loads as a state exactly when it is that state's payload, for this user, and the
      state passes every check: nothing is lost, and nothing else is accepted. */
  lemma LoadInvertsPayload(k: Checks, j: Json, user: string, s: State)
    ensures LoadState(k, j, user) == Ok(s) <==> j == StatePayload(s) && s.user == user && Loadable(k, s)
  {
    StateWritten(s);
    if ReadState(j, user).Some? {
      StateRead(j, user);
    }
  }

  /** Hence whatever a crash leaves behind, the next run reads back the very state last written. */
  lemma EveryCrashPointLoads(k: Checks, h: Hash, ws: seq<World>, n: nat)
    requires Path(k, h, ws) && ws[0] == INITIAL && n < |ws| && ws[n].durable.Some?
    ensures var s := ws[n].durable.value; LoadState(k, StatePayload(s), s.user) == Ok(s)
  {
    EveryCrashPointIsSafe(k, h, ws, n);
    LoadInvertsPayload(k, StatePayload(ws[n].durable.value), ws[n].durable.value.user, ws[n].durable.value);
  }

  /** A whole history that ends with a state file of this user, or none, loads for this user at
      every point: nobody finds another's file, and nobody's own file is refused. */
  lemma EveryCrashPointLoadsFor(k: Checks, h: Hash, ws: seq<World>, n: nat, user: string)
    requires Path(k, h, ws) && ws[0] == INITIAL && n < |ws| && BelongsTo(ws[|ws| - 1], user) && ws[n].durable.Some?
    ensures LoadState(k, StatePayload(ws[n].durable.value), user) == Ok(ws[n].durable.value)
  {
    PathBelongs(k, h, ws, |ws| - 1, user);
    assert BelongsTo(ws[n], user);
    EveryCrashPointLoads(k, h, ws, n);
  }
}
