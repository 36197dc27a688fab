/** The window is real: two crashes reach it from an empty installation. */
module CorpusWindow {
  import opened Ordering
  import opened Text
  import opened Corpus
  import opened CorpusProtocol
  import opened CorpusSafety
  import opened CorpusTheorems

  /** Inputs any installation may have: valid fixtures and policy, a clock that prints valid
      timestamps, and an id, a task and a chunk the service might hand out. */
  datatype Inputs = Inputs(
    user: string, runId: string, now: string,
    fixtures: Fixtures, policy: IngestionPolicy,
    wizard: Id, task: Id, chunk: Id, content: string)

  predicate Plausible(k: Checks, h: Hash, i: Inputs) {
    && i.runId != [] && k.timestampOk(i.now) && FixturesOk(k, i.fixtures) && PolicyOk(i.policy)
    && IsUuid(i.wizard) && IsUuid(i.task) && IsUuid(i.chunk)
    && IsSha256(h(map[i.chunk := i.content]))
  }

  function CreatedDocument(i: Inputs): Document {
    Document(Knowledge, i.wizard, Created, None, [], None)
  }

  function SubmittedDocument(i: Inputs): Document {
    Document(Knowledge, i.wizard, SaveSubmitted, Some(i.task), [], None)
  }

  function SavedDocument(h: Hash, i: Inputs): Document {
    Document(Knowledge, i.wizard, Saved, Some(i.task), [i.chunk], Some(h(map[i.chunk := i.content])))
  }

  function Replacing(i: Inputs, documents: seq<Document>): State {
    State(i.user, None, Some(Generation(i.runId, i.fixtures, i.policy, documents, i.now, None, None)), [], i.now)
  }

  function OneChunk(i: Inputs): Store {
    Store(map[i.chunk := Chunk(i.wizard, i.content)], map[])
  }

  lemma RecordsFirst(k: Checks, i: Inputs, d: Document)
    requires i.runId != [] && FixturesOk(k, i.fixtures) && PolicyOk(i.policy) && d.status == Created
    ensures RecordReplacementDocument(k, Replacing(i, []), d, i.now) == Ok(Replacing(i, [d]))
  {
    assert Substitute([], d) + [d] == [d];
  }

  lemma RecordsNext(k: Checks, i: Inputs, p: Document, d: Document)
    requires i.runId != [] && FixturesOk(k, i.fixtures) && PolicyOk(i.policy) && Advances(p, d)
    ensures RecordReplacementDocument(k, Replacing(i, [p]), d, i.now) == Ok(Replacing(i, [d]))
  {
    assert Substitute([p], d) + [] == [d];
    assert FindIn([p], d.collection) == Some(p);
  }

  /** The first run begins a replacement and records the created document. */
  lemma Prepared(k: Checks, h: Hash, i: Inputs) returns (ws: seq<World>)
    requires Plausible(k, h, i)
    ensures Path(k, h, ws) && ws[0] == INITIAL
    ensures ws[|ws| - 1] == World(Some(Replacing(i, [CreatedDocument(i)])), EMPTY_STORE, {i.wizard})
  {
    ws := [INITIAL];
    forall n ensures Linked(k, h, ws, n) {
    }
    var w := World(Some(NewState(i.user, i.now)), EMPTY_STORE, {});
    PathExtended(k, h, ws, WroteNew(i.user, i.now), w);
    ws := ws + [w];
    w := w.(durable := Some(Replacing(i, [])));
    PathExtended(k, h, ws, WroteBegin(i.runId, i.fixtures, i.policy, i.now, i.now), w);
    ws := ws + [w];
    w := World(Some(Replacing(i, [CreatedDocument(i)])), EMPTY_STORE, {i.wizard});
    assert {} + {i.wizard} == {i.wizard};
    RecordsFirst(k, i, CreatedDocument(i));
    PathExtended(k, h, ws, WroteDocument(CreatedDocument(i), i.now), w);
    ws := ws + [w];
  }

  function SubmittingDocument(i: Inputs): Document {
    CreatedDocument(i).(status := SaveSubmitting)
  }

  lemma ChunkWritten(k: Checks, h: Hash, i: Inputs) returns (ws: seq<World>)
    requires Plausible(k, h, i)
    ensures Path(k, h, ws) && ws[0] == INITIAL
    ensures ws[|ws| - 1] == World(Some(Replacing(i, [SubmittingDocument(i)])), OneChunk(i), {i.wizard})
  {
    ws := Prepared(k, h, i);
    var submitting := SubmittingDocument(i);
    assert {i.wizard} + {i.wizard} == {i.wizard};
    RecordsNext(k, i, CreatedDocument(i), submitting);
    var w := World(Some(Replacing(i, [submitting])), EMPTY_STORE, {i.wizard});
    PathExtended(k, h, ws, WroteDocument(submitting, i.now), w);
    ws := ws + [w];
    w := w.(store := OneChunk(i));
    assert submitting in [submitting];
    assert map[] + (map x | x in map[i.chunk := i.content] :: Chunk(i.wizard, map[i.chunk := i.content][x]))
      == map[i.chunk := Chunk(i.wizard, i.content)];
    PathExtended(k, h, ws, SaveWrote(submitting, map[i.chunk := i.content]), w);
    ws := ws + [w];
  }

  lemma Submitted(k: Checks, h: Hash, i: Inputs) returns (ws: seq<World>)
    requires Plausible(k, h, i)
    ensures Path(k, h, ws) && ws[0] == INITIAL
    ensures ws[|ws| - 1] == World(Some(Replacing(i, [SubmittedDocument(i)])), OneChunk(i), {i.wizard})
  {
    ws := ChunkWritten(k, h, i);
    var submitted := SubmittedDocument(i);
    assert {i.wizard} + {i.wizard} == {i.wizard};
    RecordsNext(k, i, SubmittingDocument(i), submitted);
    var w := ws[|ws| - 1].(durable := Some(Replacing(i, [submitted])));
    PathExtended(k, h, ws, WroteDocument(submitted, i.now), w);
    ws := ws + [w];
  }

  /** It saves that document, and crashes before the second collection is seeded. */
  lemma SavedOnce(k: Checks, h: Hash, i: Inputs) returns (ws: seq<World>)
    requires Plausible(k, h, i)
    ensures Path(k, h, ws) && ws[0] == INITIAL
    ensures ws[|ws| - 1] == World(Some(Replacing(i, [SavedDocument(h, i)])), OneChunk(i), {i.wizard})
  {
    ws := Submitted(k, h, i);
    var saved := SavedDocument(h, i);
    assert {i.wizard} + {i.wizard} == {i.wizard};
    RecordsNext(k, i, SubmittedDocument(i), saved);
    var w := ws[|ws| - 1].(durable := Some(Replacing(i, [saved])));
    assert ChunksOf(OneChunk(i), saved) == map[i.chunk := i.content];
    assert Elements([i.chunk]) == {i.chunk};
    PathExtended(k, h, ws, WroteDocument(saved, i.now), w);
    ws := ws + [w];
  }

  /** The next run deletes its only chunk and crashes before discarding the replacement: what is
      left is a crash point that every later run refuses. */
  lemma WindowIsReachable(k: Checks, h: Hash, i: Inputs) returns (ws: seq<World>)
    requires Plausible(k, h, i)
    ensures Path(k, h, ws) && ws[0] == INITIAL
    ensures var w := ws[|ws| - 1];
      && Safe(k, h, w) && InWindow(w) && !Admissible(w.durable, w.store)
      && w.store == EMPTY_STORE && w.durable == Some(Replacing(i, [SavedDocument(h, i)]))
  {
    ws := SavedOnce(k, h, i);
    var saved := SavedDocument(h, i);
    var before := ws[|ws| - 1];
    var w := before.(store := EMPTY_STORE);
    assert saved in [saved];
    assert ChunksOf(OneChunk(i), saved).Keys == {i.chunk};
    assert OneChunk(i).Of(Knowledge) - {i.chunk} == map[];
    assert Step(k, h, before, Deleted(saved, {i.chunk}), w);
    PathExtended(k, h, ws, Deleted(saved, {i.chunk}), w);
    ws := ws + [w];
    EveryCrashPointIsSafe(k, h, ws, |ws| - 1);
    assert ChunksOf(EMPTY_STORE, saved) == map[] && i.chunk in Elements(saved.chunkIds);
    assert !HoldsRecorded(EMPTY_STORE, saved);
    AcceptedExactlyOutsideWindow(k, h, w);
  }

  // ------------------------------------------------------------ concrete inputs

  lemma SomeDigest() returns (z: string)
    ensures IsSha256(z)
  {
    z := "";
    while |z| < 64
      invariant |z| <= 64 && forall i :: 0 <= i < |z| ==> IsHex(z[i])
    {
      z := z + "0";
    }
  }

  function SampleChecks(z: string): Checks {
    Checks((c, p) => true, e => true, t => true, (m, e, s) => z)
  }

  function SampleInputs(z: string): Inputs {
    Inputs("usr_diagnostic", "run-1", "2026-01-01T00:00:00.000Z",
           Fixtures(z, Manifest([FixtureEntry("knowledge/a.txt", 1, z)], [FixtureEntry("policy/a.txt", 1, z)]),
                    "utf-8-sig", "\n\n"),
           IngestionPolicy([".txt"], 2, 3, 1),
           SampleId('1'), SampleId('2'), SampleId('3'), "text")
  }

  function SampleId(last: char): string {
    "00000000-0000-0000-0000-00000000000" + [last]
  }

  lemma SampleIdOk(last: char)
    requires IsHex(last)
    ensures IsUuid(SampleId(last))
  {
  }

  lemma SampleFixturesOk(z: string)
    requires IsSha256(z)
    ensures FixturesOk(SampleChecks(z), SampleInputs(z).fixtures)
  {
    var k := SampleChecks(z);
    assert forall c, path :: k.pathOk(c, path);
    assert EntriesOk(k, Knowledge, SampleInputs(z).fixtures.manifest.knowledge);
    assert EntriesOk(k, Policy, SampleInputs(z).fixtures.manifest.policy);
  }

  /** So some crash point of some pair of runs is refused: that the next run accepts every crash
      point, which the recovery code assumes, does not hold. */
  lemma SomeCrashPointIsRefused() returns (k: Checks, h: Hash, ws: seq<World>)
    ensures Path(k, h, ws) && ws[0] == INITIAL
    ensures !Admissible(ws[|ws| - 1].durable, ws[|ws| - 1].store)
  {
    var z := SomeDigest();
    SampleFixturesOk(z);
    SampleIdOk('1');
    SampleIdOk('2');
    SampleIdOk('3');
    k, h := SampleChecks(z), chunks => z;
    ws := WindowIsReachable(k, h, SampleInputs(z));
  }
}
