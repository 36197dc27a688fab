# Verified model of the RAG platform's stateful cores

This project models, in Dafny, the parts of the repository whose correctness depends on more than
one function at a time, and proves what they keep, what they undo and what they determine.
`dafny verify dfyconfig.toml` checks all of it.

**Corpus generations** (`Corpus*.dfy`). The wizard diagnostic keeps a durable state file (active
generation, pending replacement, pending cleanup) beside a physical store of chunks. `Corpus` holds
the records and the transition functions; `CorpusProtocol` is the step relation between worlds
(state file, store, issued ids), one step for each durable write, each deletion and each partial
save; a crash is simply the end of a path, and the next run continues it. `CorpusSafety` and
`CorpusTheorems` prove what every path keeps. `CorpusRunner` is the program: a class whose fields are
the state file and the store, whose every change is appended to a history that must be a path.
`CorpusMembership` is the check at the start of a run, `CorpusPayload` the state file's JSON, and
`CorpusSessions` one run after another for one user, each reading the file that the last one left.

**Task queue and chat registry** (`TaskQueue*.dfy`, `ChatRegistry*.dfy`). The queue is a state machine
over the stretches of code between suspension points, with any number of callers, one worker for
each user, cancellations, fatal exceptions, bounded retention and close; `TaskQueueObject` is the
object with those methods, and `TaskOutcomes` says what the record of a task tells over every run. The registry's five tables are shown to be nothing more than one small
independent machine for each session.

**Canonical storage stream** (`StorageStream`, `StorageIntegrity`), **event streams** (`SseFraming`,
`SseTheorems`, `SseAgreement`, `SseCuts`), **upload batches** (`Batching`), **rank comparison**
(`RankComparison`), **request accounting** (`RequestRecorder`, `RequestOutcome`, `RequestAccounting`), **latency gate**
(`LatencyGate`, `LatencyPairing`,
`LatencyMeaning` for the verdict on the times themselves, `LatencySchedule`, `LatencyRuns`), **evaluation admission** (`Admission`,
`AdmissionObject`), **collection names** (`CollectionNames`). `Ordering`, `Sequences` and `Text` are
shared vocabulary.

## Where the code and its intention part

- `validate_physical_membership` requires every recorded chunk of a saved document of the pending
  replacement, while `_cleanup_pending` deletes those chunks before the single write that discards
  the replacement. A crash in between leaves a state that every later run refuses
  (`CorpusTheorems.AcceptedExactlyOutsideWindow` says exactly which crash points those are,
  `CorpusWindow.SomeCrashPointIsRefused` reaches one from an empty installation).
- A worker that dies of an exception that is neither a cancellation nor an `Exception` leaves its
  record running for ever: it is never retained, so it is never evicted, and `close` can still
  return normally once a later `enqueue` has replaced the worker
  (`TaskQueue.CloseMayLeaveARunningRecord`). `TaskQueue.CloseDrains` says exactly when the records
  that remain are all terminal.
- `consumeFrames` normalises line ends chunk by chunk. A cut between a carriage return and its line
  feed leaves the carriage return in the buffer (`SseTheorems.AssembledExactly`). At the end of a
  line this changes the events exactly when the line brings data
  (`SseCuts.CutPairChangesExactly`); at the end of the empty line between two frames it merges them
  into one event (`SseCuts.CutGapLosesAFrame`).
- An interruption inside `cleanup_session` leaves a chat session that is neither pending nor listed
  among the cleanups. `RequestAccounting.LoseASession` runs the phase into that state;
  `RequestAccounting.Phase.Run` says for each session that was created that it is listed exactly when
  its cleanup is not interrupted, hence that none is lost exactly when no created session's cleanup
  is. A query that was sent can then count as not attempted:
  `RequestOutcome.SentUnrecordedExactly` says exactly when.

## Model

| member | source | states |
|---|---|---|
| CorpusTheorems.EveryCrashPointIsSafe | deployment/wizard_diagnostic_api.py:2486-2631 | at every crash point of every sequence of runs the state file loads, every physical chunk belongs to a document it names, the active generation is whole in the store, and ids name one document each |
| CorpusTheorems.ActiveSurvives | deployment/wizard_diagnostic_api.py:2486-2631 | once a generation is active, every later crash point names a complete, verified, completed active generation with exactly its recorded chunks in the store |
| CorpusTheorems.PromotionKeepsBoth | deployment/wizard_diagnostic.py:1066-1082 | promotion leaves the new generation active and whole, and the old one still whole and listed for cleanup; the store is not touched |
| CorpusSafety.ActiveUntouched | deployment/wizard_diagnostic_api.py:1368-1406 | no deletion and no partial save, by whichever step, changes the records of an active document |
| CorpusSafety.StepKeepsSafe | deployment/wizard_diagnostic.py:961-1098 | every durable write, deletion and partial save that the write-ahead discipline allows keeps the whole invariant |
| CorpusTheorems.DocumentsOnlyProgress | deployment/wizard_diagnostic.py:1012-1043 | over any history a document only moves along created, save_submitting, save_submitted, saved; its task id is never replaced and a saved record never changes, across promotion and into cleanup |
| CorpusTheorems.AcceptedExactlyOutsideWindow | deployment/wizard_diagnostic.py:894-958 | a crash point passes the membership check exactly when no saved document of the replacement has lost a recorded chunk |
| CorpusTheorems.WindowEntry | deployment/wizard_diagnostic_api.py:2348-2349 | the refused window is entered exactly by deleting some chunk of a saved document of the pending replacement |
| CorpusTheorems.WindowExit | deployment/wizard_diagnostic_api.py:2357 | no step but the discarding write leads out of the window |
| CorpusTheorems.CleanIsExact | deployment/wizard_diagnostic_api.py:2340-2372 | with nothing pending and nothing to clean up, the store holds exactly the active generation's recorded chunks in both collections |
| CorpusWindow.WindowIsReachable | deployment/wizard_diagnostic_api.py:2348-2357 | for any plausible fixtures, ids and contents two crashing runs reach a safe crash point that is refused |
| CorpusWindow.SomeCrashPointIsRefused | deployment/wizard_diagnostic.py:925-929 | a concrete path from the empty installation to a refused crash point exists |
| CorpusMembership.ExpectationsSayAdmissible | deployment/wizard_diagnostic.py:918-957 | the list of documents marked exact or required says precisely what admissibility means |
| CorpusMembership.ValidatePhysicalMembership | deployment/wizard_diagnostic.py:894-958 | the loops over known and observed ids accept exactly the admissible pairs of state and store |
| CorpusMembership.CheckCollection | deployment/wizard_diagnostic.py:934-957 | one collection is accepted exactly when its chunks are known and its documents meet their expectations |
| CorpusPayload.LoadInvertsPayload | deployment/wizard_diagnostic.py:798-859 | a parsed file loads as a state exactly when it is that state's payload, for that user, and the state passes every check |
| CorpusPayload.GenerationRead | deployment/wizard_diagnostic.py:766-795 | whatever object is read as a generation is that generation's own payload |
| CorpusPayload.DocumentRead | deployment/wizard_diagnostic.py:750-763 | whatever object is read as a document is that document's own payload |
| CorpusPayload.EveryCrashPointLoads | deployment/wizard_diagnostic.py:798-859 | the state file at any crash point reads back as the very state last written |
| CorpusTheorems.UserStays | deployment/wizard_diagnostic.py:961-962 | no step changes the user of a state file, and a first one belongs to the user it is written for |
| CorpusTheorems.PathBelongs | deployment/wizard_diagnostic.py:961-1098 | a history with a point at which the state file is one user's has a state file of that user, or none, at every point |
| CorpusPayload.EveryCrashPointLoadsFor | deployment/wizard_diagnostic.py:813-816 | if the last state file is one user's, the file at every crash point loads for that user as the state last written |
| CorpusSessions.Diagnose | deployment/ragctl.py:1240-1248 | reading the state file refuses exactly another user's file, and the preflight exactly fixtures that changed and may not be reseeded, nothing being touched then; otherwise, however the run ends, every crash point of the whole history loads for its user |
| CorpusSessions.RunAll | deployment/ragctl.py:1240-1248 | of any number of runs for one user, each ending anyhow, none is refused the file that its predecessors left, and every crash point of all of them loads for that user |
| CorpusRunner.Machine.constructor | deployment/wizard_diagnostic_api.py:2486-2500 | before the first run, with no state file and an empty store, the history is the initial world alone and the invariant of every run holds |
| CorpusRunner.Machine.EnsurePersistentCorpus | deployment/wizard_diagnostic_api.py:2486-2631 | from any crash state: only legal steps, refused states are left alone, a state file keeps its user and a new one is this run's user's at every point, no guard or content check of its own fails, and a run that returns leaves one clean, whole, active generation with the store exactly its chunks; a reused generation differs in its policy alone, a new one is this run's; when it reuses, reseeds, or refuses changed fixtures |
| CorpusRunner.Machine.CleanupPending | deployment/wizard_diagnostic_api.py:2340-2372 | a refused state is left alone; otherwise recovery takes legal steps only and, when it returns, nothing is pending, the active generation is unchanged and the store holds exactly its chunks |
| CorpusRunner.Machine.DeleteDocument | deployment/wizard_diagnostic_api.py:1368-1406 | deletion in confirmed batches terminates, removes only chunks of that document, and when it returns none is left and the count is right |
| CorpusRunner.Machine.VerifyGeneration | deployment/wizard_diagnostic_api.py:2375-2416 | a verification that returns means that every document is whole and both collections stand; a failed check of its own means that they do not |
| CorpusRunner.Machine.FinishSave | deployment/wizard_diagnostic_api.py:2565-2599 | a saved document is recorded with exactly the chunks and fingerprint that the store holds |
| CorpusRunner.Machine.Record | deployment/wizard_diagnostic.py:982-989 | an atomic write is one legal step, which may or may not have become durable when it fails |
| CorpusRunner.SurvivorsOf | deployment/wizard_diagnostic_api.py:1384-1405 | after some batches exactly the ids not yet offered survive |
| TaskQueue.EveryInterleaving | backend/task_queue.py:91-213 | every reachable state of every interleaving of enqueues, worker steps, task outcomes, cancellations and close satisfies the invariant |
| TaskQueue.StepKeeps | backend/task_queue.py:91-213 | every event keeps it |
| TaskQueue.OneLiveWorkerPerUser | backend/task_queue.py:117-123 | a user never has two live workers, hence never two running tasks |
| TaskQueue.StartedInOrder | backend/task_queue.py:124-133 | a user's started tasks are a prefix of those enqueued, in order, without repetition |
| TaskQueue.StartsAfterPredecessors | backend/task_queue.py:127-174 | when a worker takes a task, every task that its user enqueued before was completed or lost with its worker; a lost one has ended although its record still says running |
| TaskQueue.LookupSucceeds | backend/task_queue.py:133 | the record of the item taken is always there, still queued, and that user's |
| TaskQueue.RecordTable | backend/task_queue.py:168-180 | the record table is the disjoint union of waiting, running, lost and retained tasks, and the retained ones are the last `max_completed_records` completions |
| TaskQueue.Retention | backend/task_queue.py:176-180 | appending one completion and forgetting the oldest keeps exactly the last `max` of the whole completion history |
| TaskQueue.CloseDrains | backend/task_queue.py:199-213 | when close returns normally every accepted task has ended, and the records left are all terminal exactly when no worker died of a fatal exception |
| TaskQueue.AbandonedForever | backend/task_queue.py:204-206 | in every run, once close has begun, a queue whose worker was killed with items behind it stays so at every later state, and close never gets past its join |
| TaskQueue.CloseMayLeaveARunningRecord | backend/task_queue.py:140-174 | a run in which close returns normally although one record still says running |
| TaskOutcomes.RecordTellsOutcome | backend/task_queue.py:140-174 | in every run, from the moment a task's work ended and until its record is evicted: succeeded without an error code exactly if it returned, failed with TASK_FAILED exactly if it raised, failed with TASK_CANCELLED exactly if it was cancelled, running exactly if its worker died of it; and the worker is still live exactly if the work returned or raised |
| TaskOutcomes.FinishedHasEnded | backend/task_queue.py:154-167 | a record that says succeeded or failed is one whose work ended so earlier in that run |
| TaskOutcomes.RecordNamesTask | backend/task_queue.py:106-116 | as long as it is kept, a record names the user and the operation that were enqueued under its id |
| TaskQueueObject.InMemoryTaskQueue.Enqueue | backend/task_queue.py:91-125 | a closing queue refuses and changes nothing; otherwise the new state is the enqueue event's, worker started or restarted as needed |
| TaskQueueObject.InMemoryTaskQueue.WorkerTakes | backend/task_queue.py:129-136 | taking an item moves the object as the event does and keeps the invariant |
| TaskQueueObject.InMemoryTaskQueue.WorkerEnds | backend/task_queue.py:137-174 | each outcome of the work sets retention, unfinished count and worker as the event does; a record that is kept says succeeded, TASK_FAILED or TASK_CANCELLED for work that returned, raised or was cancelled, and the worker goes on exactly after the first two |
| TaskQueueObject.InMemoryTaskQueue.RetainCompleted | backend/task_queue.py:176-180 | the loop keeps the last `max` completions and drops exactly the older records |
| TaskQueueObject.InMemoryTaskQueue.GetTask | backend/task_queue.py:182-188 | a snapshot is returned exactly for a recorded task of that user |
| TaskQueueObject.InMemoryTaskQueue.CloseStops | backend/task_queue.py:204-208 | after the joins every queue gets one stop item |
| ChatRegistryTheorems.EveryOperationRefines | backend/services.py:48-238 | every operation, failing or not, replies and changes its session exactly as a small machine of that session alone would, changes no other session, and keeps the five tables in agreement |
| ChatRegistryTheorems.EveryRunIsConsistent | backend/services.py:51-57 | after any run the tables agree, no operation can miss a table entry, and no session is both streaming and reserved |
| ChatRegistryTheorems.SnapshotSucceeds | backend/services.py:230-238 | a snapshot succeeds exactly for an existing session |
| ChatRegistryTheorems.RecordRefines | backend/services.py:89-113 | a new conversation is appended, a repeated one is rewritten in its place, one that belongs to another session is refused |
| ChatRegistryTheorems.RecordingAnswers | backend/services.py:100-113 | recording is refused as blank exactly when question or answer holds no character that is not white space, and is done exactly when both do, the session exists unreserved and no other session owns the conversation |
| Text.BlankExactly | backend/services.py:100-103 | a text is blank exactly when stripping leaves nothing, and exactly when it holds no character that is not white space |
| Text.StripOf | backend/config.py:174 | stripping takes away exactly the white space around a text that begins and ends with something else |
| ChatRegistryTheorems.PutShows | backend/services.py:107-113 | updating the list and the table is putting the transcript into the shown sequence |
| ChatRegistryTheorems.CommitRefines | backend/services.py:198-220 | a commit removes the session everywhere and frees its conversations, or changes nothing |
| ChatRegistryTheorems.DeletionOutcomes | backend/services.py:171-220 | a commit goes through exactly when the session is reserved, a reservation exactly when it exists, is idle and unreserved |
| ChatRegistryTheorems.CommitMatchesReservation | backend/services.py:171-220 | whatever happens in between short of releasing the reservation, the commit returns exactly the list that the reservation returned |
| ChatRegistryTheorems.ReservedStep | backend/services.py:130-149 | while reserved, talks and streams are frozen and new streams and conversations are refused |
| ChatRegistryTheorems.ListingRefines | backend/services.py:74-81 | a listing never fails and shows each existing session of the user once, in creation order |
| ChatRegistryTheorems.ListingOrder | backend/mappings/session_map.py:20-24 | creating appends to the listing, a committed deletion takes the session out at its place, nothing else changes it |
| ChatRegistryTheorems.ReleaseTwice | backend/services.py:151-169 | releasing a stream twice is releasing it once |
| ChatRegistryTheorems.ReleaseUndoes | backend/services.py:190-196 | a stream that ends and a reservation that is aborted leave the registry as it was |
| ChatRegistryTheorems.AddToKeeps | backend/mappings/session_map.py:26-37 | a conversation is appended once, owned by its session, other sessions untouched |
| ChatRegistryTheorems.DeleteFromKeeps | backend/mappings/session_map.py:43-48 | deleting a session releases exactly its conversations' owners |
| ChatRegistryObject.Registry.SnapshotLocked | backend/services.py:230-238 | the loop builds the transcripts in list order, or reports the missing session |
| ChatRegistryObject.Registry.RecordConversation | backend/services.py:89-113 | the method's state and reply are the operation's |
| ChatRegistryObject.Registry.ReserveSessionDeletion | backend/services.py:171-188 | the method's state and reply are the operation's |
| ChatRegistryObject.Registry.CommitSessionDeletion | backend/services.py:198-220 | the method's state and reply are the operation's, the reservation released in any case |
| ChatRegistryObject.Registry.EndChatStream | backend/services.py:151-169 | the method's state is the operation's, no empty stream set is kept |
| ChatRegistryObject.Registry.DeleteSession | backend/services.py:222-228 | undisturbed, it deletes exactly what it reserved, or leaves every session as it was |
| StorageStream.UnframeFrames | deployment/wizard_diagnostic_api.py:113-115 | a sequence of length-framed byte strings is uniquely decodable |
| StorageStream.StreamBack | deployment/wizard_diagnostic_api.py:1080-1106 | a reader recovers the records, with every row and number, from the stream |
| StorageStream.OneRecordStream | deployment/wizard_diagnostic_api.py:1047-1106 | the values that are framed for one record, in order |
| StorageStream.Encodings | deployment/wizard_diagnostic_api.py:113-115 | lengths are eight bytes, big-endian; paragraph numbers are decimal |
| StorageIntegrity.StorageIntegrity | deployment/wizard_diagnostic_api.py:1033-1113 | the loops feed the digest exactly the canonical stream, or report the first fault in sorted order |
| StorageIntegrity.OrderIsIrrelevant | deployment/wizard_diagnostic_api.py:1036-1045 | any two listings of the same records give the same bytes or the same error |
| StorageIntegrity.SameStreamSameRecords | deployment/wizard_diagnostic_api.py:1047-1106 | two accepted lists give the same bytes exactly when they hold the same records |
| StorageIntegrity.StreamIsReadable | deployment/wizard_diagnostic_api.py:1047-1106 | from the stream of an accepted list the reader gives back the records sorted by chunk id |
| StorageIntegrity.AcceptedExactly | deployment/wizard_diagnostic_api.py:1036-1106 | what is accepted: identified, without duplicates, each record complete and finite, and one pair of dimensions for all |
| StorageIntegrity.ErrorsTell | deployment/wizard_diagnostic_api.py:1036-1106 | a malformed chunk id is reported exactly if there is one, a repeated one exactly if there is one and none is malformed; any other error names a fault that some record shows, the dimensions being those of the record with the least chunk id |
| StorageIntegrity.FiniteExactly | deployment/wizard_diagnostic_api.py:1086-1088 | refused are exactly the numbers whose eleven exponent bits are all ones |
| StorageIntegrity.ReportedExactly | deployment/wizard_diagnostic_api.py:1107-1113 | the reported ids, count and dimensions are those of the records |
| StorageIntegrity.SortSorts | deployment/wizard_diagnostic_api.py:1043 | the sort orders by chunk id and keeps every record |
| SseTheorems.CutsAreInvisible | backend/dev_ui.py:82-96 | what is dispatched depends only on the assembled text, not on the chunks |
| SseTheorems.AssembledExactly | backend/dev_ui.py:83 | the assembled text is the stream with its line ends normalised exactly when no cut splits a CRLF pair |
| SseTheorems.ChunkingInvariance | backend/dev_ui.py:82-96 | any chunking that splits no CRLF pair dispatches what the whole stream would |
| SseTheorems.LineFeedStreamsCutAnywhere | backend/dev_ui.py:82-96 | a stream with line feeds only may be cut anywhere |
| SseTheorems.PiecesOnline | backend/dev_ui.py:84-85 | splitting at blank lines may be continued from the last piece |
| SseTheorems.SubmitQuestion | backend/dev_ui.py:110-124 | the page dispatches the events up to and with the first chunk that brings one named "done" or "error", and reads no further; the terminal mark is then the name of the last such event, and empty exactly if the events before the first that does not parse hold none; an exception means that one of the stream's events does not parse, and without either all events are dispatched |
| SseFraming.State.ConsumeFrames | backend/dev_ui.py:82-96 | the loops over frames and lines leave the buffer, the dispatched events and the terminal mark that the pieces determine, up to an event that does not parse, which raises |
| SseFraming.IterSse | deployment/ragctl.py:1687-1707 | the loop yields exactly the events of its lines before the first that does not parse, and raises exactly if there is one |
| SseAgreement.LinesAgreeExactly | deployment/ragctl.py:1699-1705 | exactly which lines the two readers treat alike |
| SseAgreement.FrameAgrees | backend/dev_ui.py:86-94 | a frame of such lines gives both readers the same single event |
| SseAgreement.ReadersAgree | deployment/ragctl.py:1687-1707 | on any stream of such frames, cut anywhere and even with its last frame unterminated, both readers give the same events, one for each frame |
| SseAgreement.PageRecoversExactly | backend/api/chat.py:90-91 | the page recovers a printed event exactly when its name has no outer and its data no leading white space |
| SseAgreement.LauncherRecovers | deployment/ragctl.py:1699-1707 | the launcher recovers every event printed without line breaks |
| SseAgreement.PrintedEventsAreRead | backend/api/chat.py:90-91 | printed, cut anywhere and read by either reader, events come back in order |
| SseCuts.CutPairChangesExactly | backend/dev_ui.py:83 | in any stream of frames, a cut inside the CRLF pair that ends a line keeps the number of events and changes them exactly when that line brings data |
| SseCuts.CutGapLosesAFrame | backend/dev_ui.py:83-85 | in any stream of frames, a cut inside the CRLF pair that ends the empty line between two frames makes one event of the two |
| Batching.Batches | deployment/wizard_diagnostic.py:241-259 | the loop computes the greedy grouping |
| Batching.GroupingIsFaithful | deployment/wizard_diagnostic.py:241-259 | nothing is lost, repeated or moved, no batch is empty, sizes are the sums, and a batch over the limit is one single file |
| Batching.EveryBatchFits | deployment/wizard_diagnostic.py:655-662 | when every file fits, every batch does |
| Batching.GroupingIsMinimal | deployment/wizard_diagnostic.py:241-259 | no contiguous order-preserving grouping into allowed pieces has fewer batches |
| RankComparison.Compare | scripts/diagnose_bge_parity.py:179-199 | counts, flips, errors, ranks and the largest displacement are what their definitions say, an empty pool is an error, and the displacement is at most inversions plus changed ties |
| RankComparison.RankMeans | scripts/diagnose_bge_parity.py:182-184 | a candidate's rank is one more than the number of candidates with a higher score, or the same score and a lesser id |
| RankComparison.CountsMean | scripts/diagnose_bge_parity.py:185-191 | the reported flips are the candidates above the floor in one scoring alone, the inversions the pairs ordered oppositely, the tie changes the pairs tied in one scoring alone |
| RankComparison.RankMoves | scripts/diagnose_bge_parity.py:187-199 | each candidate moves by at most the number of inverted and tie-changed pairs |
| RankComparison.RankCounts | scripts/diagnose_bge_parity.py:182-184 | the rank in the sorted list is one more than the number of candidates ahead |
| RankComparison.CountPairs | scripts/diagnose_bge_parity.py:186-191 | the nested loops count exactly the inverted pairs and the changed ties |
| RankComparison.SameRankingExactly | scripts/diagnose_bge_parity.py:182-199 | the two rankings are the same list exactly when no candidate moved |
| RankComparison.UnchangedPairsSameRanking | scripts/diagnose_bge_parity.py:186-199 | no inversion and no changed tie make the rankings identical |
| RequestRecorder.TallyPartitions | deployment/e2e_diagnostic.py:788-806 | status, scope and evaluation counters partition the attempts, and attempts and non-attempts partition the rows |
| RequestRecorder.TallyMeans | deployment/e2e_diagnostic.py:788-806 | each counter is the number of rows of its kind |
| RequestRecorder.Recorder.Record | deployment/e2e_diagnostic.py:705-880 | a repeated or invalid attempt changes nothing; another is appended once and all counters stay the tally of the rows |
| RequestRecorder.Recorder.RecordNotAttempted | deployment/e2e_diagnostic.py:882-916 | a query without a row gets one, numbered after all rows |
| RequestAccounting.Phase.Run | deployment/e2e_diagnostic_api.py:2115-2350 | however the phase ends, every selected query has exactly one row, in order and numbered from one, attempted exactly when its turn was taken and left an accepted attempt, which the row tells; exactly the sessions of the queries sent are created, none stays pending, and each is listed unless its cleanup was interrupted; it raises exactly when a setup, rotation, turn, deletion or cleanup stood in its way, and otherwise reports failures exactly when a row is a failed attempt, a partial or failed evaluation or a query not attempted, or a created session's cleanup failed |
| RequestAccounting.LoseASession | deployment/e2e_diagnostic_api.py:2143-2152 | a run over one answered query whose session is created and afterwards neither pending nor listed, while its row says not attempted |
| RequestOutcome.TurnStopsExactly | deployment/e2e_diagnostic_api.py:2190-2320 | the loop stops at a query exactly when its session's creation was interrupted, refused for authentication or raised anything else, its execution was interrupted, failed or left the program, its attempt was systemic or malformed, or its own session's cleanup was interrupted |
| RequestOutcome.RowTellsSteps | deployment/e2e_diagnostic_api.py:2190-2320 | an attempted row tells the steps: an unposted failure, systemic for the interruption and the authentication failure and individual for a transport error and any other contract error; the attempt that execution returned; or a posted systemic failure for an execution that was interrupted or failed |
| RequestOutcome.FirstTurn | deployment/e2e_diagnostic_api.py:2115-2170 | the first turn is taken exactly when the first trace session was started and, where one session is shared, it was created |
| RequestOutcome.NextTurnIsTaken | deployment/e2e_diagnostic_api.py:2171-2176 | after a turn the next one is taken exactly when the turn did not stop the loop and, at every 64th query, the trace session could be rotated |
| RequestOutcome.SessionErrorsAreIndividual | deployment/e2e_diagnostic_api.py:2205-2242 | after a transport error or a contract error other than an authentication failure the query has its row, was not sent, and the loop goes on |
| RequestOutcome.UnhinderedExactly | deployment/e2e_diagnostic_api.py:2115-2350 | nothing stands in a phase's way exactly when its trace sessions could be started, rotated and deleted, the shared session was created and its cleanup not interrupted, and no turn stopped the loop |
| RequestOutcome.SentUnrecordedExactly | deployment/e2e_diagnostic_api.py:2302-2317 | of a phase's accounted rows, that of a query which was sent says not attempted exactly when the program was left during it, its own session's cleanup was interrupted, or the recorder refused its attempt |
| RequestAccounting.Phase.RunQuery | deployment/e2e_diagnostic_api.py:2171-2320 | what each outcome of session, execution and cleanup leaves to be recorded, and whether it stops the loop |
| RequestAccounting.Phase.StartTrace | deployment/e2e_diagnostic_api.py:2117-2141 | a session is started only after the previous one was deleted, so at most one is alive, and the list of sessions is numbered, placed at every 64th query and deleted but for the last |
| RequestAccounting.Phase.RecordRemaining | deployment/e2e_diagnostic_api.py:2315-2321 | after an abort exactly the queries without a row are recorded as not attempted |
| RequestAccounting.SessionsServeAtMost64 | deployment/e2e_diagnostic_api.py:2171-2176 | no trace session serves more than 64 attempts |
| RequestAccounting.CompleteAccounting | deployment/e2e_diagnostic.py:437-450 | rows of unknown queries are refused, and afterwards the rows' indexes are exactly the selection's, each added row giving the interruption or the abort as its reason |
| LatencyPairing.Pairs | evaluation/non_regression_gate.py:567-586 | pairing succeeds exactly when every key has both modes and no mode twice, and then splits the samples with none dropped and none used twice; the first sample at fault decides the error, and only without one are samples reported as unpaired |
| LatencyPairing.PairedLatencyGate | evaluation/non_regression_gate.py:554-630 | an accepted input is split into enough pairs of the same queries and each metric decided by its bound; each refusal has its reason in the input, and the first pair at fault decides which it is |
| LatencyPairing.SplitsInHalf | evaluation/non_regression_gate.py:580-586 | a split has twice as many samples as pairs |
| LatencyPairing.GateIsSound | evaluation/non_regression_gate.py:594-619 | for every sequence of draws, all changes under the threshold force a pass and one metric with none under it forces a failure |
| LatencyMeaning.GateOnTimings | evaluation/non_regression_gate.py:596-619 | for every sequence of draws: if for every key and metric the time in the comparison mode is under 100 + threshold percent of that in the baseline mode, an accepted report passes; if in one metric it is so for no key, the report fails |
| LatencyMeaning.ChangeOnTimings | evaluation/non_regression_gate.py:606 | a pair's change is under x exactly when 100 times the time after is under 100 + x times the time before |
| LatencyMeaning.AcceptedPartners | evaluation/non_regression_gate.py:567-593 | in an accepted input two samples with one key, one of each mode, have the same complete query and positive times in every metric |
| LatencyMeaning.MedianIsMiddle | evaluation/non_regression_gate.py:607-614 | the median is the middle of any sorted arrangement of the values, or the mean of the two in the middle |
| LatencyMeaning.UpperIsLeast | evaluation/non_regression_gate.py:611-612 | fewer than 95 in 100 resampled medians are strictly below the bound |
| LatencyGate.UpperStays | evaluation/non_regression_gate.py:607-612 | whatever is drawn, the upper bound lies between the smallest and the largest change |
| LatencyGate.DrawsCannotDecide | evaluation/non_regression_gate.py:607-616 | unanimous changes decide the metric for every sequence of draws |
| LatencyGate.UpperCovers | evaluation/non_regression_gate.py:607-612 | at least 95 in 100 resampled medians are at or below the bound |
| LatencySchedule.ValidateLatencySchedule | evaluation/non_regression_gate.py:738-855 | the loops accept exactly the runs that meet every rule of the schedule, and select their measured samples |
| LatencyRuns.AcceptedExactly | evaluation/non_regression_gate.py:738-855 | accepted are exactly the runs of one configuration, no request twice, that are cut into four blocks: sample by sample the literal block number, index, warmup mark, mode and evidence flag, one runtime for a block and four in all, the measured queries complete, the same in every block, and one question for a key; selected are the measured samples in order |
| LatencySchedule.AcceptedRuns | evaluation/non_regression_gate.py:820-855 | an accepted run is four contiguous blocks OFF ON ON OFF of four runtimes, three warmups each, then the same queries in the same order |
| LatencySchedule.MeasuredSamplesPair | evaluation/non_regression_gate.py:580-593 | when schedule and gate both accept, the gate decided over as many pairs as two blocks hold, made of all the measured samples |
| Admission.AdmissionIsExclusive | deployment/evaluation_bridge.py:701-739 | in every run the lock has one holder at most, an admitted job is that holder, a launcher's flag is set exactly while it has its one unfinished job, and a finished job cleared the flag exactly once |
| Admission.AdmittedExactlyWhenFree | deployment/evaluation_bridge.py:720-727 | a waiting job is admitted exactly when no process holds another job's lock |
| Admission.LastCloseReleases | deployment/evaluation_bridge.py:733-739 | a supervisor that gives up releases the lock exactly when no child survives |
| Admission.SurvivorKeepsOthersOut | deployment/evaluation_bridge.py:733-739 | over any run, as long as one child survives no other job is admitted |
| AdmissionObject.Bridge.SubmitLocalEvaluation | deployment/evaluation_bridge.py:1316-1359 | a launcher with a pending job is refused and nothing changes; a refused start gives the flag back |
| AdmissionObject.Bridge.PollLock | deployment/evaluation_bridge.py:720-727 | one turn of the polling loop cancels, locks or waits as the step does |
| AdmissionObject.Bridge.FinishJob | deployment/evaluation_bridge.py:1244-1251 | the finally clause closes without unlocking and clears the flag |
| AdmissionObject.ExecuteEvaluationJob | deployment/evaluation_bridge.py:1083-1243 | status, code, observed duration, wait and execution of every course of a job: what it answers, else a failure by time-out, cancellation or process, and the clock reading that each time is taken from; wait and execution stay within the duration but for the two courses that read the duration first |
| AdmissionObject.RunEvaluationJob | deployment/evaluation_bridge.py:1254-1268 | under a monotone clock the reported wait and execution add up to the duration for every outcome, neither negative, and execution is not shortened; status and code are the course's |
| AdmissionObject.TimesAddUpExactly | deployment/evaluation_bridge.py:1258-1264 | without that assumption they add up exactly when nothing was executed or the total is not below the observed wait |
| CollectionNames.TokenBack | backend/config.py:195 | unpadded Base32 decodes to the bytes, whatever their number |
| CollectionNames.TokenIsPlain | backend/config.py:195 | stripping the padding of the encoding leaves exactly the letters that carry bits, all of them in the alphabet |
| CollectionNames.QuantumBits | backend/config.py:195 | five bytes become eight letters of five bits each, from the left (section 6 of RFC 4648) |
| CollectionNames.Utf8Exactly | backend/config.py:195 | how many bytes a code point becomes, and which of its bits are in which (section 3 of RFC 3629) |
| CollectionNames.NameBack | backend/config.py:195-197 | a collection name gives back its user id and collection type |
| CollectionNames.NamesAreInjective | backend/config.py:166-197 | two accepted requests have the same name exactly when user id and normalized type agree |
| CollectionNames.NormalizedExactly | backend/config.py:187-193 | a collection type is exactly one of the three words, in any case, with white space around it; the Kelvin sign passes for a k |
| CollectionNames.AnswersExactly | backend/config.py:176-193 | which request is answered with which error: a user id that is empty, begins or ends with white space, or does not match, or a type that is none of the three words |
| CollectionNames.NamesSpelled | backend/config.py:195-197 | the name that each of the three words gives |
| CollectionNames.LauncherKnowsEveryName | deployment/ragctl.py:596-602 | every name that the backend produces is in the launcher's set |
| CollectionNames.LauncherInventsNoName | deployment/ragctl.py:596-602 | every name in the launcher's set is one that the backend produces for the accepted user |
| CollectionNames.ThreeNames | deployment/ragctl.py:596-602 | the three names are different, for every user id |

## Left out

- Foreign services (Weaviate, model servers, Docker, HTTP): only their outcomes appear, chosen freely within a stated contract. The vector store may delete any part of a batch and reports only ids that are gone; the service hands out fresh ids; a save writes only chunks of its own document, under ids that no other document's chunk has.
- A save does not survive into the next run: `diagnose_wizard` stops the services first (deployment/ragctl.py:1266).
- SHA-256, JSON text, UUID parsing and time stamps: hashes are functions, parsed values are trees, ids are canonical strings, and clocks are parameters. Text fields of the storage stream are their UTF-8 bytes, numbers their eight IEEE 754 bytes.
- Content checks on the service's answers during a save (mappings, upload contracts, texts) are outside failures of the run, as are the recorder's operation log and file permissions.
- Validation of user ids and session ids before the registry's and the queue's critical sections; session titles arrive validated.
- SessionMap is a value inside the registry, not an object of its own: its updates in place, visible only through the registry, are not modelled separately.
- The queue has one closing coroutine; `wait` and logging are not modelled. Memory of a queue is unbounded, so `put` does not suspend.
- How data texts parse as JSON: which of them parse is a parameter of the event readers, and a payload that parses is taken to be one that the page can show. Line readers cut at line feeds only; other line separators do not occur in what `_sse` prints.
- LatencySchedule.ValidateLatencySchedule: the per-request evidence checks are one flag of a sample, a missing pair key and an empty one are the same, and the contention variant is left out, because its pairing is the gate's own.
- RequestRecorder.Recorder.Record: the checks of an attempt's texts, identifiers, counts and times are one flag, because each is a condition on one field; an attempt's other fields are written through unread.
- Rounding of reported percentages and floating-point effects in medians, changes and scores: arithmetic is over the reals. In particular a product of two tiny score differences does not underflow here.
- RankComparison.Compare: requires candidate ids to be distinct, as the pools' construction does; nonfinite scores have no counterpart.
- The modes of the end-to-end diagnostic other than the dataset mode, artifact write failures and interruptions between two statements of the recorder: an interruption arrives while a request is outstanding.
- Metrics and failure summaries of the dataset report beyond its accounting.
- Admission models a job's descriptor, owners and lock, not processes, signals or deadlines; a launcher that is killed loses its jobs.
- CollectionNames.Lower: lower-casing is followed only as far as it yields ASCII, which is all that the three collection types need.
- Validators of traces, manifests and evidence, benchmarks, prompts and the scratch diagnostic: long conjunctions or scripts without an invariant of their own.
