# Verified model of the multi-store document service

One document lives in three stores: PostgreSQL holds its row and its chunk rows, Milvus the vectors of
the chunks, Neo4j a document node, chunk nodes and CONTAINS edges. This project models the code that
keeps the three in step, together with the algorithms and protocols around it, and proves what that
code guarantees over all inputs, all failures and all interleavings. Where a guarantee does not hold
of the code, the exact condition under which it does hold is proved.

`dafny verify dfyconfig.toml` checks everything.

## How the model is laid out

| files | subject |
|---|---|
| `Stores.dfy` | the three stores; every repository call as a value, when it is accepted and what it does |
| `Saga.dfy`, `SagaCoordinator.dfy` | steps, runs with reverse-order compensation, the create, delete and update sagas; first as functions, then as an object whose methods are proved equal to them |
| `SagaRollback.dfy`, `SagaSafety.dfy`, `SagaInterleaving.dfy` | rollback for any steps; what every call keeps; concurrent sagas |
| `SagaEffects.dfy`, `SagaContents.dfy`, `SagaSuccess.dfy` | the rows, vectors, nodes and edges that steps and successful sagas leave, with their contents; exactly when a create or an update succeeds |
| `SagaOutcome.dfy`, `SagaOrphans.dfy`, `SagaDeletes.dfy`, `SagaHealing.dfy` | how each saga can end; which inputs orphan vectors; what a failed delete restores; whole histories |
| `AuditBuffer.dfy`, `AuditOrder.dfy` | the audit buffer: the transition system of appenders and flush tasks, the object whose methods are its steps, conservation; order under overlapping flushes |
| `Whitespace.dfy`, `Chunker.dfy` | Python's whitespace functions; cutting a text into overlapping chunks |
| `RankFusion.dfy`, `FusedRanking.dfy`, `UnifiedSearch.dfy` | reciprocal rank fusion: the accumulation loop; the ranked list; weights, top-k and threshold |
| `Delivery.dfy`, `EventConsumer.dfy` | the delivery protocol of the Kafka consumer as a machine; the consumer object as runs of it |
| `Sync.dfy`, `SyncReplay.dfy`, `SagaReplay.dfy` | the sync service and its reports; redelivery of events; redelivery on what the sagas leave |
| `Acl.dfy`, `Listing.dfy` | access queries; paginated listing |
| `Sequences.dfy` | subsequences |

Failures are modelled by an oracle: the n-th repository call of a run succeeds or fails as the oracle
says, and a call that violates a primary or foreign key fails in any case. Calls are atomic. The sagas
are modelled against the repository protocols declared beside the steps, in which ids given by the
caller are kept. The embedding service is a function from lists of texts to embeddings, or raises; scores
are real numbers; texts are sequences of characters.

## What the code does not guarantee

- A failed delete reports its executed steps as compensated although those compensations restore
  nothing (`SagaOutcome.DeleteRuns`). The documentation of the operation promises that deleted data is
  restored where possible (src/services/saga/coordinator.py:252-253). The stores are as before exactly
  when the graph was not deleted, or there was no graph and the vectors were not deleted or there were
  none (`SagaDeletes.DeleteRestoresIff`); every document with a graph can lose it
  (`SagaDeletes.DeleteLosesData`).
- A create leaves vectors without chunk rows exactly when its rows and vectors were written, a graph
  call fails, the deletion of the vectors fails and the deletion of the document succeeds
  (`SagaOrphans.OrphansIff`, `SagaHealing.DerivedStoresNeverAhead`), and a later successful create of
  the same document does not heal it (`SagaHealing.OrphansOutliveCreates`); updates and deletes do
  (`SagaHealing.SelfHealing`).
- Overlapping flushes keep the order of logs exactly as long as every write that succeeds is the one of
  the oldest batch in flight, and every one that fails is the newest or meets a full buffer
  (`AuditOrder.OrderKeptIff`); the buffer is a contiguous end of all logs exactly as long as every batch
  put back ends where the buffer begins or meets a full buffer (`AuditOrder.GaplessIff`). Cancelling a
  newer batch and then putting back an older one leaves a gap.
- Weights per search type are documented as adjusting effective ranks; they have no effect on which
  chunks are returned, on their order or on their scores (`UnifiedSearch.WeightsDoNotRank`).
- With the default constant, a minimum score can be met by the fusion of at most three rankings without
  repeated chunks exactly when it is at most 3/61 (`FusedRanking.ThresholdCanBeMetIff`), although
  requests may ask for anything up to 1. Repeats are not removed, and exceed this bound
  (`FusedRanking.RepeatsExceedTheBound`).
- A handler cancelled in the middle of a message, or a handler unregistered after it ran while others
  wait, loses a message that has not been handled before: unless the consumer goes back, the next
  successful commit covers it (`Delivery.DisturbedIsLost`). Commits are sound exactly as long as no such
  message is owed below the position (`Delivery.CommitsSoundIff`).
- A completed sync of an update leaves the document without CONTAINS edges
  (`Sync.CompletedUpdateHasNoEdges`). A completed sync of a delete may leave vectors and chunk nodes
  behind (`Sync.CompletedDeleteIsTrueIff`); after a completed update it always leaves every chunk node,
  even when no call fails (`Sync.DeleteAfterUpdateLeavesNodes`). A completed update leaves vectors and
  chunk nodes of unlisted chunks under a condition of the same kind (`Sync.CompletedUpdateIsAllIff`).
- Redelivery of sync events is not harmless in a graph in which a document's chunk hangs on another
  document's node alone (`SyncReplay.ReplayIsHarmlessIff`).
- The access query and the permission hierarchy of the service layer disagree around grants to delete
  (`Acl.CheckMatchesHierarchyIff`), and a document can be listed as accessible without being readable
  (`Acl.ReadAgreesWithAccessible`).
- A page of a listing can be empty although later pages are not (`Listing.EmptyPageIff`,
  `Listing.EmptyPageBeforeLast`).

## Model

| member | source | states |
|---|---|---|
| SagaCoordinator.SagaCoordinator.ExecuteSteps | src/services/saga/coordinator.py:125-165 | the loop over the steps, with its result object, ends in the stores, trace and result of the specification `RunSteps` for every oracle |
| SagaCoordinator.SagaCoordinator.CompensateSteps | src/services/saga/coordinator.py:167-195 | executed steps are compensated newest first, failures are passed over, successes are appended to the result |
| SagaCoordinator.SagaCoordinator.ExecuteCreateSaga | src/services/saga/coordinator.py:197-244 | runs the three create steps, or raises with the stores untouched when the embedding service raises |
| SagaCoordinator.SagaCoordinator.ExecuteDeleteSaga | src/services/saga/coordinator.py:246-269 | runs graph, vector and row deletion in that order |
| SagaCoordinator.SagaCoordinator.ExecuteUpdateSaga | src/services/saga/coordinator.py:271-376 | the three phases with their early returns and the way their results are put together |
| SagaCoordinator.SagaResult.AddExecuted | src/services/saga/models.py:122-130 | appends to the executed steps, stores the step result under its name and changes nothing else |
| SagaCoordinator.SagaResult.AddCompensated | src/services/saga/models.py:132-138 | appends to the compensated steps and changes nothing else |
| SagaRollback.Rollback | src/services/saga/coordinator.py:144-195 | for any steps and failures: executes 0..n in order, then compensates n-1..0 exactly once each, never the failing step; the executed steps are the successful prefix, the compensated ones a subsequence of its reverse |
| SagaRollback.FullRollbackRestores | src/services/saga/coordinator.py:144-195 | if every step undoes itself where it starts and changes nothing when it fails, a fully compensated failure ends in the initial stores |
| SagaSafety.OpKeeps | src/services/saga/steps.py:111-667 | every repository call a saga makes keeps the keys valid, the graph and vectors behind PostgreSQL, and every other document's slice unchanged |
| SagaSafety.OpElsewhere | src/repositories/neo4j/repository.py:131-153 | no call made for one document changes what the stores hold of another, graph deletion included |
| SagaOutcome.MilvusCreateScript | src/services/saga/steps.py:198-247 | a completed vector step adds one row per chunk, with the document, the id and text of the chunk and the dense and sparse embedding at its place, and touches no other vector |
| SagaOutcome.Neo4jCreateScript | src/services/saga/steps.py:288-344 | the graph step makes the document's chunks reachable only with its last call |
| SagaOutcome.PostgresUpdateScript | src/services/saga/steps.py:608-635 | wherever the update of the rows stops, the document has its old chunk ids, none, or exactly the new ones |
| SagaOutcome.CreateRuns | src/services/saga/coordinator.py:197-244 | all ends of a create with their results and stores, by the step that failed and the compensations that succeeded |
| SagaOutcome.DeleteRuns | src/services/saga/coordinator.py:246-269 | all ends of a delete; on failure the executed steps are all reported compensated, and of each store exactly what its executed step removes is gone: the node with its chunk nodes and their edges, the vectors, the rows |
| SagaOutcome.UpdateRuns | src/services/saga/coordinator.py:271-376 | all ends of an update, phase by phase, including an exception of the embedding service after phase 2 |
| SagaOrphans.OrphansIff | src/services/saga/coordinator.py:125-195 | exactly which requests, stores and call outcomes make a create undo its rows but not its vectors |
| SagaDeletes.DeleteEndsBy | src/services/saga/coordinator.py:246-269 | a delete succeeds exactly if its six calls do, and the first call that fails decides which of graph, vectors and rows are gone, everything else being kept |
| SagaDeletes.DeleteRestoresIff | src/services/saga/coordinator.py:246-269 | a failed delete, fully compensated by its own report, leaves the stores as before if and only if the graph was not deleted, or there was none and the vectors were not deleted or there were none |
| SagaDeletes.DeleteLosesData | src/services/saga/steps.py:389-447 | every document with a node in Neo4j has a failing delete that reports full compensation and has lost the graph |
| SagaHealing.DerivedStoresNeverAhead | src/services/saga/coordinator.py:125-195 | in every intermediate state of every saga Neo4j is within PostgreSQL, and Milvus is too if and only if the input is not an orphaning one |
| SagaHealing.CreateOfFreshDocument | src/services/saga/coordinator.py:197-244 | a create of an unknown id ends with the same chunk ids in all three stores, or, fully compensated, with nothing but the writes of the failing step |
| SagaHealing.SelfHealing | src/services/saga/coordinator.py:271-376 | after any history of sagas with any failures, the last successful update or delete of a document decides all three stores; a create does exactly when Milvus held no other vector of it |
| SagaHealing.CreateHealsUnlessOrphaned | src/services/saga/coordinator.py:197-244 | without an orphaning create in the history a successful create always leaves the three stores consistent |
| SagaHealing.OrphansOutliveCreates | src/services/saga/steps.py:249-268 | vectors orphaned by one create keep the next successful create of the document inconsistent unless it reuses the ids |
| SagaHealing.OrphaningRunExists | src/services/saga/coordinator.py:186-193 | orphaning inputs exist: an instance of the condition |
| SagaEffects.DeletionsRemove | src/repositories/neo4j/repository.py:131-153 | deleting a graph removes the document node and every chunk node on it with all their edges, deleting vectors or a document removes exactly those of the document; all else is kept |
| SagaContents.CreateContents | src/services/saga/steps.py:128-344 | a create that succeeds adds the document, its chunks as given, one vector per chunk with its text and the embeddings at its place, and the graph, and nothing else; the embeddings are those given, or what the service answers for the texts |
| SagaContents.UpdateContents | src/services/saga/coordinator.py:271-376 | an update that succeeds replaces all rows, vectors, nodes and edges of the document by the new ones, and changes nothing else |
| SagaContents.CreateRaisesIff | src/services/saga/coordinator.py:229-234 | a create raises exactly if embeddings are needed and the service raises |
| SagaContents.CompensationsUndo | src/services/saga/steps.py:160-370 | the compensation of each step of a create undoes the step where nothing of the document was there |
| SagaContents.LastSagaDecides | src/services/saga/coordinator.py:197-376 | over whole histories the stores hold of a document, contents included, what its last successful saga was given; chunk nodes it took away come back only with a saga that names them |
| SagaSuccess.CreateSucceedsIff | src/services/saga/coordinator.py:197-244 | a create succeeds if and only if every chunk has an embedding, the document and the chunk ids are new, and its six calls succeed |
| SagaSuccess.UpdateSucceedsIff | src/services/saga/coordinator.py:271-376 | the same for an update: embeddings, an existing document unless there are no chunks, free chunk ids, and its eleven or twelve calls |
| SagaInterleaving.SagaProgRuns | src/services/saga/coordinator.py:125-376 | the call-by-call program used for interleaving computes exactly what the coordinator computes, state by state |
| SagaInterleaving.TurnsAreCalls | src/services/saga/coordinator.py:125-376 | after n turns a saga alone is in the state the coordinator is in after its n-th repository call |
| SagaInterleaving.TurnIsOwn | src/services/saga/coordinator.py:125-376 | a turn of one saga among others is its turn alone on the same stores and moves no other saga |
| SagaInterleaving.CallsCommute | src/repositories/milvus/repository.py:128-139 | calls for different documents with disjoint chunk ids commute, whether they succeed or fail |
| SagaInterleaving.ConcurrentSagasAreSerial | src/services/saga/coordinator.py:147-195 | any schedule of any number of such sagas ends, once all are finished, with the stores and all results of running them one after the other |
| SagaInterleaving.FairSchedulesAreSerial | src/services/saga/coordinator.py:147-195 | every schedule that gives each saga as many turns as it can make calls finishes all of them, with that end |
| AuditBuffer.AuditService.AddLog | src/services/audit_service.py:201-212 | a step Append of the machine: the buffer is the newest logs up to its bound, and a flush is spawned exactly from the batch size on |
| AuditBuffer.AuditService.TakeBatch | src/services/audit_service.py:180-185 | a step Take of the machine: the whole buffer becomes the batch |
| AuditBuffer.AuditService.PutBack | src/services/audit_service.py:190-199 | the restore loop is a step Restore of the machine: it leaves the newest logs of batch followed by buffer, up to the bound |
| AuditBuffer.AuditService.FlushAlone | src/services/audit_service.py:174-199 | an undisturbed flush persists everything, or leaves the buffer as it was |
| AuditBuffer.Conservation | src/services/audit_service.py:137-212 | after any interleaving each appended log is in exactly one place exactly once and the buffer is within its bound |
| AuditBuffer.NothingLostUnless | src/services/audit_service.py:174-212 | logs are lost if and only if an append or restore met a full buffer or a flush was cancelled while writing |
| AuditOrder.OrderKeptIff | src/services/audit_service.py:174-212 | under any overlap of flushes, persisted, in-flight and buffered logs are in order in every state of a run if and only if every step is in sequence |
| AuditOrder.OrderStep | src/services/audit_service.py:174-212 | from an ordered state a step keeps the order if and only if it is in sequence |
| AuditOrder.GaplessIff | src/services/audit_service.py:174-212 | the buffer is the end of what was appended in every state if and only if every batch put back adjoins the buffer or meets a full one |
| AuditOrder.OrderPreserved | src/services/audit_service.py:174-212 | with one flush in flight at most both hold in every state |
| AuditOrder.OverlappingFlushesReorder | src/services/audit_service.py:183-199 | a run of two flushes out of sequence that breaks both |
| Whitespace.NormaliseIdempotent | src/services/document_service.py:237-240 | normalising twice is normalising once |
| Whitespace.NormaliseKeepsInk | src/services/document_service.py:237-240 | normalisation keeps the sequence of non-whitespace characters |
| Whitespace.StripEmptyIffBlank | src/services/document_service.py:234-235 | stripping gives the empty text exactly for blank ones |
| Whitespace.NormaliseSpacing | src/services/document_service.py:241-243 | the normalised text has no whitespace but blanks and as many line breaks as the text, and no blank at an end or beside whitespace |
| Whitespace.NormaliseKeepsWords | src/services/document_service.py:241-243 | every line of the normalised text has the words of the same line of the text |
| Whitespace.WordsSeparate | src/services/document_service.py:242-242 | what the words of a line are: ink is one word, whitespace separates |
| Whitespace.LinesSeparate | src/services/document_service.py:241-241 | what the lines of a text are: line breaks, and nothing else, separate |
| Whitespace.StripIsTight | src/services/document_service.py:260-260 | stripping takes off whitespace at both ends, and all of it |
| Chunker.FindCut | src/services/document_service.py:245-255 | the separator loop finds the cut of the specification |
| Chunker.CutChoice | src/services/document_service.py:248-255 | a window stops after the last break, beyond the overlap, of the first separator that has one, and has full size only if none has |
| Chunker.ChunkText | src/services/document_service.py:216-270 | the loop ends and emits exactly the stripped, non-empty texts of the windows; in every chunk whitespace is normalised |
| Chunker.WindowShapes | src/services/document_service.py:245-268 | windows have length 1..size, start at 0, end at the end of the text, and are at most as many as characters |
| Chunker.WindowsFollow | src/services/document_service.py:264-268 | with size above overlap neighbours share exactly the overlap and ends strictly increase but for one final repeat; otherwise windows partition the text |
| Chunker.PlainTextWindowCount | src/services/document_service.py:245-268 | the exact number of windows of a text without separators, for every size from 1 and every overlap: with 1 <= overlap < size and a text longer than the overlap, ceil((n - overlap) / (size - overlap)) + 1; one window for a text no longer than such an overlap; ceil(n / size) for every other overlap |
| Chunker.WindowsCoverText | src/services/document_service.py:245-268 | windows without their overlaps, concatenated, are the normalised text |
| Chunker.InkIsChunked | src/services/document_service.py:259-262 | every non-whitespace character lies in a chunk equal to the stripped text of its offsets |
| Chunker.ChunksAreWindows | src/services/document_service.py:259-262 | the chunks are those of the windows that are not blank, in order, one each, with the offsets of the window and its text without the whitespace at the ends |
| Chunker.InkYieldsChunks | src/services/document_service.py:216-270 | content that is not blank yields at least one chunk |
| Chunker.ChunkContent | src/services/document_service.py:346-366 | blank content is refused, and the guard for content without chunks never fires |
| RankFusion.CalculateRrfScores | src/services/search_service.py:907-954 | the nested loops leave one entry per chunk in order of first mention, with its first document id, first non-empty text and sources, and as score the sum of the reciprocals of k plus rank over its mentions |
| RankFusion.MentionAdds | src/services/search_service.py:926-952 | a further mention adds the reciprocal of k plus its rank to the score of its chunk and nothing to any other |
| FusedRanking.ScoreIsSum | src/services/search_service.py:914-929 | the accumulated score is the sum over the rankings, and that of the reciprocals of k plus rank over all mentions |
| FusedRanking.FoundOnce | src/services/search_service.py:926-928 | a chunk found once, at place i of any ranking, has a score whose product with k + i + 1 is 1 |
| FusedRanking.OccurrenceAt | src/services/search_service.py:925-926 | the hits are read ranking by ranking, in order, with their places as ranks |
| FusedRanking.MergedMeetsFormula | src/services/search_service.py:907-954 | the dictionary has exactly the chunks of the rankings as keys, and as scores the sums of the reciprocals of k plus rank, whatever the order of the search types |
| FusedRanking.DocIsFirst | src/services/search_service.py:940-943 | the document id of an entry is the one of the first mention |
| FusedRanking.TextIsFirstGiven | src/services/search_service.py:936-945 | the text of an entry is the first non-empty one given, or the first if all are empty |
| FusedRanking.SourcesAreRanks | src/services/search_service.py:929-952 | with one ranking per search type, an entry lists exactly the search types that found the chunk, with its rank and raw score there, those of its last place if the ranking repeats it |
| FusedRanking.SortIsStableSort | src/services/search_service.py:1003-1008 | the sort is a non-increasing, stable permutation |
| FusedRanking.FusedIsRanked | src/services/search_service.py:1003-1025 | the output is non-increasing, carries the formula's scores, and is a prefix of every longer output |
| FusedRanking.FusedIsComplete | src/services/search_service.py:1003-1025 | no chunk is twice in the output, and every chunk is in it while there is room |
| FusedRanking.FusedIsMerged | src/services/search_service.py:1010-1025 | a hit of the output carries the document, text, sources and score merged for its chunk |
| FusedRanking.TiesKeepOrder | src/services/search_service.py:1003-1008 | chunks with equal scores stand in the order of their first mention |
| FusedRanking.OutranksIfAbove | src/services/search_service.py:914-929 | in a ranking without repeated chunks, outranking means to stand above the other wherever it stands |
| FusedRanking.OutrankingDecides | src/services/search_service.py:956-1027 | a chunk that outranks another in every ranking stands above it in the output; a ranking may repeat chunks |
| FusedRanking.SumOrder | src/services/search_service.py:914-929 | a chunk that outranks another in every ranking (above every place of the other it is named more often) has a score no smaller, and a greater one if the other occurs |
| FusedRanking.ScoreRange | src/services/search_service.py:914-924 | scores lie in (0, T/(k+1)] for T rankings without repeated chunks |
| FusedRanking.ThresholdCommutes | src/services/search_service.py:1121-1129 | the threshold keeps exactly the hits that reach it, which are a prefix, and commutes with truncation |
| FusedRanking.HighThresholdIsEmpty | src/services/search_service.py:1121-1129 | at k = 60, a threshold above 3/61 returns nothing from at most three rankings without repeated chunks |
| FusedRanking.ThresholdCanBeMetIff | src/services/search_service.py:1121-1129 | at k = 60 and with top-k from 1, some fusion of at most three rankings without repeated chunks meets a threshold if and only if it is at most 3/61 |
| FusedRanking.RepeatsExceedTheBound | src/services/search_service.py:914-929 | a ranking that names a chunk four times gives it a score above 3/61: repeats are not removed |
| UnifiedSearch.RawScoresDoNotRank | src/services/search_service.py:956-1027 | the output depends on the places of chunks only, not on raw scores |
| UnifiedSearch.WeightsDoNotRank | src/services/search_service.py:979-998 | weights change neither the chunks returned, nor their order, nor their scores |
| UnifiedSearch.SourcesReportWeighted | src/services/search_service.py:979-998 | the sources report the raw scores found, times the weight of the search type if it has one |
| UnifiedSearch.NoWeightsNoChange | src/services/search_service.py:979-998 | without weights the answers are fused as found |
| UnifiedSearch.AnsweredTypes | src/services/search_service.py:1067-1119 | one ranking for every store asked that did not raise, holding its answer, dense before sparse before graph |
| UnifiedSearch.MergeSearchResults | src/services/search_service.py:956-1027 | the weighting loop, accumulation, sort, truncation and conversion give the specified ranked list |
| UnifiedSearch.Search | src/services/search_service.py:1029-1231 | the stores asked are those requested, else all three, or those with a weight; raised searches are left out, the rest are fused in a fixed order and filtered; the types used are those that answered |
| Delivery.AttemptsInOrder | src/infrastructure/messaging/consumer.py:191-198 | over every run, for every message settled, interrupted or in progress: its attempts are those recorded, in registration order, and all handlers are accounted for, also when the list changes under the loop |
| Delivery.FetchIsRouted | src/infrastructure/messaging/consumer.py:167-191 | after any run the next message gets the handlers registered for its own type and not removed since, in order; without any it is settled at once |
| Delivery.MessagesKeepTheirType | src/infrastructure/messaging/consumer.py:174-183 | every message settled, interrupted or in progress has the type logged at its offset |
| Delivery.ResumesAtLastCommit | src/infrastructure/messaging/consumer.py:200-232 | after a crash or restart the consumer goes on after its last commit |
| Delivery.UnregisterShifts | src/infrastructure/messaging/consumer.py:132-154 | what unregistering does to the handlers still waiting, including the one it makes the loop skip |
| Delivery.CommitSoundIff | src/infrastructure/messaging/consumer.py:200-201 | a successful commit is sound if and only if no offset below the position is owed: cancelled or with a handler skipped, and never passed cleanly |
| Delivery.CommitsSoundIff | src/infrastructure/messaging/consumer.py:167-232 | over every run, no commit goes beyond what had been handled if and only if at no successful commit an offset below the position is owed |
| Delivery.AtLeastOnce | src/infrastructure/messaging/consumer.py:167-232 | over every undisturbed run with crashes, restarts, failing commits and raising handlers, all messages before a committed offset have passed all their handlers |
| Delivery.CommitsNeverGoBack | src/infrastructure/messaging/consumer.py:200-201 | committed offsets never decrease, in any run |
| Delivery.DisturbedIsLost | src/infrastructure/messaging/consumer.py:191-204 | any message not handled before that is cancelled or has a handler skipped is covered by the next successful commit and still not handled, unless the consumer went back |
| EventConsumer.MessageIsRun | src/infrastructure/messaging/consumer.py:167-204 | consuming a message without interruption attempts every handler in order whichever raise, then commits, and is an undisturbed run of the machine |
| EventConsumer.EventConsumer.RegisterHandler | src/infrastructure/messaging/consumer.py:108-130 | the machine's Register step |
| EventConsumer.EventConsumer.UnregisterHandler | src/infrastructure/messaging/consumer.py:132-154 | the machine's Unregister step; true exactly when the handler was listed |
| EventConsumer.EventConsumer.ProcessMessage | src/infrastructure/messaging/consumer.py:167-204 | the loop over the handlers of one message and the commit after it |
| EventConsumer.EventConsumer.ConsumeOne | src/infrastructure/messaging/consumer.py:269-285 | nothing at the end of the log, otherwise one message consumed |
| Sync.SyncService.HandleDocumentUpdated | src/services/sync_service.py:175-304 | the new vectors and graph and the report decided, for every pattern of failing calls |
| Sync.SyncService.HandleDocumentDeleted | src/services/sync_service.py:306-383 | the vectors and the graph left and the report decided, for every pattern of failing calls, as DeleteReportsAreSound says of them |
| Sync.UpdateReportsAreSound | src/services/sync_service.py:194-304 | completed exactly when no call failed, and then one row per chunk and all nodes are current; otherwise the report names exactly the stores whose calls failed |
| Sync.CurrentHolds | src/services/sync_service.py:224-263 | what current stores hold of a chunk: one row with its id, document, embeddings and the first 100 characters of its text, and a node with its place and the same preview |
| Sync.UpdateWithoutWork | src/services/sync_service.py:194-216 | the updates that touch no store, and what is reported of them |
| Sync.FailedUpdateLeaves | src/services/sync_service.py:218-273 | what each store is left with, by the call of an update that failed |
| Sync.DeleteReportsAreSound | src/services/sync_service.py:306-383 | a delete is reported completed exactly when no call failed, otherwise with exactly the stores whose calls failed; a store not named has lost exactly the listed vectors, or the node with its chunk nodes, and one named is as before |
| Sync.CompletedUpdateIsAllIff | src/services/sync_service.py:194-304 | after a completed update no vector of the document is left outside its listed chunks if and only if there was none before, and no other chunk node of it if and only if each hung on its document node |
| Sync.StoresAreIndependent | src/services/sync_service.py:218-273 | a failure in one store changes nothing in the other |
| Sync.CompletedUpdateHasNoEdges | src/services/sync_service.py:246-266 | after a completed update no chunk is reachable from the document node |
| Sync.CompletedDeleteIsTrueIff | src/services/sync_service.py:328-357 | a completed delete has left no vector and no chunk node of the document if and only if all vectors belonged to chunks PostgreSQL still listed and all nodes hung on the document node |
| Sync.DeleteAfterUpdateLeavesNodes | src/services/sync_service.py:246-357 | after a completed update a completed delete leaves every chunk node of the document |
| SyncReplay.RunEndsAs | src/services/sync_service.py:175-383 | the derived stores after any run of events, key by key, from the last effective event of each document |
| SyncReplay.ReplayIsHarmless | src/services/sync_service.py:175-383 | handling any suffix of the events again changes nothing |
| SyncReplay.RedeliveryConverges | src/services/sync_service.py:175-383 | however often the consumer resumes from earlier positions, at the end of the log the derived stores are those of a single pass |
| SyncReplay.ReplayIsHarmlessIff | src/services/sync_service.py:175-383 | this holds for all runs and suffixes if and only if no document's chunk hangs on another document's node alone |
| SyncReplay.BehindIsHarmless | src/services/sync_service.py:175-383 | the condition holds in every graph that is nowhere ahead of PostgreSQL |
| SagaReplay.SagasLeaveReplayHarmless | src/services/sync_service.py:175-383 | after any history of sagas with any failures, handling sync events again is harmless |
| Acl.ReadAgreesWithAccessible | src/repositories/postgres/repository.py:602-688 | readable documents are accessible, and the accessible but unreadable ones are those with matching grants to delete only |
| Acl.AccessIsAntitone | src/repositories/postgres/repository.py:660-668 | admin access implies write access implies read access |
| Acl.CheckMatchesHierarchyIff | src/services/acl_service.py:54-71 | exactly for which grants, per permission, the access query and the permission hierarchy decide alike |
| Acl.OneGrantSuffices | src/repositories/postgres/repository.py:660-688 | for each principal type and permission, exactly when a single grant gives access |
| Acl.AccessIsOneGrant | src/repositories/postgres/repository.py:602-688 | grants do not add up: access is that of one grant alone |
| Listing.ListDocuments | src/services/document_service.py:571-638 | one response per accessible row of the page, with its chunk count |
| Listing.PagesTile | src/repositories/postgres/repository.py:166-219 | pages at 0, L, 2L, ... concatenated are the access filter of the whole ordered list |
| Listing.ListedIsPage | src/services/document_service.py:595-615 | a page lists, in order, exactly the rows from its offset up to its limit that the caller may see |
| Listing.PagesHaveNoGaps | src/services/document_service.py:595-615 | over all pages nothing is listed twice, nothing accessible is missing, nothing else appears, and the order is that of the table |
| Listing.EmptyPageIff | src/services/document_service.py:595-615 | a page is empty exactly when none of its rows is accessible |
| Listing.EmptyPageBeforeLast | src/services/document_service.py:595-615 | a first page can be empty and the second not |

## Left out

- Delivery: one consumer task and one partition; rebalancing between consumers is not modelled.
- MergedMeetsFormula: scores are real numbers, so the rounding of floating point sums, which can depend on the order of search types, is not modelled.
- SagaResult: of a step result only its success is kept; the data and error texts in it, and the backups in the context, are left out, since they never influence control flow.
- The compensations of the PostgreSQL delete and update steps, which no saga ever runs.
- The concrete PostgreSQL repository behind the protocols: there the database mints document ids, an update expects a dictionary, and chunk rows also reference versions.
- Node properties in the saga model, and the truncation of texts to 8000 and 500 characters; the sync model keeps its previews of 100.
- Chunk ids the create step makes up for chunks that carry none.
- Start, stop and the timer of the audit service; their effect on the buffer is a Take, a Cancel or an Append at any time.
- Hit metadata, section paths and distances of single searches; the position scores of graph hits, which fusion does not use.
- Keyword extraction, weight suggestion, query preprocessing and the single-store searches.
- Batch consumption, which bypasses handlers, and the endless loop of `consume`, which repeats ConsumeOne until stopped.
- Delivery of the sync reports themselves, and event parsing.
- Role principals and expiry dates play no part in the access queries; the string building of their SQL is not modelled.
- The sort by creation time in the listing query: rows come in a fixed order.
- Negative limits, offsets, overlaps and top-k values, which the request schemas exclude.
- Embedding models, the database engines, the HTTP layer, configuration, logging and connection lifecycles.
